/** Early data under other payloads. The strike cache and the work behind it read
    only the sealed datum of a payload; address, timestamp and signature can be
    replaced by anyone who signs with a key of their own. */
module Resubmission {
  import opened ByteStrings
  import opened Messages
  import opened Suites
  import opened Replay
  import opened Binding
  import opened Handshake
  import opened ServerRuns

  /** What the server decapsulates and opens. */
  datatype Datum = Datum(ciphertext: Bytes, nonce: Bytes32, encData: Bytes)

  function DatumOf(p: KemPayload): Datum {
    Datum(p.ciphertext, p.nonce, p.encData)
  }

  /** The same datum with another address and timestamp, signed with `sk`. */
  function Resign(su: Suite, sk: Bytes, q: KemPayload, ip: Bytes16, ts: U64): KemPayload {
    var msg := BindingMsg(su, ConnMeta(ip, ts, q.nonce), su.sigPublic(sk), q.ciphertext, q.encData);
    q.(srcIp := ip, tsMillis := ts, clientSig := su.sigSign(sk, msg))
  }

  /** A re-signed payload arriving from the address it names. */
  function Resubmit(su: Suite, sk: Bytes, q: KemPayload, entry: Entry, ip: Bytes16, ts: U64, now: U64): Arrival {
    var pk, p := su.sigPublic(sk), Resign(su, sk, q, ip, ts);
    Arrival(entry, if entry.OnFirstFrame? then ClientHelloZeroRtt(SUITE_CODE, pk, p) else ClientData(pk, p), ip, now)
  }

  /** What a server answers to a re-signed payload, through either entry point:
      whoever signed it, a timestamp in the window and a tag that is not in the
      evicted cache give the session of the original. */
  lemma ResignedAnswer(su: Suite, cfg: ServerConfig, cache: CacheState, sk: Bytes, q: KemPayload,
                       entry: Entry, ip: Bytes16, ts: U64, now: U64)
    requires su.SigLaw()
    ensures Handle(su, cfg, cache, Resubmit(su, sk, q, entry, ip, ts, now)).1 ==
            if CheckWindow(now, ts, cfg.windowMs, cfg.skewMs).Err? then Rejected(StaleTimestamp)
            else if TagOf(su, q) in Evicted(cache, now).entries then Rejected(Replayed)
            else if Establish(su, cfg, q).Err? then Rejected(Establish(su, cfg, q).error)
            else Established(Establish(su, cfg, q).value)
  {
    hide BindingMsg;
    var a := Resubmit(su, sk, q, entry, ip, ts, now);
    assert BindingVerifies(su, su.sigPublic(sk), Resign(su, sk, q, ip, ts));
    assert Establish(su, cfg, Offered(a).payload) == Establish(su, cfg, q);
  }

  /** A re-signed payload stamped with the current time establishes the session of
      the original exactly if its tag is not in the evicted cache. */
  lemma ResignedEstablishesIffForgotten(su: Suite, cfg: ServerConfig, cache: CacheState, sk: Bytes, q: KemPayload,
                                        entry: Entry, ip: Bytes16, now: U64)
    requires su.SigLaw() && Establish(su, cfg, q).Ok?
    ensures Handle(su, cfg, cache, Resubmit(su, sk, q, entry, ip, now, now)).1
            == Established(Establish(su, cfg, q).value)
            <==> TagOf(su, q) !in Evicted(cache, now).entries
  {
    hide Handle, Establish, Resubmit;
    WindowIsInterval(now, now, cfg.windowMs, cfg.skewMs);
    ResignedAnswer(su, cfg, cache, sk, q, entry, ip, now, now);
  }

  // --- Sessions that share a tag -------------------------------------------

  function Tagged(su: Suite, tag: Bytes32): KemPayload -> bool {
    p => TagOf(su, p) == tag
  }

  function Carrying(d: Datum): KemPayload -> bool {
    p => DatumOf(p) == d
  }

  lemma SessionSnoc(su: Suite, cfg: ServerConfig, front: seq<Arrival>, a: Arrival, kind: KemPayload -> bool)
    ensures SessionTimes(su, cfg, front + [a], kind) ==
            if Opens(su, cfg, ServerRun(su, cfg, front), a, kind)
            then SessionTimes(su, cfg, front, kind) + [a.now] else SessionTimes(su, cfg, front, kind)
  {
    assert (front + [a])[..|front|] == front;
  }

  /** Sessions of one kind, all of one tag, are logged under it and lie more than
      one window apart. */
  lemma {:induction false} SessionsLogged(su: Suite, cfg: ServerConfig, arrivals: seq<Arrival>,
                                          kind: KemPayload -> bool, tag: Bytes32)
    requires InClockOrder(arrivals) && forall p :: kind(p) ==> TagOf(su, p) == tag
    ensures Apart(SessionTimes(su, cfg, arrivals, kind), cfg.windowMs + 1)
    ensures TimesLogged(SessionTimes(su, cfg, arrivals, kind), Log(cfg.windowMs, Calls(su, cfg, arrivals)), tag)
  {
    hide Handle, Screened, Accepts, TagOf, Struck;
    if arrivals != [] {
      var front, a := arrivals[..|arrivals| - 1], arrivals[|arrivals| - 1];
      assert front + [a] == arrivals;
      SessionsLogged(su, cfg, front, kind, tag);
      SessionSnoc(su, cfg, front, a, kind);
      SessionStep(su, cfg, front, a, kind, tag);
    }
  }

  lemma SessionStep(su: Suite, cfg: ServerConfig, front: seq<Arrival>, a: Arrival, kind: KemPayload -> bool,
                    tag: Bytes32)
    requires InClockOrder(front + [a]) && forall p :: kind(p) ==> TagOf(su, p) == tag
    requires var times := SessionTimes(su, cfg, front, kind);
             Apart(times, cfg.windowMs + 1) && TimesLogged(times, Log(cfg.windowMs, Calls(su, cfg, front)), tag)
    ensures var times := SessionTimes(su, cfg, front + [a], kind);
            && Apart(times, cfg.windowMs + 1)
            && TimesLogged(times, Log(cfg.windowMs, Calls(su, cfg, front + [a])), tag)
  {
    hide Handle, TagOf, Struck;
    var times, calls := SessionTimes(su, cfg, front, kind), Calls(su, cfg, front);
    SessionSnoc(su, cfg, front, a, kind);
    Gate(su, cfg, ServerRun(su, cfg, front), a);
    if Screened(su, cfg, a) {
      var c := StrikeOf(su, a);
      PassesIffFresh(su, cfg, front, a);
      LogSnoc(cfg.windowMs, calls, c);
      TimesStayLogged(times, Log(cfg.windowMs, calls), tag, c);
      if Opens(su, cfg, ServerRun(su, cfg, front), a, kind) {
        NewTimeApart(times, Log(cfg.windowMs, calls), c, cfg.windowMs);
      }
    } else {
      assert (front + [a])[..|front|] == front;
    }
  }

  /** In-window replay is closed: over any run in clock order, whatever the
      payloads, keys, addresses and entry points, the sessions that share a replay
      tag are established at least window + 1 ms apart, and so at most
      1 + (2^64 - 1) / (window + 1) of them. */
  lemma SameTagApart(su: Suite, cfg: ServerConfig, arrivals: seq<Arrival>, tag: Bytes32)
    requires InClockOrder(arrivals)
    ensures var times := SessionTimes(su, cfg, arrivals, Tagged(su, tag));
            Apart(times, cfg.windowMs + 1) && |times| <= 1 + U64_MAX / (cfg.windowMs + 1)
  {
    SessionsLogged(su, cfg, arrivals, Tagged(su, tag), tag);
    LoggedBound(SessionTimes(su, cfg, arrivals, Tagged(su, tag)), Log(cfg.windowMs, Calls(su, cfg, arrivals)), tag,
                cfg.windowMs);
  }

  lemma LoggedBound(times: seq<nat>, log: seq<Strike>, tag: Bytes32, window: U64)
    requires Apart(times, window + 1) && TimesLogged(times, log, tag)
    ensures |times| <= 1 + U64_MAX / (window + 1)
  {
    forall i | 0 <= i < |times|
      ensures times[i] <= U64_MAX
    {
      assert Logged(log, tag, times[i]);
    }
    ApartBound(times, window + 1, 0, U64_MAX);
  }

  lemma DatumBound(su: Suite, cfg: ServerConfig, arrivals: seq<Arrival>, q: KemPayload)
    requires InClockOrder(arrivals)
    ensures |SessionTimes(su, cfg, arrivals, Carrying(DatumOf(q)))| <= 1 + U64_MAX / (cfg.windowMs + 1)
  {
    SessionsLogged(su, cfg, arrivals, Carrying(DatumOf(q)), TagOf(su, q));
    LoggedBound(SessionTimes(su, cfg, arrivals, Carrying(DatumOf(q))),
                Log(cfg.windowMs, Calls(su, cfg, arrivals)), TagOf(su, q), cfg.windowMs);
  }

  // --- Resubmitting after every window -------------------------------------

  /** Arrival `i` establishes the given session. */
  predicate Gives(su: Suite, cfg: ServerConfig, arrivals: seq<Arrival>, i: nat, session: Session)
    requires i < |arrivals|
  {
    Handle(su, cfg, ServerRun(su, cfg, arrivals[..i]), arrivals[i]).1 == Established(session)
  }

  /** Re-signed copies of `q`, stamped on arrival, each more than one window after
      the one before. */
  predicate Resubmissions(su: Suite, cfg: ServerConfig, sk: Bytes, q: KemPayload, entry: Entry, ip: Bytes16,
                          arrivals: seq<Arrival>)
  {
    && (forall i :: 0 <= i < |arrivals| ==>
          arrivals[i] == Resubmit(su, sk, q, entry, ip, arrivals[i].now, arrivals[i].now))
    && (forall i, j :: 0 <= i < j < |arrivals| ==> arrivals[i].now + cfg.windowMs + 1 <= arrivals[j].now)
  }

  /** After any run in clock order that ended more than one window ago, a re-signed
      payload establishes the session of the original. */
  lemma LateResubmission(su: Suite, cfg: ServerConfig, front: seq<Arrival>, sk: Bytes, q: KemPayload,
                         entry: Entry, ip: Bytes16, now: U64)
    requires su.SigLaw() && Establish(su, cfg, q).Ok? && InClockOrder(front)
    requires forall i :: 0 <= i < |front| ==> front[i].now + cfg.windowMs + 1 <= now
    ensures Handle(su, cfg, ServerRun(su, cfg, front), Resubmit(su, sk, q, entry, ip, now, now)).1
            == Established(Establish(su, cfg, q).value)
  {
    hide Handle, Establish, BindingMsg;
    var a := Resubmit(su, sk, q, entry, ip, now, now);
    WindowIsInterval(now, now, cfg.windowMs, cfg.skewMs);
    assert Screened(su, cfg, a);
    assert InClockOrder(front + [a]);
    LateIsFresh(su, cfg, front, a);
    PassesIffFresh(su, cfg, front, a);
    ResignedEstablishesIffForgotten(su, cfg, ServerRun(su, cfg, front), sk, q, entry, ip, now);
  }

  lemma SameDatum(su: Suite, sk: Bytes, q: KemPayload, entry: Entry, ip: Bytes16, ts: U64, now: U64)
    ensures var o := Offered(Resubmit(su, sk, q, entry, ip, ts, now));
            o.Offer? && Carrying(DatumOf(q))(o.payload)
  {
  }

  lemma GivesSnoc(su: Suite, cfg: ServerConfig, front: seq<Arrival>, a: Arrival, session: Session)
    requires forall i :: 0 <= i < |front| ==> Gives(su, cfg, front, i, session)
    requires Handle(su, cfg, ServerRun(su, cfg, front), a).1 == Established(session)
    ensures forall i :: 0 <= i < |front + [a]| ==> Gives(su, cfg, front + [a], i, session)
  {
    hide Handle, ServerRun;
    var all := front + [a];
    assert all[..|front|] == front;
    forall i | 0 <= i < |front|
      ensures Gives(su, cfg, all, i, session)
    {
      assert Gives(su, cfg, front, i, session);
      assert front[..i] == all[..i];
    }
  }

  lemma {:induction false} AllEstablish(su: Suite, cfg: ServerConfig, sk: Bytes, q: KemPayload,
                                        entry: Entry, ip: Bytes16, arrivals: seq<Arrival>)
    requires su.SigLaw() && Establish(su, cfg, q).Ok? && Resubmissions(su, cfg, sk, q, entry, ip, arrivals)
    ensures InClockOrder(arrivals)
    ensures forall i :: 0 <= i < |arrivals| ==> Gives(su, cfg, arrivals, i, Establish(su, cfg, q).value)
    ensures |SessionTimes(su, cfg, arrivals, Carrying(DatumOf(q)))| == |arrivals|
  {
    hide Handle, Establish, Resubmit, Gives, SessionTimes, ServerRun, Offered, Carrying;
    if arrivals == [] {
      assert SessionTimes(su, cfg, [], Carrying(DatumOf(q))) == [];
    } else {
      var front, a := arrivals[..|arrivals| - 1], arrivals[|arrivals| - 1];
      assert front + [a] == arrivals;
      AllEstablish(su, cfg, sk, q, entry, ip, front);
      LateResubmission(su, cfg, front, sk, q, entry, ip, a.now);
      GivesSnoc(su, cfg, front, a, Establish(su, cfg, q).value);
      SameDatum(su, sk, q, entry, ip, a.now, a.now);
      SessionSnoc(su, cfg, front, a, Carrying(DatumOf(q)));
    }
  }

  /** `n` readings from `start` on, each one window and a millisecond after the last. */
  predicate TicksFit(window: U64, start: U64, n: nat) {
    n > 0 ==> start + (n - 1) * (window + 1) <= U64_MAX
  }

  function Tick(window: U64, start: U64, n: nat, i: nat): U64
    requires i < n && TicksFit(window, start, n)
  {
    MulMonotone(window + 1, i, n - 1);
    start + i * (window + 1)
  }

  lemma TickGap(window: U64, start: U64, n: nat, i: nat, j: nat)
    requires i < j < n && TicksFit(window, start, n)
    ensures Tick(window, start, n, i) + window + 1 <= Tick(window, start, n, j)
  {
    SlotGap(window, i, j);
  }

  /** Whatever the skew, for every number of times that fits into the clock after
      `start`, some run in clock order establishes that many sessions with the same
      keys and early data, every one from a payload signed by `sk`. */
  lemma ResubmittedEveryWindow(su: Suite, cfg: ServerConfig, sk: Bytes, q: KemPayload,
                               entry: Entry, ip: Bytes16, start: U64, n: nat)
    returns (arrivals: seq<Arrival>)
    requires su.SigLaw() && Establish(su, cfg, q).Ok? && TicksFit(cfg.windowMs, start, n)
    ensures InClockOrder(arrivals) && |arrivals| == n
    ensures forall i :: 0 <= i < n ==> Gives(su, cfg, arrivals, i, Establish(su, cfg, q).value)
    ensures |SessionTimes(su, cfg, arrivals, Carrying(DatumOf(q)))| == n
  {
    hide Establish, Gives, SessionTimes, Carrying, Resign, TicksFit, Tick;
    var w := cfg.windowMs;
    arrivals := seq(n, i requires 0 <= i < n =>
                         var now := Tick(w, start, n, i); Resubmit(su, sk, q, entry, ip, now, now));
    forall i, j | 0 <= i < j < n
      ensures arrivals[i].now + w + 1 <= arrivals[j].now
    {
      TickGap(w, start, n, i, j);
    }
    AllEstablish(su, cfg, sk, q, entry, ip, arrivals);
  }

  /** How often one sealed datum can be established: exactly as often as the clock
      holds one window and a millisecond. */
  lemma DatumSessions(su: Suite, cfg: ServerConfig, q: KemPayload, n: nat)
    requires su.SigLaw() && Establish(su, cfg, q).Ok?
    ensures (exists arrivals :: InClockOrder(arrivals) && |SessionTimes(su, cfg, arrivals, Carrying(DatumOf(q)))| == n)
            <==> n <= 1 + U64_MAX / (cfg.windowMs + 1)
  {
    hide Establish, SessionTimes;
    var gap := cfg.windowMs + 1;
    if n <= 1 + U64_MAX / gap {
      if n > 0 {
        MulMonotone(gap, n - 1, U64_MAX / gap);
        assert gap * (U64_MAX / gap) <= U64_MAX;
      }
      var arrivals := ResubmittedEveryWindow(su, cfg, [], q, OnFirstFrame, q.srcIp, 0, n);
    }
    forall arrivals | InClockOrder(arrivals)
      ensures |SessionTimes(su, cfg, arrivals, Carrying(DatumOf(q)))| <= 1 + U64_MAX / gap
    {
      DatumBound(su, cfg, arrivals, q);
    }
  }

  /** One sealed early datum is established at most once in every run in clock order
      if and only if the window is the whole range of the clock. */
  lemma EstablishedOnceIff(su: Suite, cfg: ServerConfig, q: KemPayload)
    requires su.SigLaw() && Establish(su, cfg, q).Ok?
    ensures (forall arrivals :: InClockOrder(arrivals) ==>
               |SessionTimes(su, cfg, arrivals, Carrying(DatumOf(q)))| <= 1)
            <==> cfg.windowMs == U64_MAX
  {
    hide Establish, SessionTimes;
    if cfg.windowMs == U64_MAX {
      forall arrivals | InClockOrder(arrivals)
        ensures |SessionTimes(su, cfg, arrivals, Carrying(DatumOf(q)))| <= 1
      {
        DatumBound(su, cfg, arrivals, q);
      }
    } else {
      var arrivals := ResubmittedEveryWindow(su, cfg, [], q, OnFirstFrame, q.srcIp, 0, 2);
    }
  }

  /** An honest flight, and later its datum re-signed with `sk` at another address. */
  function FlightTwice(su: Suite, ccfg: ClientConfig, p: KemPayload, srcIp: Bytes16, first: U64,
                       sk: Bytes, ip: Bytes16, later: U64): (arrivals: seq<Arrival>)
    ensures |arrivals| == 2
  {
    [Arrival(OnFirstFrame, ZeroRttFrame(ccfg, p), srcIp, first), Resubmit(su, sk, p, OnFirstFrame, ip, later, later)]
  }

  /** The honest flight of a client, then the same datum re-signed by a stranger at
      another address more than one window later: both give the client's session
      and its early data, whatever the skew. */
  lemma HonestFlightReplayed(su: Suite, ccfg: ClientConfig, scfg: ServerConfig, srcIp: Bytes16, r: Bytes,
                             nonce: Bytes32, ts: U64, early: Bytes, first: U64, sk: Bytes, ip: Bytes16, later: U64)
    requires HonestKeys(su, ccfg, scfg) && CheckWindow(first, ts, scfg.windowMs, scfg.skewMs).Ok?
    requires first + scfg.windowMs + 1 <= later
    ensures var b := BuildPayload(su, ccfg, scfg.serverPk, srcIp, r, nonce, ts, early);
            && b.Ok?
            && var arrivals := FlightTwice(su, ccfg, b.value.payload, srcIp, first, sk, ip, later);
               && Gives(su, scfg, arrivals, 0, Session(b.value.record, early))
               && Gives(su, scfg, arrivals, 1, Session(b.value.record, early))
  {
    hide BuildPayload, Establish, BindingMsg, ProcessPayload, Resubmit;
    HonestEstablish(su, ccfg, scfg, srcIp, r, nonce, ts, early);
    var p := BuildPayload(su, ccfg, scfg.serverPk, srcIp, r, nonce, ts, early).value.payload;
    var a := Arrival(OnFirstFrame, ZeroRttFrame(ccfg, p), srcIp, first);
    HonestProcess(su, ccfg, scfg, srcIp, r, nonce, ts, early, srcIp, first, EmptyCache(scfg.windowMs));
    LateResubmission(su, scfg, [a], sk, p, OnFirstFrame, ip, later);
    var arrivals := [a, Resubmit(su, sk, p, OnFirstFrame, ip, later, later)];
    assert arrivals[..0] == [] && arrivals[..1] == [a];
  }

  // --- When an honest flight is taken for a replay -------------------------

  /** An honest payload arriving from the address it names. */
  function HonestArrival(ccfg: ClientConfig, p: KemPayload, entry: Entry, now: U64): Arrival {
    Arrival(entry, if entry.OnFirstFrame? then ZeroRttFrame(ccfg, p) else OneRttFinish(ccfg, p), p.srcIp, now)
  }

  /** After any run in clock order, an honest flight inside its window is answered
      Replayed if and only if, no longer than one window ago, an arrival with the
      same tag was accepted, whoever signed it and whether or not it established;
      otherwise it establishes the client's session. */
  lemma HonestReplayedIff(su: Suite, ccfg: ClientConfig, scfg: ServerConfig, srcIp: Bytes16, r: Bytes, nonce: Bytes32,
                          ts: U64, early: Bytes, front: seq<Arrival>, entry: Entry, now: U64)
    requires HonestKeys(su, ccfg, scfg) && CheckWindow(now, ts, scfg.windowMs, scfg.skewMs).Ok?
    requires InClockOrder(front) && forall i :: 0 <= i < |front| ==> front[i].now <= now
    ensures var b := BuildPayload(su, ccfg, scfg.serverPk, srcIp, r, nonce, ts, early);
            && b.Ok?
            && var p := b.value.payload;
               Handle(su, scfg, ServerRun(su, scfg, front), HonestArrival(ccfg, p, entry, now)).1 ==
               if exists i :: TakenBy(su, scfg, front, i, TagOf(su, p), now) then Rejected(Replayed)
               else Established(Session(b.value.record, early))
  {
    hide BuildPayload, Establish, BindingMsg, TakenBy, Accepts, ServerRun;
    HonestBuild(su, ccfg, scfg, srcIp, r, nonce, ts, early);
    HonestEstablish(su, ccfg, scfg, srcIp, r, nonce, ts, early);
    var p := BuildPayload(su, ccfg, scfg.serverPk, srcIp, r, nonce, ts, early).value.payload;
    var a := HonestArrival(ccfg, p, entry, now);
    HonestScreened(su, scfg, ccfg, p, entry, now);
    assert InClockOrder(front + [a]);
    TakenIff(su, scfg, front, a);
    HonestAnswer(su, scfg, ServerRun(su, scfg, front), a);
  }

  lemma HonestScreened(su: Suite, cfg: ServerConfig, ccfg: ClientConfig, p: KemPayload, entry: Entry, now: U64)
    requires CheckWindow(now, p.tsMillis, cfg.windowMs, cfg.skewMs).Ok? && BindingVerifies(su, ccfg.clientPk, p)
    ensures var a := HonestArrival(ccfg, p, entry, now);
            Screened(su, cfg, a) && Offered(a).payload == p && StrikeOf(su, a) == Strike(TagOf(su, p), now)
  {
  }

  lemma HonestAnswer(su: Suite, cfg: ServerConfig, cache: CacheState, a: Arrival)
    requires Screened(su, cfg, a) && Establish(su, cfg, Offered(a).payload).Ok?
    ensures Handle(su, cfg, cache, a).1 ==
            if Accepts(su, cfg, cache, a) then Established(Establish(su, cfg, Offered(a).payload).value)
            else Rejected(Replayed)
  {
    hide Establish, BindingVerifies;
  }

  /** A stranger's payload with the nonce and the sealed data of an honest flight,
      under any ciphertext, takes its tag: the honest flight is turned down for one
      window. */
  lemma TagTaken(su: Suite, ccfg: ClientConfig, scfg: ServerConfig, srcIp: Bytes16, r: Bytes, nonce: Bytes32, ts: U64,
                 early: Bytes, sk: Bytes, ciphertext: Bytes, ip: Bytes16, taken: U64, entry: Entry, now: U64)
    requires HonestKeys(su, ccfg, scfg) && CheckWindow(now, ts, scfg.windowMs, scfg.skewMs).Ok?
    requires taken <= now <= taken + scfg.windowMs
    ensures var b := BuildPayload(su, ccfg, scfg.serverPk, srcIp, r, nonce, ts, early);
            && b.Ok?
            && var p := b.value.payload;
               var first := Resubmit(su, sk, p.(ciphertext := ciphertext), OnFirstFrame, ip, taken, taken);
               Handle(su, scfg, ServerRun(su, scfg, [first]), HonestArrival(ccfg, p, entry, now)).1 ==
               Rejected(Replayed)
  {
    hide BuildPayload, Establish, BindingMsg;
    HonestReplayedIff(su, ccfg, scfg, srcIp, r, nonce, ts, early, [], entry, now);
    var p := BuildPayload(su, ccfg, scfg.serverPk, srcIp, r, nonce, ts, early).value.payload;
    var first := Resubmit(su, sk, p.(ciphertext := ciphertext), OnFirstFrame, ip, taken, taken);
    HonestReplayedIff(su, ccfg, scfg, srcIp, r, nonce, ts, early, [first], entry, now);
    ResubmitTaken(su, scfg, sk, p.(ciphertext := ciphertext), ip, taken, now);
  }

  lemma ResubmitTaken(su: Suite, cfg: ServerConfig, sk: Bytes, q: KemPayload, ip: Bytes16, taken: U64, now: U64)
    requires su.SigLaw() && now <= taken + cfg.windowMs
    ensures TakenBy(su, cfg, [Resubmit(su, sk, q, OnFirstFrame, ip, taken, taken)], 0, TagOf(su, q), now)
  {
    hide BindingMsg;
    var a := Resubmit(su, sk, q, OnFirstFrame, ip, taken, taken);
    WindowIsInterval(taken, taken, cfg.windowMs, cfg.skewMs);
    assert Screened(su, cfg, a);
    assert [a][..0] == [];
  }
}
