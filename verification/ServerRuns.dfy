/** A server over any run of arrivals: the gate every session passed, what each
    failure leaves in the cache, and how often one payload can be accepted. */
module ServerRuns {
  import opened ByteStrings
  import opened Messages
  import opened Suites
  import opened Replay
  import opened Handshake

  /** The two entry points that can carry a payload. */
  datatype Entry = OnFirstFrame | OnSecondFrame

  /** A frame handed to an entry point, with the peer's address and the clock
      reading taken while the cache is locked. */
  datatype Arrival = Arrival(entry: Entry, frame: Frame, peerIp: Bytes16, now: U64)

  datatype Outcome = Established(session: Session) | HelloSent | Rejected(error: CoreError)

  function Handle(su: Suite, cfg: ServerConfig, cache: CacheState, a: Arrival): (CacheState, Outcome) {
    match a.entry
    case OnFirstFrame =>
      var (after, r) := OnFirst(su, cfg, a.frame, a.peerIp, a.now, cache);
      (after, if r.Err? then Rejected(r.error) else if r.value.OneRtt? then HelloSent else Established(r.value.session))
    case OnSecondFrame =>
      var (after, r) := OnClientData(su, cfg, a.frame, a.peerIp, a.now, cache);
      (after, if r.Err? then Rejected(r.error) else Established(r.value))
  }

  /** The shared cache after a run. Cache and configuration share one window. */
  function ServerRun(su: Suite, cfg: ServerConfig, arrivals: seq<Arrival>): CacheState {
    if arrivals == [] then EmptyCache(cfg.windowMs)
    else Handle(su, cfg, ServerRun(su, cfg, arrivals[..|arrivals| - 1]), arrivals[|arrivals| - 1]).0
  }

  predicate InClockOrder(arrivals: seq<Arrival>) {
    forall i, j :: 0 <= i <= j < |arrivals| ==> arrivals[i].now <= arrivals[j].now
  }

  /** The payload an arrival offers to the server, if any. */
  datatype Offer = NoOffer | Offer(clientPk: Bytes, payload: KemPayload)

  function Offered(a: Arrival): Offer {
    match (a.entry, a.frame)
    case (OnFirstFrame, ClientHelloZeroRtt(id, pk, p)) => if id == SUITE_CODE then Offer(pk, p) else NoOffer
    case (OnSecondFrame, ClientData(pk, p)) => Offer(pk, p)
    case _ => NoOffer
  }

  /** The arrival reaches the strike cache. */
  predicate Screened(su: Suite, cfg: ServerConfig, a: Arrival) {
    var o := Offered(a);
    o.Offer? && Screen(su, cfg, o.clientPk, o.payload, a.peerIp, a.now).Ok?
  }

  function StrikeOf(su: Suite, a: Arrival): Strike
    requires Offered(a).Offer?
  {
    Strike(TagOf(su, Offered(a).payload), a.now)
  }

  /** The arrival passes the window and strike checks. */
  predicate Accepts(su: Suite, cfg: ServerConfig, cache: CacheState, a: Arrival) {
    Screened(su, cfg, a) && StrikeOnce(cache, StrikeOf(su, a).tag, a.now).1.Ok?
  }

  // --- The gate ------------------------------------------------------------

  /** The cache moves only through `check_and_insert`, and only for arrivals that
      passed every check in front of it. */
  lemma CacheMoves(su: Suite, cfg: ServerConfig, cache: CacheState, a: Arrival)
    ensures Handle(su, cfg, cache, a).0 ==
            if Screened(su, cfg, a) then StrikeOnce(cache, StrikeOf(su, a).tag, a.now).0 else cache
  {
  }

  /** A session is established exactly behind the whole gate, with its tag recorded
      at this very reading of the clock, if its datum opens; a payload that passed the gate stays
      recorded even if decapsulation or opening then fails. */
  lemma Gate(su: Suite, cfg: ServerConfig, cache: CacheState, a: Arrival)
    ensures Handle(su, cfg, cache, a).1.Established?
            <==> Accepts(su, cfg, cache, a) && Establish(su, cfg, Offered(a).payload).Ok?
    ensures Accepts(su, cfg, cache, a) ==>
              var o, after := Offered(a), Handle(su, cfg, cache, a).0;
              && o.payload.srcIp == a.peerIp
              && CheckWindow(a.now, o.payload.tsMillis, cfg.windowMs, cfg.skewMs).Ok?
              && BindingVerifies(su, o.clientPk, o.payload)
              && TagOf(su, o.payload) !in Evicted(cache, a.now).entries
              && TagOf(su, o.payload) in after.entries && after.entries[TagOf(su, o.payload)] == a.now
              && Handle(su, cfg, cache, a).1 == match Establish(su, cfg, o.payload)
                                                case Ok(session) => Established(session)
                                                case Err(e) => Rejected(e)
    ensures Handle(su, cfg, cache, a).0 != cache ==> Screened(su, cfg, a)
  {
    CacheMoves(su, cfg, cache, a);
  }

  // --- Runs ----------------------------------------------------------------

  /** The calls a run makes on the strike cache. */
  function Calls(su: Suite, cfg: ServerConfig, arrivals: seq<Arrival>): (calls: seq<Strike>)
    ensures |calls| <= |arrivals|
  {
    if arrivals == [] then []
    else
      var rest, a := Calls(su, cfg, arrivals[..|arrivals| - 1]), arrivals[|arrivals| - 1];
      if Screened(su, cfg, a) then rest + [StrikeOf(su, a)] else rest
  }

  lemma {:induction false} RunIsCacheRun(su: Suite, cfg: ServerConfig, arrivals: seq<Arrival>)
    ensures ServerRun(su, cfg, arrivals) == CacheRun(cfg.windowMs, Calls(su, cfg, arrivals))
  {
    if arrivals != [] {
      var front, a := arrivals[..|arrivals| - 1], arrivals[|arrivals| - 1];
      RunIsCacheRun(su, cfg, front);
      CacheMoves(su, cfg, ServerRun(su, cfg, front), a);
      var calls := Calls(su, cfg, front);
      if Screened(su, cfg, a) {
        assert (calls + [StrikeOf(su, a)])[..|calls|] == calls;
      }
    }
  }

  lemma {:induction false} CallsMonotone(su: Suite, cfg: ServerConfig, arrivals: seq<Arrival>)
    requires InClockOrder(arrivals)
    ensures Monotone(Calls(su, cfg, arrivals))
    ensures forall i :: 0 <= i < |Calls(su, cfg, arrivals)| ==>
            Calls(su, cfg, arrivals)[i].now <= arrivals[|arrivals| - 1].now
  {
    if arrivals != [] {
      var front := arrivals[..|arrivals| - 1];
      CallsMonotone(su, cfg, front);
      if front != [] {
        assert front[|front| - 1] == arrivals[|arrivals| - 2];
      }
    }
  }

  /** The clock readings at which payload `p` passed, through either entry point. */
  function AcceptTimes(su: Suite, cfg: ServerConfig, arrivals: seq<Arrival>, p: KemPayload): (times: seq<nat>)
    ensures |times| <= |arrivals|
  {
    if arrivals == [] then []
    else
      var front, a := arrivals[..|arrivals| - 1], arrivals[|arrivals| - 1];
      var times := AcceptTimes(su, cfg, front, p);
      if Accepts(su, cfg, ServerRun(su, cfg, front), a) && Offered(a).payload == p then times + [a.now] else times
  }

  predicate Logged(log: seq<Strike>, tag: Bytes32, t: nat) {
    exists j :: 0 <= j < |log| && log[j].tag == tag && log[j].now == t
  }

  predicate TimesLogged(times: seq<nat>, log: seq<Strike>, tag: Bytes32) {
    forall i :: 0 <= i < |times| ==> Logged(log, tag, times[i])
  }

  predicate TimesInWindow(times: seq<nat>, p: KemPayload, cfg: ServerConfig) {
    forall i :: 0 <= i < |times| ==> p.tsMillis <= times[i] + cfg.skewMs && times[i] <= p.tsMillis + cfg.windowMs
  }

  lemma StaysLogged(log: seq<Strike>, tag: Bytes32, t: nat, c: Strike)
    requires Logged(log, tag, t)
    ensures Logged(log + [c], tag, t)
  {
    var j :| 0 <= j < |log| && log[j].tag == tag && log[j].now == t;
    assert (log + [c])[j] == log[j];
  }

  lemma TimesStayLogged(times: seq<nat>, log: seq<Strike>, tag: Bytes32, c: Strike)
    requires TimesLogged(times, log, tag)
    ensures TimesLogged(times, log + [c], tag)
  {
    forall i | 0 <= i < |times|
      ensures Logged(log + [c], tag, times[i])
    {
      StaysLogged(log, tag, times[i], c);
    }
  }

  lemma NewTimeApart(times: seq<nat>, log: seq<Strike>, c: Strike, window: U64)
    requires TimesLogged(times, log, c.tag) && Apart(times, window + 1) && !Struck(log, window, c)
    ensures Apart(times + [c.now], window + 1)
    ensures TimesLogged(times + [c.now], log + [c], c.tag)
  {
    forall i | 0 <= i < |times|
      ensures times[i] + window + 1 <= c.now
    {
      assert Logged(log, c.tag, times[i]);
    }
    TimesStayLogged(times, log, c.tag, c);
    assert (log + [c])[|log|] == c;
  }

  ghost predicate TimesOk(times: seq<nat>, log: seq<Strike>, tag: Bytes32, p: KemPayload, cfg: ServerConfig) {
    Apart(times, cfg.windowMs + 1) && TimesInWindow(times, p, cfg) && TimesLogged(times, log, tag)
  }

  lemma TimesOkStep(times: seq<nat>, log: seq<Strike>, c: Strike, tag: Bytes32, p: KemPayload, cfg: ServerConfig)
    requires TimesOk(times, log, tag, p, cfg)
    ensures TimesOk(times, log + [c], tag, p, cfg)
    ensures c.tag == tag && !Struck(log, cfg.windowMs, c)
            && CheckWindow(c.now, p.tsMillis, cfg.windowMs, cfg.skewMs).Ok?
            ==> TimesOk(times + [c.now], log + [c], tag, p, cfg)
  {
    TimesStayLogged(times, log, tag, c);
    if c.tag == tag && !Struck(log, cfg.windowMs, c) && CheckWindow(c.now, p.tsMillis, cfg.windowMs, cfg.skewMs).Ok? {
      NewTimeApart(times, log, c, cfg.windowMs);
      WindowIsInterval(c.now, p.tsMillis, cfg.windowMs, cfg.skewMs);
    }
  }

  /** A screened arrival passes exactly if the full log does not hold its tag. */
  lemma PassesIffFresh(su: Suite, cfg: ServerConfig, front: seq<Arrival>, a: Arrival)
    requires InClockOrder(front + [a]) && Screened(su, cfg, a)
    ensures Calls(su, cfg, front + [a]) == Calls(su, cfg, front) + [StrikeOf(su, a)]
    ensures Accepts(su, cfg, ServerRun(su, cfg, front), a)
            <==> !Struck(Log(cfg.windowMs, Calls(su, cfg, front)), cfg.windowMs, StrikeOf(su, a))
  {
    assert (front + [a])[..|front|] == front;
    CallsMonotone(su, cfg, front + [a]);
    RunIsCacheRun(su, cfg, front);
    CacheRefinesLog(cfg.windowMs, Calls(su, cfg, front), StrikeOf(su, a));
  }

  lemma LogSnoc(window: U64, calls: seq<Strike>, c: Strike)
    ensures Log(window, calls + [c]) ==
            if Struck(Log(window, calls), window, c) then Log(window, calls) else Log(window, calls) + [c]
  {
    assert (calls + [c])[..|calls|] == calls;
  }

  lemma AcceptSnoc(su: Suite, cfg: ServerConfig, front: seq<Arrival>, a: Arrival, p: KemPayload)
    ensures AcceptTimes(su, cfg, front + [a], p) ==
            if Accepts(su, cfg, ServerRun(su, cfg, front), a) && Offered(a).payload == p
            then AcceptTimes(su, cfg, front, p) + [a.now] else AcceptTimes(su, cfg, front, p)
  {
    assert (front + [a])[..|front|] == front;
  }

  lemma NoTimes(log: seq<Strike>, tag: Bytes32, p: KemPayload, cfg: ServerConfig)
    ensures TimesOk([], log, tag, p, cfg)
  {
  }

  /** The acceptances of a payload are logged under its tag, lie in its window,
      and are more than one window apart. */
  lemma {:induction false} AcceptTimesApart(su: Suite, cfg: ServerConfig, arrivals: seq<Arrival>, p: KemPayload)
    requires InClockOrder(arrivals)
    ensures TimesOk(AcceptTimes(su, cfg, arrivals, p), Log(cfg.windowMs, Calls(su, cfg, arrivals)), TagOf(su, p), p,
                    cfg)
  {
    hide Struck, StrikeOnce, Apart, TimesInWindow, TimesLogged, BindingVerifies, TagOf;
    NoTimes(Log(cfg.windowMs, []), TagOf(su, p), p, cfg);
    if arrivals != [] {
      var front, a := arrivals[..|arrivals| - 1], arrivals[|arrivals| - 1];
      assert front + [a] == arrivals;
      AcceptTimesApart(su, cfg, front, p);
      AcceptSnoc(su, cfg, front, a, p);
      if Screened(su, cfg, a) {
        PassesIffFresh(su, cfg, front, a);
        var calls, c := Calls(su, cfg, front), StrikeOf(su, a);
        LogSnoc(cfg.windowMs, calls, c);
        TimesOkStep(AcceptTimes(su, cfg, front, p), Log(cfg.windowMs, calls), c, TagOf(su, p), p, cfg);
      }
    }
  }

  /** The most often a payload stamped `ts` can pass: its window, cut to the range
      of the clock, in steps of one window and a millisecond. */
  function MaxPasses(cfg: ServerConfig, ts: U64): nat {
    1 + (SaturatingAdd(ts, cfg.windowMs) - SaturatingSub(ts, cfg.skewMs)) / (cfg.windowMs + 1)
  }

  /** Acceptance bound: over any run with a clock that does not run backwards, one
      payload passes at most `MaxPasses` times, both entry points together, which
      is never more than 1 + (window + skew) / (window + 1); at most once if its
      timestamp was not ahead of the clock when it first passed. */
  lemma AcceptanceBound(su: Suite, cfg: ServerConfig, arrivals: seq<Arrival>, p: KemPayload)
    requires InClockOrder(arrivals)
    ensures var times := AcceptTimes(su, cfg, arrivals, p);
            && |times| <= MaxPasses(cfg, p.tsMillis) <= 1 + (cfg.windowMs + cfg.skewMs) / (cfg.windowMs + 1)
            && (|times| > 0 && p.tsMillis <= times[0] ==> |times| == 1)
  {
    var times := AcceptTimes(su, cfg, arrivals, p);
    AcceptTimesApart(su, cfg, arrivals, p);
    assert TimesLogged(times, Log(cfg.windowMs, Calls(su, cfg, arrivals)), TagOf(su, p));
    TimesBound(times, p, cfg);
  }

  lemma TimesBound(times: seq<nat>, p: KemPayload, cfg: ServerConfig)
    requires Apart(times, cfg.windowMs + 1) && TimesInWindow(times, p, cfg)
    requires forall i :: 0 <= i < |times| ==> times[i] <= U64_MAX
    ensures |times| <= MaxPasses(cfg, p.tsMillis) <= 1 + (cfg.windowMs + cfg.skewMs) / (cfg.windowMs + 1)
    ensures |times| > 0 && p.tsMillis <= times[0] ==> |times| == 1
  {
    var gap, lo := cfg.windowMs + 1, SaturatingSub(p.tsMillis, cfg.skewMs);
    var span := SaturatingAdd(p.tsMillis, cfg.windowMs) - lo;
    ApartBound(times, gap, lo, span);
    QuotientMonotone(span, cfg.windowMs + cfg.skewMs, gap);
    if |times| > 1 {
      assert times[0] + gap <= times[1];
    }
  }

  lemma QuotientMonotone(a: nat, b: nat, gap: nat)
    requires gap > 0 && a <= b
    ensures a / gap <= b / gap
  {
    assert gap * (a / gap) <= a;
    QuotientBound(a / gap, gap, b);
  }

  /** Arrival `a` establishes a session from a payload of the given kind. */
  predicate Opens(su: Suite, cfg: ServerConfig, cache: CacheState, a: Arrival, kind: KemPayload -> bool) {
    Handle(su, cfg, cache, a).1.Established? && Offered(a).Offer? && kind(Offered(a).payload)
  }

  /** The clock readings at which sessions were established from such payloads. */
  function SessionTimes(su: Suite, cfg: ServerConfig, arrivals: seq<Arrival>,
                        kind: KemPayload -> bool): (times: seq<nat>)
    ensures |times| <= |arrivals|
  {
    if arrivals == [] then []
    else
      var front, a := arrivals[..|arrivals| - 1], arrivals[|arrivals| - 1];
      var times := SessionTimes(su, cfg, front, kind);
      if Opens(su, cfg, ServerRun(su, cfg, front), a, kind) then times + [a.now] else times
  }

  function Exactly(p: KemPayload): KemPayload -> bool {
    q => q == p
  }

  /** Every acceptance of a payload is a session if its datum opens, and none is
      otherwise. */
  lemma {:induction false} SessionsAreAcceptances(su: Suite, cfg: ServerConfig, arrivals: seq<Arrival>, p: KemPayload)
    ensures SessionTimes(su, cfg, arrivals, Exactly(p))
            == if Establish(su, cfg, p).Ok? then AcceptTimes(su, cfg, arrivals, p) else []
  {
    hide Handle, Accepts, Establish;
    if arrivals != [] {
      var front, a := arrivals[..|arrivals| - 1], arrivals[|arrivals| - 1];
      SessionsAreAcceptances(su, cfg, front, p);
      Gate(su, cfg, ServerRun(su, cfg, front), a);
    }
  }

  // --- When a payload is taken for a replay --------------------------------

  /** The arrival is accepted with this strike. */
  predicate Strikes(su: Suite, cfg: ServerConfig, cache: CacheState, a: Arrival, c: Strike) {
    Accepts(su, cfg, cache, a) && StrikeOf(su, a) == c
  }

  /** Arrival `i` of the run passed the window and strike checks. */
  predicate AcceptedAt(su: Suite, cfg: ServerConfig, arrivals: seq<Arrival>, i: nat)
    requires i < |arrivals|
  {
    Accepts(su, cfg, ServerRun(su, cfg, arrivals[..i]), arrivals[i])
  }

  /** Arrival `i` was accepted with this strike. */
  predicate StruckBy(su: Suite, cfg: ServerConfig, arrivals: seq<Arrival>, i: nat, c: Strike) {
    i < |arrivals| && Strikes(su, cfg, ServerRun(su, cfg, arrivals[..i]), arrivals[i], c)
  }

  lemma StruckBySnoc(su: Suite, cfg: ServerConfig, front: seq<Arrival>, a: Arrival, i: nat, c: Strike)
    ensures StruckBy(su, cfg, front + [a], i, c) <==>
            StruckBy(su, cfg, front, i, c)
            || (i == |front| && Strikes(su, cfg, ServerRun(su, cfg, front), a, c))
  {
    hide Strikes, ServerRun;
    var all := front + [a];
    if i < |front| {
      assert all[..i] == front[..i];
    } else if i == |front| {
      assert all[..i] == front;
    }
  }

  /** The log of a run holds the strikes of its accepted arrivals and no others. */
  lemma {:induction false} LogIsAcceptances(su: Suite, cfg: ServerConfig, arrivals: seq<Arrival>, c: Strike)
    requires InClockOrder(arrivals)
    ensures c in Log(cfg.windowMs, Calls(su, cfg, arrivals)) <==> exists i :: StruckBy(su, cfg, arrivals, i, c)
  {
    hide Strikes, StruckBy, Log, Calls;
    if arrivals == [] {
      LogEmpty(su, cfg, c);
    } else {
      var front, a := arrivals[..|arrivals| - 1], arrivals[|arrivals| - 1];
      assert front + [a] == arrivals;
      LogIsAcceptances(su, cfg, front, c);
      LogGrows(su, cfg, front, a, c);
      forall i: nat
        ensures StruckBy(su, cfg, arrivals, i, c) <==>
                StruckBy(su, cfg, front, i, c)
                || (i == |front| && Strikes(su, cfg, ServerRun(su, cfg, front), a, c))
      {
        StruckBySnoc(su, cfg, front, a, i, c);
      }
      assert StruckBy(su, cfg, arrivals, |front|, c) || !StruckBy(su, cfg, arrivals, |front|, c);
    }
  }

  lemma LogEmpty(su: Suite, cfg: ServerConfig, c: Strike)
    ensures c !in Log(cfg.windowMs, Calls(su, cfg, [])) && !exists i :: StruckBy(su, cfg, [], i, c)
  {
  }

  lemma LogGrows(su: Suite, cfg: ServerConfig, front: seq<Arrival>, a: Arrival, c: Strike)
    requires InClockOrder(front + [a])
    ensures c in Log(cfg.windowMs, Calls(su, cfg, front + [a])) <==>
            c in Log(cfg.windowMs, Calls(su, cfg, front))
            || Strikes(su, cfg, ServerRun(su, cfg, front), a, c)
  {
    hide Struck, ServerRun, StrikeOnce;
    if Screened(su, cfg, a) {
      PassesIffFresh(su, cfg, front, a);
      LogSnoc(cfg.windowMs, Calls(su, cfg, front), StrikeOf(su, a));
    } else {
      assert (front + [a])[..|front|] == front;
    }
  }

  /** Arrival `i` was accepted under this tag no longer than one window before `now`. */
  predicate TakenBy(su: Suite, cfg: ServerConfig, arrivals: seq<Arrival>, i: nat, tag: Bytes32, now: U64) {
    && i < |arrivals| && AcceptedAt(su, cfg, arrivals, i)
    && TagOf(su, Offered(arrivals[i]).payload) == tag && now <= arrivals[i].now + cfg.windowMs
  }

  lemma StruckThenTaken(su: Suite, cfg: ServerConfig, front: seq<Arrival>, c: Strike)
    requires InClockOrder(front) && Struck(Log(cfg.windowMs, Calls(su, cfg, front)), cfg.windowMs, c)
    ensures exists i :: TakenBy(su, cfg, front, i, c.tag, c.now)
  {
    hide Accepts, Log, Calls, ServerRun;
    var log := Log(cfg.windowMs, Calls(su, cfg, front));
    var k :| 0 <= k < |log| && log[k].tag == c.tag && log[k].now >= SaturatingSub(c.now, cfg.windowMs);
    LogIsAcceptances(su, cfg, front, log[k]);
    var i :| StruckBy(su, cfg, front, i, log[k]);
    assert TakenBy(su, cfg, front, i, c.tag, c.now);
  }

  lemma TakenThenStruck(su: Suite, cfg: ServerConfig, front: seq<Arrival>, i: nat, c: Strike)
    requires InClockOrder(front) && TakenBy(su, cfg, front, i, c.tag, c.now)
    ensures Struck(Log(cfg.windowMs, Calls(su, cfg, front)), cfg.windowMs, c)
  {
    hide Log, Calls, ServerRun, StrikeOnce;
    var d, log := StrikeOf(su, front[i]), Log(cfg.windowMs, Calls(su, cfg, front));
    assert StruckBy(su, cfg, front, i, d);
    LogIsAcceptances(su, cfg, front, d);
    var k :| 0 <= k < |log| && log[k] == d;
    assert log[k].tag == c.tag && log[k].now >= SaturatingSub(c.now, cfg.windowMs);
  }

  /** A screened arrival is turned down by the strike cache if and only if, no longer
      than one window ago, an arrival with the same tag was accepted. */
  lemma TakenIff(su: Suite, cfg: ServerConfig, front: seq<Arrival>, a: Arrival)
    requires InClockOrder(front + [a]) && Screened(su, cfg, a)
    ensures Accepts(su, cfg, ServerRun(su, cfg, front), a)
            <==> !exists i :: TakenBy(su, cfg, front, i, StrikeOf(su, a).tag, a.now)
  {
    hide Accepts, Log, Calls, TakenBy, Struck, ServerRun;
    PassesIffFresh(su, cfg, front, a);
    FrontInOrder(front, a);
    if Struck(Log(cfg.windowMs, Calls(su, cfg, front)), cfg.windowMs, StrikeOf(su, a)) {
      StruckThenTaken(su, cfg, front, StrikeOf(su, a));
    }
    if i :| TakenBy(su, cfg, front, i, StrikeOf(su, a).tag, a.now) {
      TakenThenStruck(su, cfg, front, i, StrikeOf(su, a));
    }
  }

  lemma FrontInOrder(front: seq<Arrival>, a: Arrival)
    requires InClockOrder(front + [a])
    ensures InClockOrder(front)
  {
    assert forall i :: 0 <= i < |front| ==> (front + [a])[i] == front[i];
  }

  // --- The bound is exact --------------------------------------------------

  lemma {:induction false} LogFromCalls(window: U64, calls: seq<Strike>, c: Strike)
    requires c in Log(window, calls)
    ensures c in calls
  {
    var front := calls[..|calls| - 1];
    if c in Log(window, front) {
      LogFromCalls(window, front, c);
    }
  }

  lemma {:induction false} CallsFromArrivals(su: Suite, cfg: ServerConfig, arrivals: seq<Arrival>, c: Strike)
    requires c in Calls(su, cfg, arrivals)
    ensures exists i :: 0 <= i < |arrivals| && arrivals[i].now == c.now
  {
    var front, a := arrivals[..|arrivals| - 1], arrivals[|arrivals| - 1];
    if c in Calls(su, cfg, front) {
      CallsFromArrivals(su, cfg, front, c);
      var i :| 0 <= i < |front| && front[i].now == c.now;
      assert arrivals[i] == front[i];
    } else {
      assert a.now == c.now;
    }
  }

  /** Every arrival presents `p`, passes the checks in front of the cache, and
      comes more than one window after the one before it. */
  predicate Presents(su: Suite, cfg: ServerConfig, arrivals: seq<Arrival>, p: KemPayload) {
    && (forall i :: 0 <= i < |arrivals| ==> Screened(su, cfg, arrivals[i]) && Offered(arrivals[i]).payload == p)
    && (forall i, j :: 0 <= i < j < |arrivals| ==> arrivals[i].now + cfg.windowMs + 1 <= arrivals[j].now)
  }

  lemma LateIsFresh(su: Suite, cfg: ServerConfig, front: seq<Arrival>, a: Arrival)
    requires Screened(su, cfg, a)
    requires forall i :: 0 <= i < |front| ==> front[i].now + cfg.windowMs + 1 <= a.now
    ensures !Struck(Log(cfg.windowMs, Calls(su, cfg, front)), cfg.windowMs, StrikeOf(su, a))
  {
    var log := Log(cfg.windowMs, Calls(su, cfg, front));
    forall i | 0 <= i < |log|
      ensures log[i].now < SaturatingSub(a.now, cfg.windowMs)
    {
      LogFromCalls(cfg.windowMs, Calls(su, cfg, front), log[i]);
      CallsFromArrivals(su, cfg, front, log[i]);
    }
  }

  lemma {:induction false} AllPresentationsPass(su: Suite, cfg: ServerConfig, arrivals: seq<Arrival>, p: KemPayload)
    requires Presents(su, cfg, arrivals, p)
    ensures InClockOrder(arrivals)
    ensures |AcceptTimes(su, cfg, arrivals, p)| == |arrivals|
  {
    if arrivals != [] {
      var front, a := arrivals[..|arrivals| - 1], arrivals[|arrivals| - 1];
      assert front + [a] == arrivals;
      AllPresentationsPass(su, cfg, front, p);
      LateIsFresh(su, cfg, front, a);
      PassesIffFresh(su, cfg, front, a);
      AcceptSnoc(su, cfg, front, a, p);
    }
  }

  lemma SlotFits(cfg: ServerConfig, ts: U64, i: nat)
    requires i < MaxPasses(cfg, ts)
    ensures 0 <= i * (cfg.windowMs + 1) <= SaturatingAdd(ts, cfg.windowMs) - SaturatingSub(ts, cfg.skewMs)
  {
    var gap, span := cfg.windowMs + 1, SaturatingAdd(ts, cfg.windowMs) - SaturatingSub(ts, cfg.skewMs);
    MulMonotone(gap, i, span / gap);
    assert gap * (span / gap) <= span;
  }

  lemma SlotGap(window: U64, i: nat, j: nat)
    requires i < j
    ensures i * (window + 1) + window + 1 <= j * (window + 1)
  {
    MulMonotone(window + 1, i + 1, j);
    assert (i + 1) * (window + 1) == i * (window + 1) + window + 1;
  }

  /** The same 0-RTT hello in slot `i` of the densest schedule. */
  function Slot(cfg: ServerConfig, clientPk: Bytes, p: KemPayload, i: nat): Arrival
    requires i < MaxPasses(cfg, p.tsMillis)
  {
    SlotFits(cfg, p.tsMillis, i);
    Arrival(OnFirstFrame, ClientHelloZeroRtt(SUITE_CODE, clientPk, p), p.srcIp,
            SaturatingSub(p.tsMillis, cfg.skewMs) + i * (cfg.windowMs + 1))
  }

  lemma SlotScreened(su: Suite, cfg: ServerConfig, clientPk: Bytes, p: KemPayload, i: nat)
    requires BindingVerifies(su, clientPk, p) && i < MaxPasses(cfg, p.tsMillis)
    ensures Screened(su, cfg, Slot(cfg, clientPk, p, i)) && Offered(Slot(cfg, clientPk, p, i)).payload == p
  {
    SlotFits(cfg, p.tsMillis, i);
    WindowIsInterval(Slot(cfg, clientPk, p, i).now, p.tsMillis, cfg.windowMs, cfg.skewMs);
  }

  /** The acceptance bound is attained: some run in clock order accepts a signed
      payload `MaxPasses` times. */
  lemma BoundAttained(su: Suite, cfg: ServerConfig, clientPk: Bytes, p: KemPayload) returns (arrivals: seq<Arrival>)
    requires BindingVerifies(su, clientPk, p)
    ensures InClockOrder(arrivals)
    ensures |AcceptTimes(su, cfg, arrivals, p)| == MaxPasses(cfg, p.tsMillis)
  {
    var n := MaxPasses(cfg, p.tsMillis);
    arrivals := seq(n, i requires 0 <= i < n => Slot(cfg, clientPk, p, i));
    forall i | 0 <= i < n
      ensures Screened(su, cfg, arrivals[i]) && Offered(arrivals[i]).payload == p
    {
      SlotScreened(su, cfg, clientPk, p, i);
    }
    forall i, j | 0 <= i < j < n
      ensures arrivals[i].now + cfg.windowMs + 1 <= arrivals[j].now
    {
      SlotGap(cfg.windowMs, i, j);
    }
    AllPresentationsPass(su, cfg, arrivals, p);
  }

  lemma OnePass(cfg: ServerConfig, ts: U64)
    ensures MaxPasses(cfg, ts) == 1 <==>
            cfg.skewMs == 0 || ts == 0 || SaturatingSub(ts, cfg.skewMs) + cfg.windowMs + 1 > U64_MAX
  {
    QuotientZero(SaturatingAdd(ts, cfg.windowMs) - SaturatingSub(ts, cfg.skewMs), cfg.windowMs + 1);
  }

  lemma QuotientZero(a: nat, gap: nat)
    requires gap > 0
    ensures a / gap == 0 <==> a < gap
  {
    if a >= gap {
      QuotientBound(1, gap, a);
    }
  }

  /** A signed payload passes at most once in every run in clock order if and only
      if no skew is tolerated, its timestamp is 0, or the clock ends before the
      cache could forget the earliest reading at which it can pass. */
  lemma PassesOnceIff(su: Suite, cfg: ServerConfig, clientPk: Bytes, p: KemPayload)
    requires BindingVerifies(su, clientPk, p)
    ensures (forall arrivals :: InClockOrder(arrivals) ==> |AcceptTimes(su, cfg, arrivals, p)| <= 1)
            <==> cfg.skewMs == 0 || p.tsMillis == 0
                 || SaturatingSub(p.tsMillis, cfg.skewMs) + cfg.windowMs + 1 > U64_MAX
  {
    OnePass(cfg, p.tsMillis);
    if MaxPasses(cfg, p.tsMillis) == 1 {
      forall arrivals | InClockOrder(arrivals)
        ensures |AcceptTimes(su, cfg, arrivals, p)| <= 1
      {
        AcceptanceBound(su, cfg, arrivals, p);
      }
    } else {
      var arrivals := BoundAttained(su, cfg, clientPk, p);
      assert |AcceptTimes(su, cfg, arrivals, p)| >= 2;
    }
  }

  /** With the defaults of 2000 ms and 1000 ms, a payload stamped one second ahead
      of the clock passes on arrival and again 2001 ms later. */
  lemma DefaultsAcceptTwice(su: Suite, cfg: ServerConfig, clientPk: Bytes, p: KemPayload)
    requires cfg.windowMs == 2000 && cfg.skewMs == 1000 && p.tsMillis == 1_000_000 && BindingVerifies(su, clientPk, p)
    ensures |AcceptTimes(su, cfg, [Slot(cfg, clientPk, p, 0), Slot(cfg, clientPk, p, 1)], p)| == 2
  {
    var arrivals := [Slot(cfg, clientPk, p, 0), Slot(cfg, clientPk, p, 1)];
    SlotScreened(su, cfg, clientPk, p, 0);
    SlotScreened(su, cfg, clientPk, p, 1);
    AllPresentationsPass(su, cfg, arrivals, p);
  }
}
