/** Two sessions of one sealed datum: they start from one record layer, so their
    nonces repeat across sessions and the records of one open in the other. */
module Twins {
  import opened ByteStrings
  import opened Messages
  import opened Suites
  import opened Pools
  import opened Records
  import opened Network
  import opened Replay
  import opened Handshake
  import opened ServerRuns
  import opened Resubmission
  import opened Flows
  import opened Hostile

  // --- Which sessions share hash inputs ------------------------------------

  /** Some calls on a layer of either session hash the same bytes. */
  ghost predicate ShareInput(su: Suite, keys: SessionKeys, nonce: Bytes, keys': SessionKeys, nonce': Bytes) {
    exists ops, i: nat, ops', j: nat ::
      i < |ops| && j < |ops'| && CallInput(su, keys, nonce, ops, i) == CallInput(su, keys', nonce', ops', j)
  }

  lemma FirstInput(su: Suite, keys: SessionKeys, nonce: Bytes, op: RecordOp)
    ensures CallInput(su, keys, nonce, [op], 0) == op.dir.Label() + nonce + ToBE(8, 0)
  {
    assert [op][..0] == [];
    assert [] + op.dir.Label() == op.dir.Label();
  }

  /** Two sessions can hash the same bytes for a nonce, in any direction and at any
      calls, if and only if their connection nonces are equal. */
  lemma ShareInputIff(su: Suite, keys: SessionKeys, nonce: Bytes32, keys': SessionKeys, nonce': Bytes32)
    ensures ShareInput(su, keys, nonce, keys', nonce') <==> nonce == nonce'
  {
    hide CallInput;
    if nonce == nonce' {
      var op := SealOp(ServerToClient, []);
      FirstInput(su, keys, nonce, op);
      FirstInput(su, keys', nonce', op);
      assert CallInput(su, keys, nonce, [op], 0) == CallInput(su, keys', nonce', [op], 0);
    }
    if ShareInput(su, keys, nonce, keys', nonce') {
      var ops, i: nat, ops', j: nat :|
        i < |ops| && j < |ops'| && CallInput(su, keys, nonce, ops, i) == CallInput(su, keys', nonce', ops', j);
      CallInputShape(su, keys, nonce, ops, i);
      CallInputShape(su, keys', nonce', ops', j);
    }
  }

  lemma FreshSend(su: Suite, cfg: ServerConfig, p: KemPayload)
    requires Establish(su, cfg, p).Ok?
    ensures var r := Establish(su, cfg, p).value.record;
            r.pool.s2c == InitRecord(r.keys, p.nonce).pool.s2c
            && r.pool.s2c.NonceInput() == ServerToClient.Label() + p.nonce + ToBE(8, 0)
  {
    hide OpenWith, AfterOpen;
    assert [] + ServerToClient.Label() == ServerToClient.Label();
  }

  lemma GivesEstablished(su: Suite, cfg: ServerConfig, arrivals: seq<Arrival>, i: nat, session: Session)
    requires i < |arrivals| && Gives(su, cfg, arrivals, i, session)
    ensures Offered(arrivals[i]).Offer? && Establish(su, cfg, Offered(arrivals[i]).payload) == Ok(session)
  {
    hide Establish;
    Gate(su, cfg, ServerRun(su, cfg, arrivals[..i]), arrivals[i]);
  }

  /** Two sessions of a run hash the same bytes for the nonce of their first record
      to the client if and only if they carry the same connection nonce. */
  lemma FirstInputsIff(su: Suite, cfg: ServerConfig, arrivals: seq<Arrival>, i: nat, s: Session, j: nat, t: Session)
    requires i < |arrivals| && Gives(su, cfg, arrivals, i, s) && j < |arrivals| && Gives(su, cfg, arrivals, j, t)
    ensures Offered(arrivals[i]).Offer? && Offered(arrivals[j]).Offer?
    ensures s.record.pool.s2c.NonceInput() == t.record.pool.s2c.NonceInput()
            <==> Offered(arrivals[i]).payload.nonce == Offered(arrivals[j]).payload.nonce
  {
    hide Gives, Establish;
    GivesEstablished(su, cfg, arrivals, i, s);
    GivesEstablished(su, cfg, arrivals, j, t);
    FreshSend(su, cfg, Offered(arrivals[i]).payload);
    FreshSend(su, cfg, Offered(arrivals[j]).payload);
    var a, b := s.record.pool.s2c.NonceInput(), t.record.pool.s2c.NonceInput();
    assert a[15..47] == Offered(arrivals[i]).payload.nonce && b[15..47] == Offered(arrivals[j]).payload.nonce;
  }

  // --- The same key, nonce and associated data -----------------------------

  /** Where a layer seals next: AEAD key, nonce and associated data. */
  datatype SealPoint = SealPoint(key: Bytes, nonce: Bytes, aad: Bytes)

  function PointOf(su: Suite, r: RecordState, d: Direction): SealPoint {
    SealPoint(r.keys.encKey, Nonce(su, r.pool.Dir(d)), Aad(d, r.pool.Dir(d).counter))
  }

  /** Two sessions of a run seal whatever they send first, be it different, under
      the same key, nonce and associated data. */
  ghost predicate SealAlike(su: Suite, s: Session, t: Session, d: Direction) {
    && s.record.keys == t.record.keys
    && s.record.pool.Dir(d).NonceInput() == t.record.pool.Dir(d).NonceInput()
    && PointOf(su, s.record, d) == PointOf(su, t.record, d)
    && forall pt, pt' ::
         && SealRecord(su, s.record, d, pt).1 ==
            su.aeadSeal(PointOf(su, s.record, d).key, PointOf(su, s.record, d).nonce, PointOf(su, s.record, d).aad, pt)
         && SealRecord(su, t.record, d, pt').1 ==
            su.aeadSeal(PointOf(su, s.record, d).key, PointOf(su, s.record, d).nonce, PointOf(su, s.record, d).aad, pt')
  }

  lemma EqualSealAlike(su: Suite, s: Session, d: Direction)
    ensures SealAlike(su, s, s, d)
  {
  }

  /** Nonces repeat across sessions: whatever the skew, some run in clock order has
      two sessions that seal their first records alike, in either direction. */
  lemma NoncesRepeat(su: Suite, cfg: ServerConfig, sk: Bytes, q: KemPayload, entry: Entry, ip: Bytes16, start: U64,
                     d: Direction)
    returns (arrivals: seq<Arrival>, s: Session, t: Session)
    requires su.SigLaw() && Establish(su, cfg, q).Ok? && start + cfg.windowMs + 1 <= U64_MAX
    ensures InClockOrder(arrivals) && |arrivals| == 2
    ensures Gives(su, cfg, arrivals, 0, s) && Gives(su, cfg, arrivals, 1, t) && SealAlike(su, s, t, d)
  {
    hide Establish, Gives, SealAlike;
    arrivals := ResubmittedEveryWindow(su, cfg, sk, q, entry, ip, start, 2);
    s, t := Establish(su, cfg, q).value, Establish(su, cfg, q).value;
    EqualSealAlike(su, s, d);
  }

  /** The honest flight of a client and its datum re-signed more than one window
      later: the two server sessions seal alike, and both as the client would. */
  lemma HonestNoncesRepeat(su: Suite, ccfg: ClientConfig, scfg: ServerConfig, srcIp: Bytes16, r: Bytes, nonce: Bytes32,
                           ts: U64, early: Bytes, first: U64, sk: Bytes, ip: Bytes16, later: U64, d: Direction)
    requires HonestKeys(su, ccfg, scfg) && CheckWindow(first, ts, scfg.windowMs, scfg.skewMs).Ok?
    requires first + scfg.windowMs + 1 <= later
    ensures var b := BuildPayload(su, ccfg, scfg.serverPk, srcIp, r, nonce, ts, early);
            && b.Ok?
            && var arrivals := FlightTwice(su, ccfg, b.value.payload, srcIp, first, sk, ip, later);
               var s := Session(b.value.record, early);
               && Gives(su, scfg, arrivals, 0, s) && Gives(su, scfg, arrivals, 1, s) && SealAlike(su, s, s, d)
  {
    hide BuildPayload, Gives, SealAlike, Resubmit;
    HonestFlightReplayed(su, ccfg, scfg, srcIp, r, nonce, ts, early, first, sk, ip, later);
    var b := BuildPayload(su, ccfg, scfg.serverPk, srcIp, r, nonce, ts, early);
    EqualSealAlike(su, Session(b.value.record, early), d);
  }

  // --- Never, exactly if the window never ends -----------------------------

  /** Arrival `i` establishes a session from a payload of the given kind. */
  predicate OpensAt(su: Suite, cfg: ServerConfig, arrivals: seq<Arrival>, i: nat, kind: KemPayload -> bool) {
    i < |arrivals| && Opens(su, cfg, ServerRun(su, cfg, arrivals[..i]), arrivals[i], kind)
  }

  lemma OpensAtSnoc(su: Suite, cfg: ServerConfig, front: seq<Arrival>, a: Arrival, i: nat, kind: KemPayload -> bool)
    ensures OpensAt(su, cfg, front + [a], i, kind) <==>
            OpensAt(su, cfg, front, i, kind) || (i == |front| && Opens(su, cfg, ServerRun(su, cfg, front), a, kind))
  {
    hide Opens, ServerRun;
    var all := front + [a];
    if i < |front| {
      assert all[..i] == front[..i];
    } else if i == |front| {
      assert all[..i] == front;
    }
  }

  lemma {:induction false} OneSession(su: Suite, cfg: ServerConfig, arrivals: seq<Arrival>, i: nat,
                                      kind: KemPayload -> bool)
    requires OpensAt(su, cfg, arrivals, i, kind)
    ensures |SessionTimes(su, cfg, arrivals, kind)| >= 1
  {
    hide Opens, ServerRun, OpensAt;
    assert i < |arrivals| by {
      OpensInside(su, cfg, arrivals, i, kind);
    }
    var front, a := arrivals[..|arrivals| - 1], arrivals[|arrivals| - 1];
    assert front + [a] == arrivals;
    OpensAtSnoc(su, cfg, front, a, i, kind);
    SessionSnoc(su, cfg, front, a, kind);
    if OpensAt(su, cfg, front, i, kind) {
      OneSession(su, cfg, front, i, kind);
    }
  }

  lemma OpensInside(su: Suite, cfg: ServerConfig, arrivals: seq<Arrival>, i: nat, kind: KemPayload -> bool)
    requires OpensAt(su, cfg, arrivals, i, kind)
    ensures i < |arrivals|
  {
  }

  /** Two sessions of a kind are two entries of its times. */
  lemma {:induction false} TwoSessions(su: Suite, cfg: ServerConfig, arrivals: seq<Arrival>, i: nat, j: nat,
                                       kind: KemPayload -> bool)
    requires i < j && OpensAt(su, cfg, arrivals, i, kind) && OpensAt(su, cfg, arrivals, j, kind)
    ensures |SessionTimes(su, cfg, arrivals, kind)| >= 2
  {
    hide Opens, ServerRun, OpensAt;
    OpensInside(su, cfg, arrivals, j, kind);
    var front, a := arrivals[..|arrivals| - 1], arrivals[|arrivals| - 1];
    assert front + [a] == arrivals;
    OpensAtSnoc(su, cfg, front, a, i, kind);
    OpensAtSnoc(su, cfg, front, a, j, kind);
    SessionSnoc(su, cfg, front, a, kind);
    if OpensAt(su, cfg, front, j, kind) {
      OpensInside(su, cfg, front, j, kind);
      TwoSessions(su, cfg, front, i, j, kind);
    } else {
      OneSession(su, cfg, front, i, kind);
    }
  }

  /** The session established at arrival `i`. */
  function SessionAt(su: Suite, cfg: ServerConfig, arrivals: seq<Arrival>, i: nat, kind: KemPayload -> bool): Session
    requires OpensAt(su, cfg, arrivals, i, kind)
  {
    Handle(su, cfg, ServerRun(su, cfg, arrivals[..i]), arrivals[i]).1.session
  }

  /** Two sessions of one datum with a common pool key and a common hash input. */
  ghost predicate Collide(su: Suite, cfg: ServerConfig, arrivals: seq<Arrival>, i: nat, j: nat, datum: Datum) {
    && i < j && OpensAt(su, cfg, arrivals, i, Carrying(datum)) && OpensAt(su, cfg, arrivals, j, Carrying(datum))
    && var s, t := SessionAt(su, cfg, arrivals, i, Carrying(datum)), SessionAt(su, cfg, arrivals, j, Carrying(datum));
       && s.record.keys.poolKey == t.record.keys.poolKey
       && s.record.pool.s2c.NonceInput() == t.record.pool.s2c.NonceInput()
  }

  lemma ResubmittedCollide(su: Suite, cfg: ServerConfig, q: KemPayload) returns (arrivals: seq<Arrival>)
    requires su.SigLaw() && Establish(su, cfg, q).Ok? && cfg.windowMs < U64_MAX
    ensures InClockOrder(arrivals) && Collide(su, cfg, arrivals, 0, 1, DatumOf(q))
  {
    hide Establish, Handle, ServerRun;
    arrivals := ResubmittedEveryWindow(su, cfg, [], q, OnFirstFrame, q.srcIp, 0, 2);
    var session := Establish(su, cfg, q).value;
    assert Gives(su, cfg, arrivals, 0, session) && Gives(su, cfg, arrivals, 1, session);
    AllCarry(su, cfg, arrivals, Carrying(DatumOf(q)));
  }

  /** If every arrival counts, every arrival opens. */
  lemma {:induction false} AllCarry(su: Suite, cfg: ServerConfig, arrivals: seq<Arrival>, kind: KemPayload -> bool)
    requires |SessionTimes(su, cfg, arrivals, kind)| == |arrivals|
    ensures forall i :: 0 <= i < |arrivals| ==> OpensAt(su, cfg, arrivals, i, kind)
  {
    hide Opens, ServerRun, OpensAt;
    if arrivals != [] {
      var front, a := arrivals[..|arrivals| - 1], arrivals[|arrivals| - 1];
      assert front + [a] == arrivals;
      SessionSnoc(su, cfg, front, a, kind);
      AllCarry(su, cfg, front, kind);
      forall i | 0 <= i < |arrivals|
        ensures OpensAt(su, cfg, arrivals, i, kind)
      {
        OpensAtSnoc(su, cfg, front, a, i, kind);
      }
    }
  }

  /** No two sessions of one datum ever share pool key and hash input, in any run in
      clock order, if and only if the window is the whole range of the clock. */
  lemma NeverCollideIff(su: Suite, cfg: ServerConfig, q: KemPayload)
    requires su.SigLaw() && Establish(su, cfg, q).Ok?
    ensures (forall arrivals, i, j :: InClockOrder(arrivals) ==> !Collide(su, cfg, arrivals, i, j, DatumOf(q)))
            <==> cfg.windowMs == U64_MAX
  {
    hide Establish, SessionTimes, OpensAt, SessionAt;
    if cfg.windowMs == U64_MAX {
      forall arrivals, i, j | InClockOrder(arrivals)
        ensures !Collide(su, cfg, arrivals, i, j, DatumOf(q))
      {
        if Collide(su, cfg, arrivals, i, j, DatumOf(q)) {
          TwoSessions(su, cfg, arrivals, i, j, Carrying(DatumOf(q)));
          DatumBound(su, cfg, arrivals, q);
          assert false;
        }
      }
    } else {
      var arrivals := ResubmittedCollide(su, cfg, q);
    }
  }

  // --- The recorded stream -------------------------------------------------

  /** The bodies that the client's sending loop writes for a list of chunks. */
  function RecordAll(su: Suite, r: RecordState, chunks: seq<Bytes>): seq<Bytes>
    decreases |chunks|
  {
    if chunks == [] then []
    else
      var (next, ct) := SealRecord(su, r, ClientToServer, chunks[0]);
      [RecordBody(ClientToServer, ct)] + RecordAll(su, next, chunks[1..])
  }

  /** What a server's receiving loop writes out for a list of bodies. */
  function ReceiveAll(su: Suite, r: RecordState, bodies: seq<Bytes>): Result<Bytes, NetError>
    decreases |bodies|
  {
    if bodies == [] then Ok([])
    else
      match TakeFrame(Draining, bodies[0])
      case Err(e) => Err(e)
      case Ok(Opening(ct)) =>
        var (next, pt) := OpenRecord(su, r, ClientToServer, ct);
        if pt.None? then Err(InvalidRecord)
        else
          match ReceiveAll(su, next, bodies[1..]) {
            case Err(e) => Err(e)
            case Ok(rest) => Ok(pt.value + rest)
          }
      case Ok(_) => Ok([])
  }

  lemma ReceiveOne(su: Suite, r: RecordState, chunk: Bytes, rest: seq<Bytes>)
    requires su.AeadLaw() && |chunk| <= CHUNK
    ensures var (next, ct) := SealRecord(su, r, ClientToServer, chunk);
            ReceiveAll(su, r, [RecordBody(ClientToServer, ct)] + rest) ==
            match ReceiveAll(su, next, rest) case Err(e) => Err(e) case Ok(out) => Ok(chunk + out)
  {
    hide Parse, RecordBody, Nonce, Aad;
    var (next, ct) := SealRecord(su, r, ClientToServer, chunk);
    ParseRecord(ClientToServer, ct);
    var bodies := [RecordBody(ClientToServer, ct)] + rest;
    assert bodies[1..] == rest;
    assert OpenRecord(su, r, ClientToServer, ct) == (next, Some(chunk));
  }

  lemma JoinedCons(chunk: Bytes, rest: seq<Bytes>)
    ensures Joined([chunk] + rest) == chunk + Joined(rest)
  {
    JoinedAppend([chunk], rest);
    JoinedOne(chunk);
  }

  /** A layer in the state of the sender opens the sender's whole stream. */
  lemma {:induction false} StreamOpens(su: Suite, r: RecordState, chunks: seq<Bytes>)
    requires su.AeadLaw() && ChunksOk(chunks)
    ensures ReceiveAll(su, r, RecordAll(su, r, chunks)) == Ok(Joined(chunks))
    decreases |chunks|
  {
    hide ReceiveAll, SealRecord, Joined;
    if chunks == [] {
      ReceiveNothing(su, r);
      JoinedOne([]);
    } else {
      var (next, ct) := SealRecord(su, r, ClientToServer, chunks[0]);
      StreamOpens(su, next, chunks[1..]);
      ReceiveOne(su, r, chunks[0], RecordAll(su, next, chunks[1..]));
      JoinedCons(chunks[0], chunks[1..]);
      assert [chunks[0]] + chunks[1..] == chunks;
    }
  }

  lemma ReceiveNothing(su: Suite, r: RecordState)
    ensures ReceiveAll(su, r, []) == Ok([])
  {
  }

  /** Not only the early data: whatever the client went on to send in its session,
      the recorded frames come out of the sink of the second session, to the byte. */
  lemma RecordedStreamReplayed(su: Suite, ccfg: ClientConfig, scfg: ServerConfig, srcIp: Bytes16, r: Bytes,
                               nonce: Bytes32, ts: U64, early: Bytes, first: U64, sk: Bytes, ip: Bytes16, later: U64,
                               chunks: seq<Bytes>)
    requires HonestKeys(su, ccfg, scfg) && CheckWindow(first, ts, scfg.windowMs, scfg.skewMs).Ok?
    requires first + scfg.windowMs + 1 <= later && ChunksOk(chunks)
    ensures var b := BuildPayload(su, ccfg, scfg.serverPk, srcIp, r, nonce, ts, early);
            && b.Ok?
            && var arrivals := FlightTwice(su, ccfg, b.value.payload, srcIp, first, sk, ip, later);
               exists t :: Gives(su, scfg, arrivals, 1, t) && t.early == early
                           && ReceiveAll(su, t.record, RecordAll(su, b.value.record, chunks)) == Ok(Joined(chunks))
  {
    hide BuildPayload, Gives, Resubmit, ReceiveAll, RecordAll, Joined;
    HonestFlightReplayed(su, ccfg, scfg, srcIp, r, nonce, ts, early, first, sk, ip, later);
    var b := BuildPayload(su, ccfg, scfg.serverPk, srcIp, r, nonce, ts, early);
    var arrivals := FlightTwice(su, ccfg, b.value.payload, srcIp, first, sk, ip, later);
    StreamOpens(su, b.value.record, chunks);
    assert Gives(su, scfg, arrivals, 1, Session(b.value.record, early));
  }
}
