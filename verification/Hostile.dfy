/** The forwarding loops over a hostile network: after the handshake, the network
    hands each receiving loop whatever frame bodies it likes, records of other
    layers with the same keys among them. */
module Hostile {
  import opened ByteStrings
  import opened Messages
  import opened Suites
  import opened Pools
  import opened Records
  import opened Network
  import opened Handshake
  import opened Replay
  import opened Flows

  /** One endpoint: its sending loop is done or not, where its receiving loop is,
      what it wrote to its plain sink, and whether an error stopped it. */
  datatype End = End(done: bool, down: Down, out: Bytes, halted: bool)

  datatype World = World(net: Net, client: End, server: End) {
    function At(role: Role): End {
      if role.Client? then client else server
    }

    function Put(role: Role, e: End): World {
      if role.Client? then this.(client := e) else this.(server := e)
    }
  }

  /** `Write` and `Finish` are the sending loop, `Unseal` and `Sink` the receiving
      loop; `Hand` and `HangUp` are choices of the network; `Elsewhere` is a step of
      another layer with the same keys. */
  datatype Event =
    | Write(role: Role, chunk: Bytes)
    | Finish(role: Role)
    | Hand(role: Role, body: Bytes)
    | HangUp(role: Role)
    | Unseal(role: Role)
    | Sink(role: Role)
    | Elsewhere(op: NetOp)

  predicate Waits(down: Down) {
    down.AwaitAck? || down.Draining?
  }

  function DoHand(w: World, role: Role, body: Bytes): World
    requires Waits(w.At(role).down)
  {
    var end := w.At(role);
    match TakeFrame(end.down, body)
    case Err(_) => w.Put(role, end.(halted := true))
    case Ok(down) => w.Put(role, end.(down := down))
  }

  function DoUnseal(su: Suite, w: World, role: Role): World
    requires w.At(role).down.Opening?
  {
    var end := w.At(role);
    var pt := OpenRecord(su, w.net.Side(role), role.RecvDir(), end.down.ct).1;
    var n := w.(net := NetStep(su, w.net, Deliver(role, end.down.ct)));
    n.Put(role, if pt.None? then end.(halted := true) else end.(down := Sinking(pt.value)))
  }

  function DoElsewhere(su: Suite, w: World, op: NetOp): World {
    if op.EmitOther? || op.DeliverOther? then w.(net := NetStep(su, w.net, op)) else w
  }

  /** One event; an event that is not enabled leaves the world as it is. */
  function Next(su: Suite, w: World, e: Event): World {
    if e.Elsewhere? then DoElsewhere(su, w, e.op)
    else
      var end := w.At(e.role);
      if end.halted then w
      else
        match e
        case Write(role, chunk) =>
          if !end.done && 0 < |chunk| <= CHUNK then w.(net := NetStep(su, w.net, Emit(role, chunk))) else w
        case Finish(role) => w.Put(role, end.(done := true))
        case Hand(role, body) => if Waits(end.down) then DoHand(w, role, body) else w
        case HangUp(role) => if Waits(end.down) then w.Put(role, end.(down := DownEof)) else w
        case Unseal(role) => if end.down.Opening? then DoUnseal(su, w, role) else w
        case Sink(role) =>
          if end.down.Sinking? then w.Put(role, end.(down := Draining, out := end.out + end.down.pt)) else w
  }

  function Play(su: Suite, w: World, events: seq<Event>): World {
    if events == [] then w else Next(su, Play(su, w, events[..|events| - 1]), events[|events| - 1])
  }

  /** AEAD authenticity at the records that this event opens. */
  ghost predicate AuthenticEvent(su: Suite, w: World, e: Event) {
    e.Unseal? && w.At(e.role).down.Opening? ==> Authentic(su, w.net, Deliver(e.role, w.At(e.role).down.ct))
  }

  ghost predicate AuthenticEvents(su: Suite, w: World, events: seq<Event>) {
    events == []
    || (AuthenticEvents(su, w, events[..|events| - 1])
        && AuthenticEvent(su, Play(su, w, events[..|events| - 1]), events[|events| - 1]))
  }

  // --- The session a handshake leaves behind -------------------------------

  function FirstRecord(su: Suite, keys: SessionKeys, nonce: Bytes, early: Bytes): Bytes {
    SealRecord(su, InitRecord(keys, nonce), ClientToServer, early).1
  }

  /** The client has sealed the early data and the server has opened it; the server
      is about to write it out, a 0-RTT client waits for the acknowledgement. */
  function Start(su: Suite, keys: SessionKeys, nonce: Bytes, early: Bytes, zeroRtt: bool, seats: seq<Seat>): World {
    var sealed := NetStep(su, InitNet(keys, nonce, seats), Emit(Client, early));
    World(NetStep(su, sealed, Deliver(Server, FirstRecord(su, keys, nonce, early))),
          End(false, if zeroRtt then AwaitAck(KeyHash(su, sealed.client)) else Draining, [], false),
          End(false, Sinking(early), [], false))
  }

  /** The start is what an honest handshake ends in, at both ends, in either mode. */
  lemma StartIsEstablished(su: Suite, ccfg: ClientConfig, scfg: ServerConfig, srcIp: Bytes16, r: Bytes,
                           nonce: Bytes32, ts: U64, early: Bytes, zeroRtt: bool, seats: seq<Seat>,
                           peerIp: Bytes16, now: U64, cache: CacheState)
    requires HonestKeys(su, ccfg, scfg)
    ensures var b := BuildPayload(su, ccfg, scfg.serverPk, srcIp, r, nonce, ts, early);
            && b.Ok?
            && var p, w := b.value.payload, Start(su, b.value.record.keys, nonce, early, zeroRtt, seats);
               && w.net.client == b.value.record && w.client.down == FirstDown(b.value, zeroRtt)
               && (Admissible(su, scfg, p, peerIp, now, cache) ==>
                     var session := Session(w.net.server, early);
                     if zeroRtt then
                       OnFirst(su, scfg, ZeroRttFrame(ccfg, p), peerIp, now, cache).1
                       == Ok(ZeroRtt(ServerAck(b.value.expectedHash), session))
                     else OnClientData(su, scfg, OneRttFinish(ccfg, p), peerIp, now, cache).1 == Ok(session))
  {
    HonestEstablish(su, ccfg, scfg, srcIp, r, nonce, ts, early);
    StartRecords(su, ccfg, scfg, srcIp, r, nonce, ts, early, zeroRtt, seats);
    HonestProcess(su, ccfg, scfg, srcIp, r, nonce, ts, early, peerIp, now, cache);
  }

  lemma StartRecords(su: Suite, ccfg: ClientConfig, scfg: ServerConfig, srcIp: Bytes16, r: Bytes,
                     nonce: Bytes32, ts: U64, early: Bytes, zeroRtt: bool, seats: seq<Seat>)
    requires HonestKeys(su, ccfg, scfg)
    ensures var b := BuildPayload(su, ccfg, scfg.serverPk, srcIp, r, nonce, ts, early);
            && b.Ok?
            && var w := Start(su, b.value.record.keys, nonce, early, zeroRtt, seats);
               && w.net.client == b.value.record && w.net.server == b.value.record
               && w.client.down == FirstDown(b.value, zeroRtt)
               && b.value.payload.encData == FirstRecord(su, b.value.record.keys, nonce, early)
  {
    HonestEstablish(su, ccfg, scfg, srcIp, r, nonce, ts, early);
  }

  // --- Invariant -----------------------------------------------------------

  function Joined(pts: seq<Bytes>): Bytes {
    if pts == [] then [] else Joined(pts[..|pts| - 1]) + pts[|pts| - 1]
  }

  lemma JoinedSnoc(pts: seq<Bytes>, pt: Bytes)
    ensures Joined(pts + [pt]) == Joined(pts) + pt
  {
    assert (pts + [pt])[..|pts|] == pts;
  }

  lemma {:induction false} JoinedAppend(pts: seq<Bytes>, more: seq<Bytes>)
    ensures Joined(pts + more) == Joined(pts) + Joined(more)
  {
    if more == [] {
      assert pts + more == pts;
    } else {
      var front, last := more[..|more| - 1], more[|more| - 1];
      JoinedAppend(pts, front);
      assert pts + more == (pts + front) + [last];
      JoinedSnoc(pts + front, last);
      Associate(Joined(pts), Joined(front), last);
    }
  }

  predicate NoFailure(tried: seq<Option<Bytes>>) {
    forall i :: 0 <= i < |tried| ==> tried[i].Some?
  }

  lemma {:induction false} UpToFailureSnoc(tried: seq<Option<Bytes>>, pt: Option<Bytes>)
    requires NoFailure(tried)
    ensures |UpToFailure(tried)| == |tried|
    ensures UpToFailure(tried + [pt]) == if pt.Some? then UpToFailure(tried) + [pt.value] else UpToFailure(tried)
  {
    if tried == [] {
      assert (tried + [pt])[1..] == [];
    } else {
      UpToFailureSnoc(tried[1..], pt);
      assert (tried + [pt])[1..] == tried[1..] + [pt];
    }
  }

  /** Every chunk of a sending loop is non-empty; only the early data may be. */
  predicate NonEmptyFrom(sent: seq<Bytes>, first: nat) {
    forall i :: first <= i < |sent| ==> sent[i] != []
  }

  /** A receiving loop has written, or is about to write, what came out before the
      first failure, and a failure stops it. */
  ghost predicate EndOk(e: End, h: History) {
    && e.out + Pending(e.down) == Joined(UpToFailure(h.tried))
    && (!e.halted ==> NoFailure(h.tried))
    && (e.halted ==> !e.down.Sinking? && !e.down.DownClosed?)
  }

  ghost predicate WorldInv(su: Suite, keys: SessionKeys, w: World) {
    && NetInv(su, keys, w.net)
    && EndOk(w.client, w.net.s2c) && EndOk(w.server, w.net.c2s)
    && |w.net.c2s.tried| >= 1 && NonEmptyFrom(w.net.c2s.sent, 1) && NonEmptyFrom(w.net.s2c.sent, 0)
  }

  lemma StartNetOk(su: Suite, keys: SessionKeys, nonce: Bytes, early: Bytes, zeroRtt: bool, seats: seq<Seat>)
    requires su.AeadLaw()
    ensures NetInv(su, keys, Start(su, keys, nonce, early, zeroRtt, seats).net)
  {
    hide NetInv, Aad, Nonce;
    var blank, ct := InitNet(keys, nonce, seats), FirstRecord(su, keys, nonce, early);
    var sealed := NetStep(su, blank, Emit(Client, early));
    StartNet(su, keys, nonce, seats);
    EmitKeeps(su, keys, blank, Client, early);
    assert SealedBy(su, true, blank.client, ClientToServer, 0, early) in sealed.sealed;
    DeliverKeeps(su, keys, sealed, Server, ct);
  }

  lemma StartShape(su: Suite, keys: SessionKeys, nonce: Bytes, early: Bytes, zeroRtt: bool, seats: seq<Seat>)
    requires su.AeadLaw()
    ensures var w := Start(su, keys, nonce, early, zeroRtt, seats);
            && w.net.client == w.net.server && w.net.client.keys == keys
            && w.net.client.pool.c2s == Advance(InitRecord(keys, nonce).pool.c2s, FirstRecord(su, keys, nonce, early))
            && w.net.client.pool.s2c == InitRecord(keys, nonce).pool.s2c
            && w.net.c2s == History([early], [Some(early)]) && w.net.s2c == History([], [])
            && w.net.others == Seated(keys, seats)
            && w.net.sealed == {SealedBy(su, true, InitRecord(keys, nonce), ClientToServer, 0, early)}
  {
    hide Aad, Nonce;
  }

  lemma StartOk(su: Suite, keys: SessionKeys, nonce: Bytes, early: Bytes, zeroRtt: bool, seats: seq<Seat>)
    requires su.AeadLaw()
    ensures WorldInv(su, keys, Start(su, keys, nonce, early, zeroRtt, seats))
  {
    hide NetInv, NetStep, Seated, SealedBy, Advance, FirstRecord;
    StartNetOk(su, keys, nonce, early, zeroRtt, seats);
    StartShape(su, keys, nonce, early, zeroRtt, seats);
    assert UpToFailure([Some(early)]) == [early] + UpToFailure([]);
    JoinedSnoc([], early);
    assert [] + [early] == [early];
  }

  lemma WriteKeeps(su: Suite, keys: SessionKeys, w: World, role: Role, chunk: Bytes)
    requires WorldInv(su, keys, w) && chunk != []
    ensures WorldInv(su, keys, w.(net := NetStep(su, w.net, Emit(role, chunk))))
  {
    hide NetInv, SealRecord, SealedBy;
    EmitKeeps(su, keys, w.net, role, chunk);
  }

  lemma ElsewhereKeeps(su: Suite, keys: SessionKeys, w: World, op: NetOp)
    requires WorldInv(su, keys, w)
    ensures WorldInv(su, keys, DoElsewhere(su, w, op))
  {
    hide NetInv, SealRecord, OpenRecord, SealedBy, EndOk;
    if op.EmitOther? || op.DeliverOther? {
      OtherKeeps(su, keys, w.net, op);
    }
  }

  lemma EndUnseals(e: End, h: History, pt: Option<Bytes>)
    requires EndOk(e, h) && !e.halted && e.down.Opening?
    ensures EndOk(if pt.None? then e.(halted := true) else e.(down := Sinking(pt.value)), h.(tried := h.tried + [pt]))
  {
    UpToFailureSnoc(h.tried, pt);
    if pt.Some? {
      JoinedSnoc(UpToFailure(h.tried), pt.value);
      assert e.out + Pending(e.down) == e.out;
    }
  }

  lemma UnsealKeeps(su: Suite, keys: SessionKeys, w: World, role: Role)
    requires su.AeadLaw() && WorldInv(su, keys, w)
    requires !w.At(role).halted && w.At(role).down.Opening? && AuthenticEvent(su, w, Unseal(role))
    ensures WorldInv(su, keys, DoUnseal(su, w, role))
  {
    hide NetInv, OpenWith, AfterOpen, EndOk, Authentic;
    var end, d := w.At(role), role.RecvDir();
    DeliverKeeps(su, keys, w.net, role, end.down.ct);
    EndUnseals(end, w.net.Hist(d), OpenRecord(su, w.net.Side(role), d, end.down.ct).1);
  }

  lemma EndTakes(e: End, h: History, body: Bytes)
    requires EndOk(e, h) && !e.halted && Waits(e.down)
    ensures EndOk(e.(halted := true), h)
    ensures TakeFrame(e.down, body).Ok? ==> EndOk(e.(down := TakeFrame(e.down, body).value), h)
    ensures EndOk(e.(down := DownEof), h)
  {
    hide Parse;
  }

  lemma EndMoves(e: End, h: History)
    requires EndOk(e, h) && !e.halted
    ensures EndOk(e.(done := true), h)
    ensures e.down.Sinking? ==> EndOk(e.(down := Draining, out := e.out + e.down.pt), h)
  {
    if e.down.Sinking? {
      assert (e.out + e.down.pt) + Pending(Draining) == e.out + e.down.pt;
    }
  }

  lemma NextKeeps(su: Suite, keys: SessionKeys, w: World, e: Event)
    requires su.AeadLaw() && WorldInv(su, keys, w) && AuthenticEvent(su, w, e)
    ensures WorldInv(su, keys, Next(su, w, e))
  {
    hide NetStep, TakeFrame, DoUnseal, DoElsewhere, NetInv, EndOk, AuthenticEvent;
    if e.Elsewhere? {
      ElsewhereKeeps(su, keys, w, e.op);
    } else if !w.At(e.role).halted {
      var end := w.At(e.role);
      EndMoves(end, w.net.Hist(e.role.RecvDir()));
      match e
      case Write(role, chunk) =>
        if chunk != [] {
          WriteKeeps(su, keys, w, role, chunk);
        }
      case Unseal(role) =>
        if end.down.Opening? {
          UnsealKeeps(su, keys, w, role);
        }
      case Hand(role, body) =>
        if Waits(end.down) {
          EndTakes(end, w.net.Hist(role.RecvDir()), body);
        }
      case HangUp(role) =>
        if Waits(end.down) {
          EndTakes(end, w.net.Hist(role.RecvDir()), []);
        }
      case Finish(_) =>
      case Sink(_) =>
    }
  }

  lemma {:induction false} PlayKeeps(su: Suite, keys: SessionKeys, start: World, events: seq<Event>)
    requires su.AeadLaw() && WorldInv(su, keys, start) && AuthenticEvents(su, start, events)
    ensures WorldInv(su, keys, Play(su, start, events))
  {
    hide WorldInv, Next, AuthenticEvent;
    if events != [] {
      var front := events[..|events| - 1];
      PlayKeeps(su, keys, start, front);
      NextKeeps(su, keys, Play(su, start, front), events[|events| - 1]);
    }
  }

  lemma NextSeats(su: Suite, w: World, e: Event, d: Direction)
    ensures OthersSeal(Next(su, w, e).net.others, d) <==> OthersSeal(w.net.others, d)
  {
    hide NetStep, TakeFrame, OpenRecord, OthersSeal;
    forall op
      ensures OthersSeal(NetStep(su, w.net, op).others, d) <==> OthersSeal(w.net.others, d)
    {
      StepSeats(su, w.net, op);
      SameRoles(w.net.others, NetStep(su, w.net, op).others, d);
    }
  }

  lemma {:induction false} WorldSeats(su: Suite, start: World, events: seq<Event>, d: Direction)
    ensures OthersSeal(Play(su, start, events).net.others, d) <==> OthersSeal(start.net.others, d)
  {
    hide Next, OthersSeal;
    if events != [] {
      var front := events[..|events| - 1];
      WorldSeats(su, start, front, d);
      NextSeats(su, Play(su, start, front), events[|events| - 1], d);
    }
  }

  // --- What the plain sink can be made to hold -----------------------------

  lemma JoinedNonEmpty(pts: seq<Bytes>)
    requires NonEmptyFrom(pts, 0)
    ensures Joined(pts) == [] <==> pts == []
  {
  }

  lemma EndPrefix(e: End, h: History, first: nat)
    requires EndOk(e, h) && DeliversInPlace(h) && NonEmptyFrom(h.sent, first) && first <= |h.tried|
    ensures e.out <= Joined(h.sent)
    ensures e.down.DownClosed? ==> (e.out == Joined(h.sent) <==> |h.tried| == |h.sent|)
  {
    InPlacePrefix(h.tried, h.sent);
    var got := UpToFailure(h.tried);
    var rest := h.sent[|got|..];
    assert h.sent == got + rest;
    JoinedAppend(got, rest);
    Associate(e.out, Pending(e.down), Joined(rest));
    assert e.out <= Joined(h.sent) by {
      assert Joined(h.sent) == e.out + (Pending(e.down) + Joined(rest));
    }
    if e.down.DownClosed? {
      UpToFailureSnoc(h.tried, None);
      JoinedNonEmpty(rest);
      assert e.out + Pending(e.down) == e.out;
    }
  }

  /** Over a network that drops, duplicates, reorders, injects and ends streams at
      will, and with any other layers that have the same keys: what each plain sink
      holds or is about to get is what opened before the first failure, each piece
      sealed by some such layer in that direction at that position. If no other
      layer seals towards this end, the sink holds at all times a prefix of what the
      peer put in; and a processed Close means that all of it arrived exactly if
      every record sealed towards this end was opened here. */
  lemma HostileDelivery(su: Suite, keys: SessionKeys, nonce: Bytes, early: Bytes, zeroRtt: bool, seats: seq<Seat>,
                        events: seq<Event>, role: Role)
    requires su.AeadLaw() && AuthenticEvents(su, Start(su, keys, nonce, early, zeroRtt, seats), events)
    ensures var w, d := Play(su, Start(su, keys, nonce, early, zeroRtt, seats), events), role.RecvDir();
            var e, h := w.At(role), w.net.Hist(d);
            && e.out + Pending(e.down) == Joined(UpToFailure(h.tried))
            && OpensSealed(w.net.sealed, d, h.tried)
            && (InRange(w.net, d) ==> OpensExactly(w.net.sealed, d, h.tried))
            && (InRange(w.net, d) && !SeatsSeal(seats, d) ==>
                  && e.out <= Joined(h.sent)
                  && (e.down.DownClosed? ==> (e.out == Joined(h.sent) <==> |h.tried| == |h.sent|)))
  {
    hide Start, Play, SealedWell, DeliversInPlace, OpensSealed, OpensExactly, InRange, SeatsSeal, OthersSeal;
    hide CountersOk, Accounted, InitNet, NetStep;
    var start, d := Start(su, keys, nonce, early, zeroRtt, seats), role.RecvDir();
    StartOk(su, keys, nonce, early, zeroRtt, seats);
    PlayKeeps(su, keys, start, events);
    var w := Play(su, start, events);
    if InRange(w.net, d) {
      ExactInRange(w.net, d);
      if !SeatsSeal(seats, d) {
        StartShape(su, keys, nonce, early, zeroRtt, seats);
        InitSeats(keys, nonce, seats, d);
        SeatedOthers(keys, nonce, seats);
        WorldSeats(su, start, events, d);
        PeerInRange(su, keys, w.net, d);
        EndPrefix(w.At(role), w.net.Hist(d), if role.Client? then 0 else 1);
      }
    }
  }

  lemma SeatedOthers(keys: SessionKeys, nonce: Bytes, seats: seq<Seat>)
    ensures InitNet(keys, nonce, seats).others == Seated(keys, seats)
  {
  }

  // --- How a loop ends -----------------------------------------------------

  /** An end stops exactly on a body that its loop refuses or a record that does not
      open, ends quietly when the stream ends, and writes nothing once it is done. */
  lemma LoopEnds(su: Suite, w: World, role: Role, body: Bytes, chunk: Bytes)
    requires !w.At(role).halted
    ensures Waits(w.At(role).down) ==>
              && (Next(su, w, Hand(role, body)).At(role).halted <==> TakeFrame(w.At(role).down, body).Err?)
              && Next(su, w, HangUp(role)) == w.Put(role, w.At(role).(down := DownEof))
    ensures w.At(role).down.Opening? ==>
              (Next(su, w, Unseal(role)).At(role).halted
               <==> OpenRecord(su, w.net.Side(role), role.RecvDir(), w.At(role).down.ct).1.None?)
    ensures Next(su, Next(su, w, Finish(role)), Write(role, chunk)) == Next(su, w, Finish(role))
  {
    hide TakeFrame, OpenRecord, NetStep;
  }

  /** What a 0-RTT client waits for: the hash of the session key. */
  function AckBody(su: Suite, keys: SessionKeys): Bytes {
    EncodeBody(ServerAck(su.hash512(keys.encKey)))
  }

  /** The client still waits, or saw the stream end first; it has written nothing. */
  predicate Unconfirmed(su: Suite, keys: SessionKeys, e: End) {
    e.out == [] && (e.down == AwaitAck(su.hash512(keys.encKey)) || e.down.DownEof?)
  }

  lemma UnconfirmedStep(su: Suite, keys: SessionKeys, w: World, e: Event)
    requires su.SizeLaw() && Unconfirmed(su, keys, w.client)
    ensures Unconfirmed(su, keys, Next(su, w, e).client) || e == Hand(Client, AckBody(su, keys))
  {
    hide TakeFrame, OpenRecord, NetStep, EncodeBody, Suite.SizeLaw;
    if e.Hand? && e.role.Client? && w.client.down.AwaitAck? {
      KeyHashSize(su, keys.encKey);
      AckIff(su.hash512(keys.encKey), e.body);
    }
  }

  lemma KeyHashSize(su: Suite, key: Bytes)
    requires su.SizeLaw()
    ensures |su.hash512(key)| == 64
  {
  }

  /** Key confirmation over every run, authentic or not: a 0-RTT client writes nothing
      out, and reads no record, before it was handed an acknowledgement with the hash
      of its own session key. */
  lemma {:induction false} ConfirmedFirst(su: Suite, keys: SessionKeys, nonce: Bytes, early: Bytes, seats: seq<Seat>,
                                          events: seq<Event>)
    requires su.SizeLaw()
    ensures var w := Play(su, Start(su, keys, nonce, early, true, seats), events);
            Unconfirmed(su, keys, w.client) || Hand(Client, AckBody(su, keys)) in events
  {
    hide Next, Start, Unconfirmed, AckBody, Suite.SizeLaw;
    var start := Start(su, keys, nonce, early, true, seats);
    if events == [] {
      StartUnconfirmed(su, keys, nonce, early, seats);
    } else {
      var front, e := events[..|events| - 1], events[|events| - 1];
      ConfirmedFirst(su, keys, nonce, early, seats, front);
      if Unconfirmed(su, keys, Play(su, start, front).client) {
        UnconfirmedStep(su, keys, Play(su, start, front), e);
      }
    }
  }

  lemma StartUnconfirmed(su: Suite, keys: SessionKeys, nonce: Bytes, early: Bytes, seats: seq<Seat>)
    ensures Unconfirmed(su, keys, Start(su, keys, nonce, early, true, seats).client)
  {
    hide Nonce, Aad, Advance;
  }

  // --- Close can be injected after any prefix ------------------------------

  lemma PlaySnoc(su: Suite, w: World, events: seq<Event>, e: Event)
    ensures Play(su, w, events + [e]) == Next(su, Play(su, w, events), e)
    ensures AuthenticEvents(su, w, events + [e])
            <==> AuthenticEvents(su, w, events) && AuthenticEvent(su, Play(su, w, events), e)
  {
    hide Next, AuthenticEvent;
    assert (events + [e])[..|events|] == events;
  }

  /** All that the receiving end has: its loop and its record layer. */
  function View(w: World, role: Role): (End, RecordState) {
    (w.At(role), w.net.Side(role))
  }

  predicate CanSend(w: World, role: Role) {
    !w.At(role).halted && !w.At(role).done
  }

  /** The peer may send, and the receiver has opened all that was sealed so far. */
  predicate Abreast(w: World, role: Role) {
    var d := role.RecvDir();
    && CanSend(w, role.Peer()) && !w.At(role).halted && w.At(role).down.Draining?
    && w.net.client.keys == w.net.server.keys
    && w.net.Side(role.Peer()).pool.Dir(d) == w.net.Side(role).pool.Dir(d)
  }

  predicate ChunksOk(chunks: seq<Bytes>) {
    forall i :: 0 <= i < |chunks| ==> 0 < |chunks[i]| <= CHUNK
  }

  function NextCt(su: Suite, w: World, role: Role, chunk: Bytes): Bytes {
    SealRecord(su, w.net.Side(role), role.SendDir(), chunk).1
  }

  /** A chunk is sealed and handed over. */
  lemma Carried(su: Suite, w: World, role: Role, chunk: Bytes)
    requires su.AeadLaw() && Abreast(w, role) && 0 < |chunk| <= CHUNK
    ensures var ct, d := NextCt(su, w, role.Peer(), chunk), role.RecvDir();
            var n := Next(su, Next(su, w, Write(role.Peer(), chunk)), Hand(role, RecordBody(d, ct)));
            n == w.(net := NetStep(su, w.net, Emit(role.Peer(), chunk))).Put(role, w.At(role).(down := Opening(ct)))
  {
    hide Parse, RecordBody, SealWith;
    var ct := NextCt(su, w, role.Peer(), chunk);
    assert |ct| == |chunk| + TAG_LEN by {
      SealSize(su, w.net.Side(role.Peer()), role.RecvDir(), chunk);
    }
    ParseRecord(role.RecvDir(), ct);
  }

  lemma SealSize(su: Suite, r: RecordState, d: Direction, pt: Bytes)
    requires su.AeadLaw()
    ensures |SealRecord(su, r, d, pt).1| == |pt| + TAG_LEN
  {
  }

  /** What the peer has just sealed opens at a receiver in step, and its opening is
      authentic. */
  lemma Unsealed(su: Suite, w: World, role: Role, chunk: Bytes)
    requires su.AeadLaw() && Abreast(w, role)
    ensures var ct, d := NextCt(su, w, role.Peer(), chunk), role.RecvDir();
            var sealed := w.(net := NetStep(su, w.net, Emit(role.Peer(), chunk)));
            var m := sealed.Put(role, w.At(role).(down := Opening(ct)));
            && AuthenticEvent(su, m, Unseal(role))
            && DoUnseal(su, m, role).At(role) == w.At(role).(down := Sinking(chunk))
            && DoUnseal(su, m, role).At(role.Peer()) == w.At(role.Peer())
            && Abreast(DoUnseal(su, m, role).Put(role, w.At(role)), role)
            && DoUnseal(su, m, role).net.Hist(d) ==
               History(w.net.Hist(d).sent + [chunk], w.net.Hist(d).tried + [Some(chunk)])
  {
    hide Aad, Nonce, Advance;
    var ct, d := NextCt(su, w, role.Peer(), chunk), role.RecvDir();
    var s := w.net.Side(role).pool.Dir(d);
    var key := w.net.client.keys.encKey;
    assert OpenWith(su, key, d, s, ct) == Some(chunk);
    var n := NetStep(su, w.net, Emit(role.Peer(), chunk));
    assert SealedBy(su, true, w.net.Side(role.Peer()), d, |w.net.Hist(d).sent|, chunk) in n.sealed;
  }

  lemma Round(su: Suite, start: World, events: seq<Event>, role: Role, chunk: Bytes) returns (all: seq<Event>)
    requires su.AeadLaw() && AuthenticEvents(su, start, events) && Abreast(Play(su, start, events), role)
             && 0 < |chunk| <= CHUNK
    ensures AuthenticEvents(su, start, all)
    ensures var d, w, n := role.RecvDir(), Play(su, start, events), Play(su, start, all);
            && Abreast(n, role) && n.At(role).out == w.At(role).out + chunk
            && n.net.Hist(d) == History(w.net.Hist(d).sent + [chunk], w.net.Hist(d).tried + [Some(chunk)])
  {
    hide Play, AuthenticEvents, NetStep, TakeFrame, SealRecord, OpenRecord;
    var w := Play(su, start, events);
    var a, b := Write(role.Peer(), chunk), Hand(role, RecordBody(role.RecvDir(), NextCt(su, w, role.Peer(), chunk)));
    Carried(su, w, role, chunk);
    Unsealed(su, w, role, chunk);
    PlaySnoc(su, start, events, a);
    PlaySnoc(su, start, events + [a], b);
    PlaySnoc(su, start, events + [a] + [b], Unseal(role));
    PlaySnoc(su, start, events + [a] + [b] + [Unseal(role)], Sink(role));
    all := events + [a] + [b] + [Unseal(role)] + [Sink(role)];
  }

  /** The network delivers some chunks faithfully. */
  lemma {:induction false} Rounds(su: Suite, start: World, events: seq<Event>, role: Role,
                                  chunks: seq<Bytes>) returns (all: seq<Event>)
    requires su.AeadLaw() && AuthenticEvents(su, start, events) && Abreast(Play(su, start, events), role)
             && ChunksOk(chunks)
    ensures AuthenticEvents(su, start, all)
    ensures var d, w, n := role.RecvDir(), Play(su, start, events), Play(su, start, all);
            && Abreast(n, role) && n.At(role).out == w.At(role).out + Joined(chunks)
            && n.net.Hist(d).sent == w.net.Hist(d).sent + chunks
            && |n.net.Hist(d).tried| == |w.net.Hist(d).tried| + |chunks|
    decreases |chunks|
  {
    hide Play, AuthenticEvents, Abreast;
    var d, w := role.RecvDir(), Play(su, start, events);
    if chunks == [] {
      all := events;
      assert w.At(role).out + [] == w.At(role).out && w.net.Hist(d).sent + [] == w.net.Hist(d).sent;
    } else {
      var front, last := chunks[..|chunks| - 1], chunks[|chunks| - 1];
      var most := Rounds(su, start, events, role, front);
      all := Round(su, start, most, role, last);
      assert front + [last] == chunks;
      Associate(w.net.Hist(d).sent, front, [last]);
      Associate(w.At(role).out, Joined(front), last);
    }
  }

  /** The peer goes on sending, and the network keeps it all back. */
  lemma {:induction false} HeldBack(su: Suite, start: World, events: seq<Event>, role: Role,
                                    rest: seq<Bytes>) returns (all: seq<Event>)
    requires AuthenticEvents(su, start, events) && CanSend(Play(su, start, events), role.Peer()) && ChunksOk(rest)
    ensures AuthenticEvents(su, start, all)
    ensures var d, w, n := role.RecvDir(), Play(su, start, events), Play(su, start, all);
            && View(n, role) == View(w, role) && CanSend(n, role.Peer())
            && n.net.Hist(d).sent == w.net.Hist(d).sent + rest
    decreases |rest|
  {
    hide Play, AuthenticEvents;
    var d, w := role.RecvDir(), Play(su, start, events);
    if rest == [] {
      all := events;
      assert w.net.Hist(d).sent + [] == w.net.Hist(d).sent;
    } else {
      var front, last := rest[..|rest| - 1], rest[|rest| - 1];
      var most := HeldBack(su, start, events, role, front);
      PlaySnoc(su, start, most, Write(role.Peer(), last));
      all := most + [Write(role.Peer(), last)];
      assert front + [last] == rest;
      Associate(w.net.Hist(d).sent, front, [last]);
    }
  }

  lemma ReadsAck(su: Suite, w: World)
    requires su.SizeLaw() && !w.client.halted && w.client.down == AwaitAck(KeyHash(su, w.net.client))
    ensures Next(su, w, Hand(Client, EncodeBody(ServerAck(KeyHash(su, w.net.client)))))
            == w.(client := w.client.(down := Draining))
  {
    hide EncodeBody, Parse;
    AckSize(KeyHash(su, w.net.client));
    ParseIntact(ServerAck(KeyHash(su, w.net.client)));
  }

  lemma JoinedOne(pt: Bytes)
    ensures Joined([pt]) == pt && Joined([]) == []
  {
    JoinedSnoc([], pt);
    assert [] + [pt] == [pt];
  }

  /** The first step brings the receiver into step. */
  lemma Begins(su: Suite, keys: SessionKeys, nonce: Bytes, early: Bytes, zeroRtt: bool,
               seats: seq<Seat>, role: Role) returns (events: seq<Event>)
    requires su.AeadLaw() && su.SizeLaw()
    ensures var start := Start(su, keys, nonce, early, zeroRtt, seats);
            var w := Play(su, start, events);
            && AuthenticEvents(su, start, events) && Abreast(w, role)
            && w.net == start.net && w.At(role).out == Joined(w.net.Hist(role.RecvDir()).sent)
  {
    hide Start, Play, AuthenticEvents, DoHand, DoUnseal, NetStep, EncodeBody, KeyHash, Joined, WorldInv;
    StartShape(su, keys, nonce, early, zeroRtt, seats);
    StartEnds(su, keys, nonce, early, zeroRtt, seats);
    JoinedOne(early);
    var start := Start(su, keys, nonce, early, zeroRtt, seats);
    PlayNothing(su, start);
    if role.Client? && !zeroRtt {
      events := [];
    } else if role.Client? {
      ReadsAck(su, start);
      events := PlayOne(su, start, Hand(Client, EncodeBody(ServerAck(KeyHash(su, start.net.client)))));
    } else {
      events := PlayOne(su, start, Sink(Server));
    }
  }

  lemma PlayNothing(su: Suite, w: World)
    ensures Play(su, w, []) == w && AuthenticEvents(su, w, [])
  {
  }

  lemma PlayOne(su: Suite, w: World, e: Event) returns (events: seq<Event>)
    requires AuthenticEvent(su, w, e)
    ensures Play(su, w, events) == Next(su, w, e) && AuthenticEvents(su, w, events)
  {
    hide Play, Next, AuthenticEvents, AuthenticEvent;
    PlayNothing(su, w);
    PlaySnoc(su, w, [], e);
    events := [] + [e];
  }

  lemma StartEnds(su: Suite, keys: SessionKeys, nonce: Bytes, early: Bytes, zeroRtt: bool, seats: seq<Seat>)
    ensures var w := Start(su, keys, nonce, early, zeroRtt, seats);
            && w.client == End(false, if zeroRtt then AwaitAck(KeyHash(su, w.net.client)) else Draining, [], false)
            && w.server == End(false, Sinking(early), [], false)
  {
  }

  lemma Injects(su: Suite, start: World, events: seq<Event>, role: Role)
    requires AuthenticEvents(su, start, events)
    requires var e := Play(su, start, events).At(role); !e.halted && e.down.Draining?
    ensures var w, all := Play(su, start, events), events + [Hand(role, CloseBody())];
            && AuthenticEvents(su, start, all)
            && Play(su, start, all) == w.Put(role, w.At(role).(down := DownClosed))
  {
    hide Play, AuthenticEvents, Parse, CloseBody;
    ParseClose();
    PlaySnoc(su, start, events, Hand(role, CloseBody()));
  }

  /** Close is not authenticated, and the receiver cannot tell: for all chunks that
      were delivered and all that were kept back, there are two authentic runs that
      leave the receiving end in the very same state, closed, and in one of them
      everything arrived while in the other the kept chunks are missing. */
  lemma CloseIsBlind(su: Suite, keys: SessionKeys, nonce: Bytes, early: Bytes, zeroRtt: bool, seats: seq<Seat>,
                     role: Role, chunks: seq<Bytes>, rest: seq<Bytes>)
    returns (whole: seq<Event>, cut: seq<Event>)
    requires su.AeadLaw() && su.SizeLaw() && ChunksOk(chunks) && ChunksOk(rest)
    ensures var start, d := Start(su, keys, nonce, early, zeroRtt, seats), role.RecvDir();
            var w, c := Play(su, start, whole), Play(su, start, cut);
            && AuthenticEvents(su, start, whole) && AuthenticEvents(su, start, cut)
            && View(w, role) == View(c, role) && w.At(role).down.DownClosed?
            && w.net.Hist(d).sent == (if role.Server? then [early] else []) + chunks
            && w.At(role).out == Joined(w.net.Hist(d).sent)
            && c.net.Hist(d).sent == w.net.Hist(d).sent + rest
            && Joined(c.net.Hist(d).sent) == c.At(role).out + Joined(rest)
  {
    hide Start, Play, AuthenticEvents, NetStep;
    var start, d := Start(su, keys, nonce, early, zeroRtt, seats), role.RecvDir();
    StartShape(su, keys, nonce, early, zeroRtt, seats);
    var first := Begins(su, keys, nonce, early, zeroRtt, seats, role);
    var fair := Rounds(su, start, first, role, chunks);
    var more := HeldBack(su, start, fair, role, rest);
    JoinedAppend(Play(su, start, first).net.Hist(d).sent, chunks);
    JoinedAppend(Play(su, start, fair).net.Hist(d).sent, rest);
    whole := fair + [Hand(role, CloseBody())];
    cut := more + [Hand(role, CloseBody())];
    Injects(su, start, fair, role);
    Injects(su, start, more, role);
  }
}
