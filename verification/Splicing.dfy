/** Records of another layer in the stream of a session: the exact condition under
    which a plain sink holds a prefix of what the peer put in. */
module Splicing {
  import opened ByteStrings
  import opened Suites
  import opened Pools
  import opened Records
  import opened Network
  import opened Replay
  import opened Handshake
  import opened Resubmission
  import opened Flows
  import opened Hostile

  /** The step that brings another layer where the handshake brought this session:
      a client's layer seals the early data, a server's layer opens it. */
  function HandshakeOp(su: Suite, keys: SessionKeys, nonce: Bytes, early: Bytes, role: Role, i: nat): NetOp {
    if role.Client? then EmitOther(i, early) else DeliverOther(i, FirstRecord(su, keys, nonce, early))
  }

  /** Layer `i` stands where the sealer of this direction stands, and the receiving
      end waits for a frame. */
  ghost predicate CopyReady(w: World, i: nat, role: Role) {
    && i < |w.net.others| && w.net.others[i].role == role.Peer() && w.net.others[i].emitted <= 1
    && w.net.others[i].record == w.net.Side(role)
    && !w.At(role).halted && w.At(role).down.Draining?
    && |w.net.Hist(role.RecvDir()).tried| <= 1
    && forall r :: r in w.net.sealed ==> r.index <= 1
  }

  /** A layer that shares keys and connection nonce takes the same handshake. */
  lemma CopyShakesHands(su: Suite, keys: SessionKeys, nonce: Bytes, early: Bytes, zeroRtt: bool, seats: seq<Seat>,
                        i: nat, w: World)
    requires su.AeadLaw() && i < |seats| && seats[i].nonce == nonce
    requires w.net == Start(su, keys, nonce, early, zeroRtt, seats).net && Abreast(w, seats[i].role.Peer())
    ensures var n := Next(su, w, Elsewhere(HandshakeOp(su, keys, nonce, early, seats[i].role, i)));
            && CopyReady(n, i, seats[i].role.Peer())
            && n.At(seats[i].role.Peer()) == w.At(seats[i].role.Peer())
            && n.net.c2s == w.net.c2s && n.net.s2c == w.net.s2c
  {
    hide Start, Nonce, Aad, Advance;
    StartShape(su, keys, nonce, early, zeroRtt, seats);
    var layer := InitRecord(keys, nonce);
    assert w.net.others[i] == Other(seats[i].role, layer, 0);
    var ct := FirstRecord(su, keys, nonce, early);
    assert OpenWith(su, keys.encKey, ClientToServer, layer.pool.c2s, ct) == Some(early);
  }

  function SpliceCt(su: Suite, w: World, role: Role, pt: Bytes): Bytes {
    SealRecord(su, w.net.Side(role), role.RecvDir(), pt).1
  }

  /** The world after layer `i` has sealed `pt` and the network has handed it over. */
  function Handed(su: Suite, w: World, i: nat, role: Role, pt: Bytes): World {
    w.(net := NetStep(su, w.net, EmitOther(i, pt))).Put(role, w.At(role).(down := Opening(SpliceCt(su, w, role, pt))))
  }

  lemma SpliceHanded(su: Suite, w: World, i: nat, role: Role, pt: Bytes)
    requires su.AeadLaw() && CopyReady(w, i, role) && |pt| <= CHUNK
    ensures Next(su, Next(su, w, Elsewhere(EmitOther(i, pt))),
                 Hand(role, RecordBody(role.RecvDir(), SpliceCt(su, w, role, pt))))
            == Handed(su, w, i, role, pt)
  {
    hide Parse, RecordBody, NetStep, SealRecord;
    SealSize(su, w.net.Side(role), role.RecvDir(), pt);
    ParseRecord(role.RecvDir(), SpliceCt(su, w, role, pt));
  }

  /** It opens at the receiving end, authentically, as if the peer had sealed it. */
  lemma SpliceOpens(su: Suite, w: World, i: nat, role: Role, pt: Bytes)
    requires su.AeadLaw() && CopyReady(w, i, role)
    ensures var m, d := Handed(su, w, i, role, pt), role.RecvDir();
            var n := DoUnseal(su, m, role);
            && AuthenticEvent(su, m, Unseal(role)) && InRange(n.net, d)
            && n.At(role) == w.At(role).(down := Sinking(pt))
            && n.net.Hist(d).sent == w.net.Hist(d).sent
  {
    hide Nonce, Aad, Advance;
    var d, layer := role.RecvDir(), w.net.others[i];
    var ct := SpliceCt(su, w, role, pt);
    assert OpenWith(su, layer.record.keys.encKey, d, layer.record.pool.Dir(d), ct) == Some(pt);
    assert SealedBy(su, false, layer.record, d, layer.emitted, pt) in Handed(su, w, i, role, pt).net.sealed;
  }

  /** Splicing one record into a run. */
  lemma Splice(su: Suite, start: World, events: seq<Event>, i: nat, role: Role, pt: Bytes) returns (all: seq<Event>)
    requires su.AeadLaw() && AuthenticEvents(su, start, events) && CopyReady(Play(su, start, events), i, role)
             && |pt| <= CHUNK
    ensures AuthenticEvents(su, start, all)
    ensures var d, w, n := role.RecvDir(), Play(su, start, events), Play(su, start, all);
            && InRange(n.net, d) && n.At(role).out == w.At(role).out + pt && n.net.Hist(d).sent == w.net.Hist(d).sent
            && Hand(role, RecordBody(d, SpliceCt(su, w, role, pt))) in all
  {
    hide Play, AuthenticEvents, NetStep, TakeFrame, DoUnseal, DoElsewhere, RecordBody, InRange, SpliceCt;
    var w := Play(su, start, events);
    var a, b := Elsewhere(EmitOther(i, pt)), Hand(role, RecordBody(role.RecvDir(), SpliceCt(su, w, role, pt)));
    SpliceHanded(su, w, i, role, pt);
    SpliceOpens(su, w, i, role, pt);
    PlaySnoc(su, start, events, a);
    PlaySnoc(su, start, events + [a], b);
    PlaySnoc(su, start, events + [a] + [b], Unseal(role));
    PlaySnoc(su, start, events + [a] + [b] + [Unseal(role)], Sink(role));
    all := events + [a] + [b] + [Unseal(role)] + [Sink(role)];
  }

  /** With another layer that shares keys and connection nonce, the receiving end
      writes out a record that its peer never sealed: for every plaintext, some
      authentic run ends with it in the sink while the peer has sent nothing more
      than at the start. */
  lemma SplicedRecord(su: Suite, keys: SessionKeys, nonce: Bytes, early: Bytes, zeroRtt: bool, seats: seq<Seat>,
                      i: nat, pt: Bytes)
    returns (events: seq<Event>)
    requires su.AeadLaw() && su.SizeLaw() && i < |seats| && seats[i].nonce == nonce && |pt| <= CHUNK
    ensures var start, role := Start(su, keys, nonce, early, zeroRtt, seats), seats[i].role.Peer();
            var w, d := Play(su, start, events), role.RecvDir();
            && AuthenticEvents(su, start, events) && InRange(w.net, d)
            && w.net.Hist(d).sent == start.net.Hist(d).sent
            && w.At(role).out == Joined(w.net.Hist(d).sent) + pt
            && Hand(role, RecordBody(d, SealRecord(su, start.net.server, d, pt).1)) in events
  {
    hide Start, Play, AuthenticEvents, Abreast, CopyReady, Next, InRange, Joined, RecordBody, SealRecord;
    var start, role := Start(su, keys, nonce, early, zeroRtt, seats), seats[i].role.Peer();
    var first := Begins(su, keys, nonce, early, zeroRtt, seats, role);
    var w := Play(su, start, first);
    var e := Elsewhere(HandshakeOp(su, keys, nonce, early, seats[i].role, i));
    CopyShakesHands(su, keys, nonce, early, zeroRtt, seats, i, w);
    ElsewhereLeaves(su, keys, nonce, early, zeroRtt, seats, w, e);
    PlaySnoc(su, start, first, e);
    events := Splice(su, start, first + [e], i, role, pt);
  }

  lemma ElsewhereLeaves(su: Suite, keys: SessionKeys, nonce: Bytes, early: Bytes, zeroRtt: bool, seats: seq<Seat>,
                        w: World, e: Event)
    requires su.AeadLaw() && e.Elsewhere? && w.net == Start(su, keys, nonce, early, zeroRtt, seats).net
    ensures AuthenticEvent(su, w, e)
    ensures Next(su, w, e).net.client == w.net.server && Next(su, w, e).net.server == w.net.server
  {
    hide Start, SealRecord, OpenRecord;
    StartShape(su, keys, nonce, early, zeroRtt, seats);
  }

  lemma LongerIsNoPrefix(a: Bytes, b: Bytes)
    requires b != []
    ensures !(a + b <= a)
  {
    assert |a + b| > |a|;
  }

  /** In every authentic run the sink holds a prefix of what the peer put in, if and
      only if no other layer with these keys and this connection nonce seals towards
      this end. */
  lemma PrefixIff(su: Suite, keys: SessionKeys, nonce: Bytes, early: Bytes, zeroRtt: bool, roles: seq<Role>, role: Role)
    requires su.AeadLaw() && su.SizeLaw()
    ensures (forall events ::
               AuthenticEvents(su, Start(su, keys, nonce, early, zeroRtt, Copies(roles, nonce)), events) ==>
               var w := Play(su, Start(su, keys, nonce, early, zeroRtt, Copies(roles, nonce)), events);
               InRange(w.net, role.RecvDir()) ==> w.At(role).out <= Joined(w.net.Hist(role.RecvDir()).sent))
            <==> role.Peer() !in roles
  {
    hide Start, Play, AuthenticEvents, InRange, Joined;
    var seats, d := Copies(roles, nonce), role.RecvDir();
    var start := Start(su, keys, nonce, early, zeroRtt, seats);
    if i :| 0 <= i < |roles| && roles[i] == role.Peer() {
      var events := SplicedRecord(su, keys, nonce, early, zeroRtt, seats, i, [0]);
      var w := Play(su, start, events);
      LongerIsNoPrefix(Joined(w.net.Hist(d).sent), [0]);
      assert AuthenticEvents(su, start, events) && InRange(w.net, d);
    } else {
      NoSeatSeals(roles, nonce, role);
      forall events | AuthenticEvents(su, start, events)
        ensures var w := Play(su, start, events); InRange(w.net, d) ==> w.At(role).out <= Joined(w.net.Hist(d).sent)
      {
        HostileDelivery(su, keys, nonce, early, zeroRtt, seats, events, role);
      }
    }
  }

  lemma NoSeatSeals(roles: seq<Role>, nonce: Bytes, role: Role)
    requires role.Peer() !in roles
    ensures !SeatsSeal(Copies(roles, nonce), role.RecvDir())
  {
    var seats := Copies(roles, nonce);
    forall i | 0 <= i < |roles|
      ensures seats[i].role.SendDir() != role.RecvDir()
    {
      assert roles[i] != role.Peer();
    }
  }

  /** The other layer is real: an honest 0-RTT flight, and its datum re-signed more
      than one window later. The first record that the second server session seals
      comes out of the sink of the honest client, whose own server has sent nothing. */
  lemma SecondSessionSpliced(su: Suite, ccfg: ClientConfig, scfg: ServerConfig, srcIp: Bytes16, r: Bytes,
                             nonce: Bytes32, ts: U64, early: Bytes, first: U64, sk: Bytes, ip: Bytes16, later: U64,
                             pt: Bytes)
    returns (second: Session, events: seq<Event>)
    requires HonestKeys(su, ccfg, scfg) && CheckWindow(first, ts, scfg.windowMs, scfg.skewMs).Ok?
    requires first + scfg.windowMs + 1 <= later && |pt| <= CHUNK
    ensures var b := BuildPayload(su, ccfg, scfg.serverPk, srcIp, r, nonce, ts, early);
            && b.Ok?
            && Gives(su, scfg, FlightTwice(su, ccfg, b.value.payload, srcIp, first, sk, ip, later), 1, second)
            && var start := Start(su, b.value.record.keys, nonce, early, true, [Seat(Server, nonce)]);
               var w, ct := Play(su, start, events), SealRecord(su, second.record, ServerToClient, pt).1;
               && start.net.client == b.value.record && AuthenticEvents(su, start, events)
               && Hand(Client, RecordBody(ServerToClient, ct)) in events
               && w.client.out == pt && w.net.s2c.sent == []
  {
    hide BuildPayload, Gives, Start, Play, AuthenticEvents, InRange, RecordBody, SealRecord, FlightTwice;
    HonestFlightReplayed(su, ccfg, scfg, srcIp, r, nonce, ts, early, first, sk, ip, later);
    var b := BuildPayload(su, ccfg, scfg.serverPk, srcIp, r, nonce, ts, early);
    var keys, seats := b.value.record.keys, [Seat(Server, nonce)];
    StartRecords(su, ccfg, scfg, srcIp, r, nonce, ts, early, true, seats);
    StartShape(su, keys, nonce, early, true, seats);
    second := Session(b.value.record, early);
    events := SplicedRecord(su, keys, nonce, early, true, seats, 0, pt);
    assert Joined([]) + pt == pt;
  }
}
