/** The AEAD record layer. Each direction of a record layer is a state of its
    own; the lemmas speak about one direction at a time and then about two peers. */
module Records {
  import opened ByteStrings
  import opened Suites
  import opened Pools

  const RECORD_AAD_LABEL: Bytes := Ascii("ORT-v1 rec")

  datatype SessionKeys = SessionKeys(encKey: Bytes, poolKey: Bytes)

  /** Associated data: label, direction, counter. */
  function Aad(d: Direction, counter: U64): (b: Bytes)
    ensures |b| == 19
  {
    RECORD_AAD_LABEL + [d.Code()] + ToBE(8, counter)
  }

  /** The fields can be read back at their fixed offsets. */
  lemma AadParses(d: Direction, counter: U64)
    ensures var b := Aad(d, counter);
            b[..10] == Ascii("ORT-v1 rec") && b[10] == d.Code() && FromBE(b[11..]) == counter
  {
    Pow256Values();
    FromToBE(8, counter);
    assert Aad(d, counter)[11..] == ToBE(8, counter);
  }

  /** The associated data names its direction and its sequence number. */
  lemma AadInjective(d: Direction, m: U64, e: Direction, n: U64)
    requires Aad(d, m) == Aad(e, n)
    ensures d == e && m == n
  {
    assert Aad(d, m)[10] == d.Code() && Aad(e, n)[10] == e.Code();
    assert Aad(d, m)[11..] == ToBE(8, m) && Aad(e, n)[11..] == ToBE(8, n);
    BE64Injective(m, n);
  }

  // --- One direction -------------------------------------------------------

  function Nonce(su: Suite, s: DirState): Bytes {
    su.xof(s.state.key, s.NonceInput())
  }

  function SealWith(su: Suite, key: Bytes, d: Direction, s: DirState, pt: Bytes): Bytes {
    su.aeadSeal(key, Nonce(su, s), Aad(d, s.counter), pt)
  }

  function OpenWith(su: Suite, key: Bytes, d: Direction, s: DirState, ct: Bytes): Option<Bytes> {
    su.aeadOpen(key, Nonce(su, s), Aad(d, s.counter), ct)
  }

  /** The state after a record that was sealed or opened. */
  function Advance(s: DirState, ct: Bytes): DirState {
    s.Drawn().Absorbed(ct)
  }

  /** The state after an attempt to open: a failure draws but does not absorb. */
  function AfterOpen(su: Suite, key: Bytes, d: Direction, s: DirState, ct: Bytes): DirState {
    if OpenWith(su, key, d, s, ct).Some? then Advance(s, ct) else s.Drawn()
  }

  // --- The record layer as a value -----------------------------------------

  datatype RecordState = RecordState(keys: SessionKeys, pool: PoolState) {
    function With(d: Direction, s: DirState): RecordState {
      this.(pool := pool.With(d, s))
    }
  }

  function InitRecord(keys: SessionKeys, nonce: Bytes): RecordState {
    RecordState(keys, InitPool(keys.poolKey, nonce))
  }

  function SealRecord(su: Suite, r: RecordState, d: Direction, pt: Bytes): (RecordState, Bytes) {
    var s := r.pool.Dir(d);
    var ct := SealWith(su, r.keys.encKey, d, s, pt);
    (r.With(d, Advance(s, ct)), ct)
  }

  function OpenRecord(su: Suite, r: RecordState, d: Direction, ct: Bytes): (RecordState, Option<Bytes>) {
    var s := r.pool.Dir(d);
    (r.With(d, AfterOpen(su, r.keys.encKey, d, s, ct)), OpenWith(su, r.keys.encKey, d, s, ct))
  }

  function KeyHash(su: Suite, r: RecordState): Bytes {
    su.hash512(r.keys.encKey)
  }

  /** A call on a record layer, and what it returns. */
  datatype RecordOp = SealOp(dir: Direction, data: Bytes) | OpenOp(dir: Direction, data: Bytes)

  function Call(su: Suite, r: RecordState, op: RecordOp): (RecordState, Option<Bytes>) {
    match op
    case SealOp(d, pt) => (SealRecord(su, r, d, pt).0, Some(SealRecord(su, r, d, pt).1))
    case OpenOp(d, ct) => OpenRecord(su, r, d, ct)
  }

  /** Calls on different directions commute: same final state, same results. */
  lemma DirectionsCommute(su: Suite, r: RecordState, a: RecordOp, b: RecordOp)
    requires a.dir != b.dir
    ensures Call(su, Call(su, r, a).0, b).0 == Call(su, Call(su, r, b).0, a).0
    ensures Call(su, Call(su, r, a).0, b).1 == Call(su, r, b).1
    ensures Call(su, Call(su, r, b).0, a).1 == Call(su, r, a).1
  {
  }

  lemma OtherDirUntouched(su: Suite, r: RecordState, a: RecordOp)
    ensures Call(su, r, a).0.keys == r.keys
    ensures Call(su, r, a).0.pool.Dir(a.dir.Flip()) == r.pool.Dir(a.dir.Flip())
  {
  }

  // --- Lock-step -----------------------------------------------------------

  /** A record between its sealing and its opening. */
  datatype Flight = Flight(pt: Bytes, ct: Bytes)

  /** The sender is the receiver advanced by the records in flight, and each of
      those is what the receiver, brought up to it, would itself have sealed. */
  ghost predicate Linked(su: Suite, key: Bytes, d: Direction, sender: DirState, receiver: DirState, fly: seq<Flight>)
    decreases |fly|
  {
    if fly == [] then sender == receiver
    else
      && fly[0].ct == SealWith(su, key, d, receiver, fly[0].pt)
      && Linked(su, key, d, sender, Advance(receiver, fly[0].ct), fly[1..])
  }

  lemma {:induction false} LinkedSeal(su: Suite, key: Bytes, d: Direction, sender: DirState, receiver: DirState,
                                      fly: seq<Flight>, pt: Bytes)
    requires Linked(su, key, d, sender, receiver, fly)
    ensures var ct := SealWith(su, key, d, sender, pt);
            Linked(su, key, d, Advance(sender, ct), receiver, fly + [Flight(pt, ct)])
    decreases |fly|
  {
    var f := Flight(pt, SealWith(su, key, d, sender, pt));
    if fly == [] {
      assert (fly + [f])[1..] == [];
    } else {
      LinkedSeal(su, key, d, sender, Advance(receiver, fly[0].ct), fly[1..], pt);
      assert (fly + [f])[1..] == fly[1..] + [f];
    }
  }

  lemma LinkedOpen(su: Suite, key: Bytes, d: Direction, sender: DirState, receiver: DirState, fly: seq<Flight>)
    requires su.AeadLaw()
    requires fly != [] && Linked(su, key, d, sender, receiver, fly)
    ensures OpenWith(su, key, d, receiver, fly[0].ct) == Some(fly[0].pt)
    ensures AfterOpen(su, key, d, receiver, fly[0].ct) == Advance(receiver, fly[0].ct)
    ensures Linked(su, key, d, sender, Advance(receiver, fly[0].ct), fly[1..])
  {
  }

  /** The sender is exactly the receiver that has seen the ciphertexts in flight. */
  function AdvanceAll(s: DirState, cts: seq<Bytes>): DirState
    decreases |cts|
  {
    if cts == [] then s else AdvanceAll(Advance(s, cts[0]), cts[1..])
  }

  function Cts(fly: seq<Flight>): (cts: seq<Bytes>)
    ensures |cts| == |fly|
  {
    if fly == [] then [] else [fly[0].ct] + Cts(fly[1..])
  }

  lemma {:induction false} LinkedIsAdvance(su: Suite, key: Bytes, d: Direction, sender: DirState, receiver: DirState,
                                           fly: seq<Flight>)
    requires Linked(su, key, d, sender, receiver, fly)
    ensures sender == AdvanceAll(receiver, Cts(fly))
    decreases |fly|
  {
    if fly != [] {
      LinkedIsAdvance(su, key, d, sender, Advance(receiver, fly[0].ct), fly[1..]);
    }
  }

  // --- Two peers and two queues --------------------------------------------

  datatype Role = Client | Server {
    function SendDir(): Direction {
      match this
      case Client => ClientToServer
      case Server => ServerToClient
    }

    function RecvDir(): Direction {
      SendDir().Flip()
    }

    function Peer(): Role {
      match this
      case Client => Server
      case Server => Client
    }
  }

  /** The records in flight one way, and the plaintexts sealed and opened that way. */
  datatype Channel = Channel(fly: seq<Flight>, sent: seq<Bytes>, got: seq<Bytes>)

  datatype Link = Link(client: RecordState, server: RecordState, c2s: Channel, s2c: Channel) {
    function Side(r: Role): RecordState {
      if r.Client? then client else server
    }

    function Chan(d: Direction): Channel {
      if d.ClientToServer? then c2s else s2c
    }

    function With(r: Role, s: RecordState, d: Direction, c: Channel): Link {
      var l := if r.Client? then this.(client := s) else this.(server := s);
      if d.ClientToServer? then l.(c2s := c) else l.(s2c := c)
    }
  }

  datatype LinkOp = Send(role: Role, pt: Bytes) | Receive(role: Role)

  /** Seal and enqueue, or dequeue and open. A failed open delivers nothing;
      receiving from an empty queue does nothing. */
  function LinkStep(su: Suite, l: Link, op: LinkOp): Link {
    match op
    case Send(role, pt) =>
      var d := role.SendDir();
      var c := l.Chan(d);
      var (r, ct) := SealRecord(su, l.Side(role), d, pt);
      l.With(role, r, d, c.(fly := c.fly + [Flight(pt, ct)], sent := c.sent + [pt]))
    case Receive(role) =>
      var d := role.RecvDir();
      var c := l.Chan(d);
      if c.fly == [] then l else
        var (r, pt) := OpenRecord(su, l.Side(role), d, c.fly[0].ct);
        l.With(role, r, d, c.(fly := c.fly[1..], got := if pt.Some? then c.got + [pt.value] else c.got))
  }

  function LinkRun(su: Suite, l: Link, ops: seq<LinkOp>): Link {
    if ops == [] then l else LinkStep(su, LinkRun(su, l, ops[..|ops| - 1]), ops[|ops| - 1])
  }

  function InitLink(keys: SessionKeys, nonce: Bytes): Link {
    Link(InitRecord(keys, nonce), InitRecord(keys, nonce), Channel([], [], []), Channel([], [], []))
  }

  function Pts(fly: seq<Flight>): (pts: seq<Bytes>)
    ensures |pts| == |fly|
  {
    if fly == [] then [] else [fly[0].pt] + Pts(fly[1..])
  }

  lemma {:induction false} PtsSnoc(fly: seq<Flight>, f: Flight)
    ensures Pts(fly + [f]) == Pts(fly) + [f.pt]
  {
    if fly != [] {
      PtsSnoc(fly[1..], f);
      assert (fly + [f])[1..] == fly[1..] + [f];
    }
  }

  /** One direction in lock-step: sender and receiver differ by the records in
      flight, and what was opened followed by what is in flight is what was sealed. */
  ghost predicate DirInStep(su: Suite, key: Bytes, d: Direction, sender: DirState, receiver: DirState, c: Channel) {
    && Linked(su, key, d, sender, receiver, c.fly)
    && c.got + Pts(c.fly) == c.sent
  }

  ghost predicate InStep(su: Suite, l: Link) {
    && l.client.keys == l.server.keys
    && DirInStep(su, l.client.keys.encKey, ClientToServer, l.client.pool.c2s, l.server.pool.c2s, l.c2s)
    && DirInStep(su, l.client.keys.encKey, ServerToClient, l.server.pool.s2c, l.client.pool.s2c, l.s2c)
  }

  lemma DirSend(su: Suite, key: Bytes, d: Direction, sender: DirState, receiver: DirState, c: Channel, pt: Bytes)
    requires DirInStep(su, key, d, sender, receiver, c)
    ensures var ct := SealWith(su, key, d, sender, pt);
            DirInStep(su, key, d, Advance(sender, ct), receiver,
                      c.(fly := c.fly + [Flight(pt, ct)], sent := c.sent + [pt]))
  {
    LinkedSeal(su, key, d, sender, receiver, c.fly, pt);
    PtsSnoc(c.fly, Flight(pt, SealWith(su, key, d, sender, pt)));
    Associate(c.got, Pts(c.fly), [pt]);
  }

  lemma DirReceive(su: Suite, key: Bytes, d: Direction, sender: DirState, receiver: DirState, c: Channel)
    requires su.AeadLaw() && c.fly != [] && DirInStep(su, key, d, sender, receiver, c)
    ensures OpenWith(su, key, d, receiver, c.fly[0].ct) == Some(c.fly[0].pt)
    ensures DirInStep(su, key, d, sender, AfterOpen(su, key, d, receiver, c.fly[0].ct),
                      c.(fly := c.fly[1..], got := c.got + [c.fly[0].pt]))
  {
    LinkedOpen(su, key, d, sender, receiver, c.fly);
    Associate(c.got, [c.fly[0].pt], Pts(c.fly[1..]));
  }

  lemma StepInStep(su: Suite, l: Link, op: LinkOp)
    requires su.AeadLaw() && InStep(su, l)
    ensures InStep(su, LinkStep(su, l, op))
    ensures op.Receive? && l.Chan(op.role.RecvDir()).fly != [] ==>
              OpenRecord(su, l.Side(op.role), op.role.RecvDir(), l.Chan(op.role.RecvDir()).fly[0].ct).1
                == Some(l.Chan(op.role.RecvDir()).fly[0].pt)
  {
    var key := l.client.keys.encKey;
    match op
    case Send(Client, pt) => DirSend(su, key, ClientToServer, l.client.pool.c2s, l.server.pool.c2s, l.c2s, pt);
    case Send(Server, pt) => DirSend(su, key, ServerToClient, l.server.pool.s2c, l.client.pool.s2c, l.s2c, pt);
    case Receive(Client) =>
      if l.s2c.fly != [] {
        DirReceive(su, key, ServerToClient, l.server.pool.s2c, l.client.pool.s2c, l.s2c);
      }
    case Receive(Server) =>
      if l.c2s.fly != [] {
        DirReceive(su, key, ClientToServer, l.client.pool.c2s, l.server.pool.c2s, l.c2s);
      }
  }

  lemma {:induction false} RunInStep(su: Suite, keys: SessionKeys, nonce: Bytes, ops: seq<LinkOp>)
    requires su.AeadLaw()
    ensures InStep(su, LinkRun(su, InitLink(keys, nonce), ops))
  {
    if ops != [] {
      RunInStep(su, keys, nonce, ops[..|ops| - 1]);
      StepInStep(su, LinkRun(su, InitLink(keys, nonce), ops[..|ops| - 1]), ops[|ops| - 1]);
    }
  }

  /** Lock-step over every interleaving of seals and in-order opens: in each
      direction the sender's transcript and counter are the receiver's advanced by
      the ciphertexts in flight, and the plaintexts opened are a prefix of those
      sealed, with nothing lost but what is still in flight. */
  lemma LockStep(su: Suite, keys: SessionKeys, nonce: Bytes, ops: seq<LinkOp>)
    requires su.AeadLaw()
    ensures var l := LinkRun(su, InitLink(keys, nonce), ops);
            && l.client.pool.c2s == AdvanceAll(l.server.pool.c2s, Cts(l.c2s.fly))
            && l.server.pool.s2c == AdvanceAll(l.client.pool.s2c, Cts(l.s2c.fly))
            && l.c2s.got + Pts(l.c2s.fly) == l.c2s.sent
            && l.s2c.got + Pts(l.s2c.fly) == l.s2c.sent
  {
    RunInStep(su, keys, nonce, ops);
    var l := LinkRun(su, InitLink(keys, nonce), ops);
    var key := l.client.keys.encKey;
    LinkedIsAdvance(su, key, ClientToServer, l.client.pool.c2s, l.server.pool.c2s, l.c2s.fly);
    LinkedIsAdvance(su, key, ServerToClient, l.server.pool.s2c, l.client.pool.s2c, l.s2c.fly);
  }

  // --- The mutable record layer --------------------------------------------

  /** `record_aad` fills a fixed array in place. */
  method RecordAad(d: Direction, counter: U64) returns (aad: array<Byte>)
    ensures fresh(aad) && aad[..] == Aad(d, counter)
  {
    aad := new Byte[19](_ => 0);
    forall i | 0 <= i < 10 {
      aad[i] := RECORD_AAD_LABEL[i];
    }
    aad[10] := d.Code();
    var be := ToBE(8, counter);
    forall i | 11 <= i < 19 {
      aad[i] := be[i - 11];
    }
  }

  class RecordLayer {
    const keys: SessionKeys
    const pool: EntropyPool

    ghost predicate Valid() {
      pool.Valid()
    }

    ghost function Value(): RecordState
      reads pool.c2s, pool.s2c
    {
      RecordState(keys, pool.Value())
    }

    constructor (keys: SessionKeys, nonce: Bytes)
      ensures Valid() && fresh(pool) && fresh(pool.c2s) && fresh(pool.s2c)
      ensures Value() == InitRecord(keys, nonce)
    {
      this.keys := keys;
      pool := new EntropyPool(keys.poolKey, nonce);
    }

    method Seal(su: Suite, d: Direction, pt: Bytes) returns (ct: Bytes)
      requires Valid()
      modifies pool.Dir(d)
      ensures (Value(), ct) == SealRecord(su, old(Value()), d, pt)
    {
      var counter := pool.Counter(d);
      var nonce := pool.NextNonce(su, d);
      var aad := RecordAad(d, counter);
      ct := su.aeadSeal(keys.encKey, nonce, aad[..], pt);
      pool.Absorb(d, ct);
    }

    method Open(su: Suite, d: Direction, ct: Bytes) returns (pt: Option<Bytes>)
      requires Valid()
      modifies pool.Dir(d)
      ensures (Value(), pt) == OpenRecord(su, old(Value()), d, ct)
    {
      var counter := pool.Counter(d);
      var nonce := pool.NextNonce(su, d);
      var aad := RecordAad(d, counter);
      pt := su.aeadOpen(keys.encKey, nonce, aad[..], ct);
      if pt.None? {
        return;
      }
      pool.Absorb(d, ct);
    }

    function EncKeyHash(su: Suite): (h: Bytes)
      reads pool.c2s, pool.s2c
      ensures h == KeyHash(su, Value())
    {
      su.hash512(keys.encKey)
    }
  }
}
