/** Record layers over an untrusted network: what a session hashes for its
    nonces, and what a receiver can be made to accept. */
module Network {
  import opened ByteStrings
  import opened Suites
  import opened Pools
  import opened Records

  // --- Nonces of a session -------------------------------------------------

  /** Any calls on one record layer, failed opens included. */
  function CallRun(su: Suite, r: RecordState, ops: seq<RecordOp>): RecordState {
    if ops == [] then r else Call(su, CallRun(su, r, ops[..|ops| - 1]), ops[|ops| - 1]).0
  }

  function CallsIn(ops: seq<RecordOp>, d: Direction): (n: nat)
    ensures n <= |ops|
  {
    if ops == [] then 0 else CallsIn(ops[..|ops| - 1], d) + if ops[|ops| - 1].dir == d then 1 else 0
  }

  /** The hash input behind the nonce of call `i`. */
  function CallInput(su: Suite, keys: SessionKeys, nonce: Bytes, ops: seq<RecordOp>, i: nat): Bytes
    requires i < |ops|
  {
    CallRun(su, InitRecord(keys, nonce), ops[..i]).pool.Dir(ops[i].dir).NonceInput()
  }

  lemma {:induction false} CallShape(su: Suite, keys: SessionKeys, nonce: Bytes, ops: seq<RecordOp>, d: Direction)
    ensures CallRun(su, InitRecord(keys, nonce), ops).keys == keys
    ensures DirShape(CallRun(su, InitRecord(keys, nonce), ops).pool.Dir(d), keys.poolKey, d, nonce, CallsIn(ops, d))
  {
    if ops != [] {
      var front := ops[..|ops| - 1];
      CallShape(su, keys, nonce, front, d);
      CallKeepsShape(su, CallRun(su, InitRecord(keys, nonce), front), ops[|ops| - 1], d, keys, nonce,
                     CallsIn(front, d));
    }
  }

  lemma CallKeepsShape(su: Suite, r: RecordState, op: RecordOp, d: Direction, keys: SessionKeys, nonce: Bytes, n: nat)
    requires r.keys == keys && DirShape(r.pool.Dir(d), keys.poolKey, d, nonce, n)
    ensures Call(su, r, op).0.keys == keys
    ensures DirShape(Call(su, r, op).0.pool.Dir(d), keys.poolKey, d, nonce, if op.dir == d then n + 1 else n)
  {
    WrapSucc(n);
    if op.dir != d {
      OtherDirUntouched(su, r, op);
    }
  }

  lemma CallInputShape(su: Suite, keys: SessionKeys, nonce: Bytes, ops: seq<RecordOp>, i: nat)
    requires i < |ops|
    ensures InputShape(CallInput(su, keys, nonce, ops, i), ops[i].dir, nonce, CallsIn(ops[..i], ops[i].dir) % TWO_64)
  {
    CallShape(su, keys, nonce, ops[..i], ops[i].dir);
  }

  lemma CallsGrow(ops: seq<RecordOp>, i: nat, j: nat)
    requires i < j <= |ops|
    ensures CallsIn(ops[..i], ops[i].dir) < CallsIn(ops[..j], ops[i].dir)
  {
    assert ops[..j][..j - 1] == ops[..j - 1];
    if i < j - 1 {
      CallsGrow(ops, i, j - 1);
    }
  }

  /** A call's number lies below the number of calls in its direction. */
  lemma CallNumber(ops: seq<RecordOp>, i: nat)
    requires i < |ops|
    ensures CallsIn(ops[..i], ops[i].dir) < CallsIn(ops, ops[i].dir)
  {
    CallsGrow(ops, i, |ops|);
    assert ops[..|ops|] == ops;
  }

  /** One endpoint, at most 2^64 calls in each direction: no two calls, sealing or opening,
      successful or not, hash the same bytes for their nonce. */
  lemma EndpointInputsDistinct(su: Suite, keys: SessionKeys, nonce: Bytes, ops: seq<RecordOp>, i: nat, j: nat)
    requires i < j < |ops| && forall d :: CallsIn(ops, d) <= TWO_64
    ensures CallInput(su, keys, nonce, ops, i) != CallInput(su, keys, nonce, ops, j)
  {
    var d, e := ops[i].dir, ops[j].dir;
    CallInputShape(su, keys, nonce, ops, i);
    CallInputShape(su, keys, nonce, ops, j);
    CallsGrow(ops, i, j);
    CallNumber(ops, i);
    CallNumber(ops, j);
    NumberedDiffer(CallInput(su, keys, nonce, ops, i), CallInput(su, keys, nonce, ops, j), nonce,
                   CallsIn(ops[..i], d), CallsIn(ops[..j], e), d, e);
  }

  /** Both endpoints of a session share one key; what the client seals and what
      the server seals never hash the same bytes either. */
  lemma PeerInputsDistinct(su: Suite, keys: SessionKeys, nonce: Bytes,
                           client: seq<RecordOp>, i: nat, server: seq<RecordOp>, j: nat)
    requires i < |client| && client[i].dir == ClientToServer
    requires j < |server| && server[j].dir == ServerToClient
    ensures CallInput(su, keys, nonce, client, i) != CallInput(su, keys, nonce, server, j)
  {
    CallInputShape(su, keys, nonce, client, i);
    CallInputShape(su, keys, nonce, server, j);
    NumberedDiffer(CallInput(su, keys, nonce, client, i), CallInput(su, keys, nonce, server, j), nonce,
                   CallsIn(client[..i], ClientToServer), CallsIn(server[..j], ServerToClient),
                   ClientToServer, ServerToClient);
  }

  // --- What a transcript remembers -----------------------------------------

  /** The ciphertexts that one direction of an endpoint has sealed or opened, in
      order; failed opens leave none. */
  function Absorbed(su: Suite, r: RecordState, ops: seq<RecordOp>, d: Direction): seq<Bytes> {
    if ops == [] then []
    else
      var front, op := ops[..|ops| - 1], ops[|ops| - 1];
      var past, out := Absorbed(su, r, front, d), Call(su, CallRun(su, r, front), op).1;
      if op.dir != d || out.None? then past
      else past + [if op.SealOp? then out.value else op.data]
  }

  /** Label, seed, and every absorbed ciphertext behind its own label. */
  function Transcript(d: Direction, seed: Bytes, cts: seq<Bytes>): Bytes {
    if cts == [] then Ascii(if d.ClientToServer? then "ORT-v1 pool c2s" else "ORT-v1 pool s2c") + seed
    else Transcript(d, seed, cts[..|cts| - 1]) + Ascii("ORT-v1 absorb") + cts[|cts| - 1]
  }

  /** After any calls, each direction's transcript is exactly the history of its
      ciphertexts, keyed by the pool key, and its counter the number of calls. */
  lemma {:induction false} TranscriptIsHistory(su: Suite, keys: SessionKeys, nonce: Bytes, ops: seq<RecordOp>,
                                               d: Direction)
    ensures var s := CallRun(su, InitRecord(keys, nonce), ops).pool.Dir(d);
            && s.state == Hasher(keys.poolKey, Transcript(d, nonce, Absorbed(su, InitRecord(keys, nonce), ops, d)))
            && s.counter == CallsIn(ops, d) % TWO_64
  {
    CallShape(su, keys, nonce, ops, d);
    if ops == [] {
      assert [] + d.Label() == d.Label();
    } else {
      var front, op := ops[..|ops| - 1], ops[|ops| - 1];
      TranscriptIsHistory(su, keys, nonce, front, d);
      CallAbsorbs(su, CallRun(su, InitRecord(keys, nonce), front), op, d, nonce,
                  Absorbed(su, InitRecord(keys, nonce), front, d));
    }
  }

  /** What a direction hashes for its next nonce after any calls: its history and the
      number of its calls. */
  function HashedNext(su: Suite, keys: SessionKeys, nonce: Bytes, ops: seq<RecordOp>, d: Direction): Bytes {
    Transcript(d, nonce, Absorbed(su, InitRecord(keys, nonce), ops, d)) + ToBE(8, CallsIn(ops, d) % TWO_64)
  }

  function AadNext(ops: seq<RecordOp>, d: Direction): Bytes {
    Ascii("ORT-v1 rec") + [if d.ClientToServer? then 0 else 1] + ToBE(8, CallsIn(ops, d) % TWO_64)
  }

  /** After any calls, a record is sealed and opened under the session key, with the
      nonce that the keyed hash gives over the history and the number of calls, and
      with label, direction and that number as associated data. */
  lemma SealedUnderHistory(su: Suite, keys: SessionKeys, nonce: Bytes, ops: seq<RecordOp>, d: Direction,
                           pt: Bytes, ct: Bytes)
    ensures var r := CallRun(su, InitRecord(keys, nonce), ops);
            var n, aad := su.xof(keys.poolKey, HashedNext(su, keys, nonce, ops, d)), AadNext(ops, d);
            && r.pool.Dir(d).NonceInput() == HashedNext(su, keys, nonce, ops, d)
            && SealRecord(su, r, d, pt).1 == su.aeadSeal(keys.encKey, n, aad, pt)
            && OpenRecord(su, r, d, ct).1 == su.aeadOpen(keys.encKey, n, aad, ct)
  {
    hide CallRun, Transcript, Absorbed, CallsIn;
    CallShape(su, keys, nonce, ops, d);
    TranscriptIsHistory(su, keys, nonce, ops, d);
  }

  /** Every call of an endpoint seals or opens at the hash input that
      `EndpointInputsDistinct` tells apart from all others. */
  lemma CallUsesInput(su: Suite, keys: SessionKeys, nonce: Bytes, ops: seq<RecordOp>, i: nat)
    requires i < |ops|
    ensures var (op, n) := (ops[i], su.xof(keys.poolKey, CallInput(su, keys, nonce, ops, i)));
            Call(su, CallRun(su, InitRecord(keys, nonce), ops[..i]), op).1 ==
            if op.SealOp? then Some(su.aeadSeal(keys.encKey, n, AadNext(ops[..i], op.dir), op.data))
            else su.aeadOpen(keys.encKey, n, AadNext(ops[..i], op.dir), op.data)
  {
    hide CallRun, HashedNext, AadNext, SealRecord, OpenRecord;
    SealedUnderHistory(su, keys, nonce, ops[..i], ops[i].dir, ops[i].data, ops[i].data);
  }

  lemma CallAbsorbs(su: Suite, r: RecordState, op: RecordOp, d: Direction, seed: Bytes, past: seq<Bytes>)
    requires r.pool.Dir(d).state.transcript == Transcript(d, seed, past)
    ensures var (n, out) := Call(su, r, op);
            var ct := if op.SealOp? && out.Some? then out.value else op.data;
            && n.pool.Dir(d).state.key == r.pool.Dir(d).state.key
            && n.pool.Dir(d).state.transcript ==
               Transcript(d, seed, if op.dir != d || out.None? then past else past + [ct])
  {
    if op.dir != d {
      OtherDirUntouched(su, r, op);
    } else {
      var out := Call(su, r, op).1;
      if out.Some? {
        var ct := if op.SealOp? then out.value else op.data;
        assert (past + [ct])[..|past|] == past;
      }
    }
  }

  // --- Delivery over an arbitrary network ----------------------------------

  /** A record sealed under the session key, by an end of this session (`own`) or by
      another layer; `index` is its position among the layer's seals. */
  datatype Sealed = Sealed(own: bool, dir: Direction, index: nat, nonce: Bytes, aad: Bytes, pt: Bytes, ct: Bytes)

  /** What was sealed one way by the sending end, and the outcome of every attempt
      of the receiving end to open that way. */
  datatype History = History(sent: seq<Bytes>, tried: seq<Option<Bytes>>)

  /** Another record layer with the keys of this session, as further sessions of one
      sealed datum have it. It seals in the direction of its role. */
  datatype Other = Other(role: Role, record: RecordState, emitted: nat)

  datatype Net = Net(
    client: RecordState, server: RecordState, others: seq<Other>,
    sealed: set<Sealed>, c2s: History, s2c: History)
  {
    function Side(r: Role): RecordState {
      if r.Client? then client else server
    }

    function Hist(d: Direction): History {
      if d.ClientToServer? then c2s else s2c
    }

    function With(r: Role, s: RecordState, d: Direction, h: History): Net {
      var n := if r.Client? then this.(client := s) else this.(server := s);
      if d.ClientToServer? then n.(c2s := h) else n.(s2c := h)
    }
  }

  /** An end or another layer seals a record, or the network hands one of them any
      bytes it likes: dropped, duplicated, reordered, injected records and records
      of another layer are all choices of `ct`. */
  datatype NetOp =
    | Emit(role: Role, pt: Bytes)
    | Deliver(role: Role, ct: Bytes)
    | EmitOther(i: nat, pt: Bytes)
    | DeliverOther(i: nat, ct: Bytes)

  function SealedBy(su: Suite, own: bool, r: RecordState, d: Direction, index: nat, pt: Bytes): Sealed {
    var s := r.pool.Dir(d);
    Sealed(own, d, index, Nonce(su, s), Aad(d, s.counter), pt, SealRecord(su, r, d, pt).1)
  }

  function NetStep(su: Suite, n: Net, op: NetOp): Net {
    match op
    case Emit(role, pt) =>
      var d := role.SendDir();
      var h := n.Hist(d);
      n.With(role, SealRecord(su, n.Side(role), d, pt).0, d, h.(sent := h.sent + [pt]))
       .(sealed := n.sealed + {SealedBy(su, true, n.Side(role), d, |h.sent|, pt)})
    case Deliver(role, ct) =>
      var d := role.RecvDir();
      var h := n.Hist(d);
      var (r, pt) := OpenRecord(su, n.Side(role), d, ct);
      n.With(role, r, d, h.(tried := h.tried + [pt]))
    case EmitOther(i, pt) =>
      if i >= |n.others| then n
      else
        var o := n.others[i];
        var d := o.role.SendDir();
        n.(others := n.others[i := Other(o.role, SealRecord(su, o.record, d, pt).0, o.emitted + 1)],
           sealed := n.sealed + {SealedBy(su, false, o.record, d, o.emitted, pt)})
    case DeliverOther(i, ct) =>
      if i >= |n.others| then n
      else
        var o := n.others[i];
        n.(others := n.others[i := o.(record := OpenRecord(su, o.record, o.role.RecvDir(), ct).0)])
  }

  function NetRun(su: Suite, n: Net, ops: seq<NetOp>): Net {
    if ops == [] then n else NetStep(su, NetRun(su, n, ops[..|ops| - 1]), ops[|ops| - 1])
  }

  /** The role and the connection nonce of another layer. */
  datatype Seat = Seat(role: Role, nonce: Bytes)

  function Seated(keys: SessionKeys, seats: seq<Seat>): (others: seq<Other>)
    ensures |others| == |seats|
  {
    seq(|seats|, i requires 0 <= i < |seats| => Other(seats[i].role, InitRecord(keys, seats[i].nonce), 0))
  }

  function InitNet(keys: SessionKeys, nonce: Bytes, seats: seq<Seat>): Net {
    Net(InitRecord(keys, nonce), InitRecord(keys, nonce), Seated(keys, seats), {}, History([], []), History([], []))
  }

  /** AEAD authenticity, as a hypothesis about one step: a triple of nonce,
      associated data and ciphertext opens only if some layer with these keys
      sealed it. */
  ghost predicate Authentic(su: Suite, n: Net, op: NetOp) {
    op.Deliver? ==>
      var d := op.role.RecvDir();
      var s := n.Side(op.role).pool.Dir(d);
      OpenWith(su, n.Side(op.role).keys.encKey, d, s, op.ct).Some? ==>
        exists r :: r in n.sealed && r.nonce == Nonce(su, s) && r.aad == Aad(d, s.counter) && r.ct == op.ct
  }

  ghost predicate AuthenticRun(su: Suite, n: Net, ops: seq<NetOp>) {
    ops == []
    || (AuthenticRun(su, n, ops[..|ops| - 1]) && Authentic(su, NetRun(su, n, ops[..|ops| - 1]), ops[|ops| - 1]))
  }

  /** Some layer sealed `pt` in this direction at a position equal to `k` modulo 2^64. */
  ghost predicate SealedAt(sealed: set<Sealed>, d: Direction, k: nat, pt: Bytes) {
    exists r :: r in sealed && r.dir == d && r.index % TWO_64 == k % TWO_64 && r.pt == pt
  }

  /** Every attempt failed or gave a plaintext sealed in this direction at its position. */
  ghost predicate OpensSealed(sealed: set<Sealed>, d: Direction, tried: seq<Option<Bytes>>) {
    forall k :: 0 <= k < |tried| && tried[k].Some? ==> SealedAt(sealed, d, k, tried[k].value)
  }

  /** Every attempt failed or gave the plaintext that the peer sealed at the same position. */
  predicate DeliversInPlace(h: History) {
    forall k :: 0 <= k < |h.tried| && h.tried[k].Some? ==> k < |h.sent| && h.tried[k].value == h.sent[k]
  }

  /** Another layer seals in this direction. */
  predicate OthersSeal(others: seq<Other>, d: Direction) {
    exists i :: 0 <= i < |others| && others[i].role.SendDir() == d
  }

  predicate SeatsSeal(seats: seq<Seat>, d: Direction) {
    exists i :: 0 <= i < |seats| && seats[i].role.SendDir() == d
  }

  /** No counter of this direction has wrapped at the receiving end or at a sealer. */
  ghost predicate InRange(n: Net, d: Direction) {
    |n.Hist(d).tried| <= TWO_64 && forall r :: r in n.sealed && r.dir == d ==> r.index < TWO_64
  }

  ghost predicate SealedWell(su: Suite, key: Bytes, r: Sealed) {
    && r.aad == Aad(r.dir, r.index % TWO_64)
    && r.ct == su.aeadSeal(key, r.nonce, r.aad, r.pt)
  }

  /** Where a sealed record comes from. */
  ghost predicate Accounted(n: Net, r: Sealed) {
    if r.own then r.index < |n.Hist(r.dir).sent| && n.Hist(r.dir).sent[r.index] == r.pt
    else OthersSeal(n.others, r.dir)
  }

  ghost predicate OtherOk(keys: SessionKeys, o: Other) {
    o.record.keys == keys && o.record.pool.Dir(o.role.SendDir()).counter == o.emitted % TWO_64
  }

  ghost predicate CountersOk(keys: SessionKeys, n: Net) {
    && n.client.keys == keys && n.server.keys == keys
    && n.client.pool.c2s.counter == |n.c2s.sent| % TWO_64
    && n.server.pool.c2s.counter == |n.c2s.tried| % TWO_64
    && n.server.pool.s2c.counter == |n.s2c.sent| % TWO_64
    && n.client.pool.s2c.counter == |n.s2c.tried| % TWO_64
    && forall i :: 0 <= i < |n.others| ==> OtherOk(keys, n.others[i])
  }

  ghost predicate NetInv(su: Suite, keys: SessionKeys, n: Net) {
    && CountersOk(keys, n)
    && OpensSealed(n.sealed, ClientToServer, n.c2s.tried) && OpensSealed(n.sealed, ServerToClient, n.s2c.tried)
    && forall r :: r in n.sealed ==> SealedWell(su, keys.encKey, r) && Accounted(n, r)
  }

  // --- What each step keeps ------------------------------------------------

  lemma SealedStays(sealed: set<Sealed>, more: set<Sealed>, d: Direction, tried: seq<Option<Bytes>>)
    requires OpensSealed(sealed, d, tried) && sealed <= more
    ensures OpensSealed(more, d, tried)
  {
    forall k | 0 <= k < |tried| && tried[k].Some?
      ensures SealedAt(more, d, k, tried[k].value)
    {
      assert SealedAt(sealed, d, k, tried[k].value);
    }
  }

  lemma SealIsWell(su: Suite, own: bool, r: RecordState, d: Direction, index: nat, pt: Bytes)
    requires r.pool.Dir(d).counter == index % TWO_64
    ensures SealedWell(su, r.keys.encKey, SealedBy(su, own, r, d, index, pt))
  {
  }

  lemma EmitCounters(su: Suite, keys: SessionKeys, n: Net, role: Role, pt: Bytes)
    requires CountersOk(keys, n)
    ensures CountersOk(keys, NetStep(su, n, Emit(role, pt)))
  {
    hide SealWith, Nonce, Aad;
    WrapSucc(|n.Hist(role.SendDir()).sent|);
  }

  lemma EmitKeeps(su: Suite, keys: SessionKeys, n: Net, role: Role, pt: Bytes)
    requires NetInv(su, keys, n)
    ensures NetInv(su, keys, NetStep(su, n, Emit(role, pt)))
  {
    hide SealWith, Nonce, Aad, CountersOk, OpensSealed, SealedWell, SealRecord;
    var m, d := NetStep(su, n, Emit(role, pt)), role.SendDir();
    EmitCounters(su, keys, n, role, pt);
    SealedStays(n.sealed, m.sealed, ClientToServer, n.c2s.tried);
    SealedStays(n.sealed, m.sealed, ServerToClient, n.s2c.tried);
    SideCounter(keys, n, role);
    SealIsWell(su, true, n.Side(role), d, |n.Hist(d).sent|, pt);
    forall r | r in m.sealed
      ensures SealedWell(su, keys.encKey, r) && Accounted(m, r)
    {
      if r in n.sealed {
        assert Accounted(n, r);
      }
    }
  }

  lemma SideCounter(keys: SessionKeys, n: Net, role: Role)
    requires CountersOk(keys, n)
    ensures n.Side(role).keys == keys
    ensures n.Side(role).pool.Dir(role.SendDir()).counter == |n.Hist(role.SendDir()).sent| % TWO_64
    ensures n.Side(role).pool.Dir(role.RecvDir()).counter == |n.Hist(role.RecvDir()).tried| % TWO_64
  {
  }

  /** A successful open at position `k` is a record that some layer with these keys
      sealed in that direction at `k`. */
  lemma OpenedInPlace(su: Suite, keys: SessionKeys, n: Net, role: Role, ct: Bytes)
    requires su.AeadLaw() && NetInv(su, keys, n) && Authentic(su, n, Deliver(role, ct))
    ensures var d := role.RecvDir();
            var pt := OpenWith(su, keys.encKey, d, n.Side(role).pool.Dir(d), ct);
            pt.Some? ==> SealedAt(n.sealed, d, |n.Hist(d).tried|, pt.value)
  {
    hide Nonce, Aad, OpensSealed, Accounted;
    SideCounter(keys, n, role);
    var d := role.RecvDir();
    var s := n.Side(role).pool.Dir(d);
    if OpenWith(su, keys.encKey, d, s, ct).Some? {
      var r :| r in n.sealed && r.nonce == Nonce(su, s) && r.aad == Aad(d, s.counter) && r.ct == ct;
      assert SealedWell(su, keys.encKey, r);
      AadInjective(d, s.counter, r.dir, r.index % TWO_64);
    }
  }

  lemma OpensSnoc(sealed: set<Sealed>, d: Direction, tried: seq<Option<Bytes>>, pt: Option<Bytes>)
    requires OpensSealed(sealed, d, tried) && (pt.Some? ==> SealedAt(sealed, d, |tried|, pt.value))
    ensures OpensSealed(sealed, d, tried + [pt])
  {
    hide SealedAt;
  }

  lemma DeliverCounters(su: Suite, keys: SessionKeys, n: Net, role: Role, ct: Bytes)
    requires CountersOk(keys, n)
    ensures CountersOk(keys, NetStep(su, n, Deliver(role, ct)))
  {
    hide OpenWith, Nonce, Aad;
    WrapSucc(|n.Hist(role.RecvDir()).tried|);
  }

  lemma DeliverKeeps(su: Suite, keys: SessionKeys, n: Net, role: Role, ct: Bytes)
    requires su.AeadLaw() && NetInv(su, keys, n) && Authentic(su, n, Deliver(role, ct))
    ensures NetInv(su, keys, NetStep(su, n, Deliver(role, ct)))
  {
    hide OpenWith, CountersOk, OpensSealed, SealedWell, SealedAt, AfterOpen, Authentic;
    var m, d := NetStep(su, n, Deliver(role, ct)), role.RecvDir();
    DeliverCounters(su, keys, n, role, ct);
    SideCounter(keys, n, role);
    OpenedInPlace(su, keys, n, role, ct);
    OpensSnoc(n.sealed, d, n.Hist(d).tried, OpenWith(su, keys.encKey, d, n.Side(role).pool.Dir(d), ct));
    forall r | r in m.sealed
      ensures SealedWell(su, keys.encKey, r) && Accounted(m, r)
    {
      assert Accounted(n, r);
    }
  }

  lemma SameRoles(others: seq<Other>, others': seq<Other>, d: Direction)
    requires |others| == |others'| && forall i :: 0 <= i < |others| ==> others'[i].role == others[i].role
    ensures OthersSeal(others', d) <==> OthersSeal(others, d)
  {
    if OthersSeal(others, d) {
      var i :| 0 <= i < |others| && others[i].role.SendDir() == d;
      assert others'[i].role.SendDir() == d;
    }
    if OthersSeal(others', d) {
      var i :| 0 <= i < |others'| && others'[i].role.SendDir() == d;
      assert others[i].role.SendDir() == d;
    }
  }

  lemma OtherCounters(su: Suite, keys: SessionKeys, n: Net, op: NetOp)
    requires CountersOk(keys, n) && (op.EmitOther? || op.DeliverOther?)
    ensures CountersOk(keys, NetStep(su, n, op))
  {
    hide OpenWith, SealWith, Nonce, Aad;
    if op.i < |n.others| {
      var o := n.others[op.i];
      assert OtherOk(keys, o);
      WrapSucc(o.emitted);
      var m := NetStep(su, n, op);
      assert OtherOk(keys, m.others[op.i]);
    }
  }

  lemma OtherKeeps(su: Suite, keys: SessionKeys, n: Net, op: NetOp)
    requires NetInv(su, keys, n) && (op.EmitOther? || op.DeliverOther?)
    ensures NetInv(su, keys, NetStep(su, n, op))
  {
    hide OpenWith, SealWith, Nonce, Aad, OpensSealed, SealedWell, OthersSeal, SealRecord, OpenRecord;
    var m := NetStep(su, n, op);
    OtherCounters(su, keys, n, op);
    if op.i < |n.others| {
      var o := n.others[op.i];
      assert OtherOk(keys, o);
      SealedStays(n.sealed, m.sealed, ClientToServer, n.c2s.tried);
      SealedStays(n.sealed, m.sealed, ServerToClient, n.s2c.tried);
      if op.EmitOther? {
        SealIsWell(su, false, o.record, o.role.SendDir(), o.emitted, op.pt);
        SealsThere(m.others, op.i);
      }
      forall r | r in m.sealed
        ensures SealedWell(su, keys.encKey, r) && Accounted(m, r)
      {
        SameRoles(n.others, m.others, r.dir);
        if r in n.sealed {
          assert Accounted(n, r);
        }
      }
    }
  }

  lemma SealsThere(others: seq<Other>, i: nat)
    requires i < |others|
    ensures OthersSeal(others, others[i].role.SendDir())
  {
  }

  lemma StepKeeps(su: Suite, keys: SessionKeys, n: Net, op: NetOp)
    requires su.AeadLaw() && NetInv(su, keys, n) && Authentic(su, n, op)
    ensures NetInv(su, keys, NetStep(su, n, op))
  {
    hide NetInv, NetStep;
    match op
    case Emit(role, pt) => EmitKeeps(su, keys, n, role, pt);
    case Deliver(role, ct) => DeliverKeeps(su, keys, n, role, ct);
    case EmitOther(_, _) => OtherKeeps(su, keys, n, op);
    case DeliverOther(_, _) => OtherKeeps(su, keys, n, op);
  }

  lemma StartNet(su: Suite, keys: SessionKeys, nonce: Bytes, seats: seq<Seat>)
    ensures NetInv(su, keys, InitNet(keys, nonce, seats))
  {
  }

  lemma {:induction false} NetRunInv(su: Suite, keys: SessionKeys, nonce: Bytes, seats: seq<Seat>, ops: seq<NetOp>)
    requires su.AeadLaw() && AuthenticRun(su, InitNet(keys, nonce, seats), ops)
    ensures NetInv(su, keys, NetRun(su, InitNet(keys, nonce, seats), ops))
  {
    hide NetInv, NetStep, InitNet, Authentic;
    if ops == [] {
      StartNet(su, keys, nonce, seats);
    } else {
      var front := ops[..|ops| - 1];
      NetRunInv(su, keys, nonce, seats, front);
      StepKeeps(su, keys, NetRun(su, InitNet(keys, nonce, seats), front), ops[|ops| - 1]);
    }
  }

  lemma StepSeats(su: Suite, n: Net, op: NetOp)
    ensures |NetStep(su, n, op).others| == |n.others|
    ensures forall i :: 0 <= i < |n.others| ==> NetStep(su, n, op).others[i].role == n.others[i].role
  {
    hide SealRecord, OpenRecord, SealedBy;
  }

  lemma {:induction false} RunSeats(su: Suite, keys: SessionKeys, nonce: Bytes, seats: seq<Seat>, ops: seq<NetOp>,
                                    d: Direction)
    ensures OthersSeal(NetRun(su, InitNet(keys, nonce, seats), ops).others, d) <==> SeatsSeal(seats, d)
  {
    hide NetStep;
    if ops == [] {
      InitSeats(keys, nonce, seats, d);
    } else {
      var front := ops[..|ops| - 1];
      RunSeats(su, keys, nonce, seats, front, d);
      var n := NetRun(su, InitNet(keys, nonce, seats), front);
      StepSeats(su, n, ops[|ops| - 1]);
      SameRoles(n.others, NetStep(su, n, ops[|ops| - 1]).others, d);
    }
  }

  lemma InitSeats(keys: SessionKeys, nonce: Bytes, seats: seq<Seat>, d: Direction)
    ensures OthersSeal(InitNet(keys, nonce, seats).others, d) <==> SeatsSeal(seats, d)
  {
    var others := Seated(keys, seats);
    assert forall i :: 0 <= i < |seats| ==> others[i].role == seats[i].role;
    if SeatsSeal(seats, d) {
      var i :| 0 <= i < |seats| && seats[i].role.SendDir() == d;
      assert others[i].role.SendDir() == d;
    }
  }

  /** What came out before the first failure. */
  function UpToFailure(tried: seq<Option<Bytes>>): seq<Bytes> {
    if tried == [] || tried[0].None? then [] else [tried[0].value] + UpToFailure(tried[1..])
  }

  lemma {:induction false} InPlacePrefix(tried: seq<Option<Bytes>>, sent: seq<Bytes>)
    requires DeliversInPlace(History(sent, tried))
    ensures UpToFailure(tried) <= sent
  {
    if tried != [] && tried[0].Some? {
      assert DeliversInPlace(History(sent[1..], tried[1..])) by {
        forall k | 0 <= k < |tried[1..]| && tried[1..][k].Some?
          ensures k < |sent[1..]| && tried[1..][k].value == sent[1..][k]
        {
          assert tried[k + 1].Some?;
        }
      }
      InPlacePrefix(tried[1..], sent[1..]);
      assert sent == [sent[0]] + sent[1..];
    }
  }

  /** Within range a position modulo 2^64 is the position. */
  ghost predicate OpensExactly(sealed: set<Sealed>, d: Direction, tried: seq<Option<Bytes>>) {
    forall k :: 0 <= k < |tried| && tried[k].Some? ==>
      exists r :: r in sealed && r.dir == d && r.index == k && r.pt == tried[k].value
  }

  lemma ExactInRange(n: Net, d: Direction)
    requires OpensSealed(n.sealed, d, n.Hist(d).tried) && InRange(n, d)
    ensures OpensExactly(n.sealed, d, n.Hist(d).tried)
  {
    var tried := n.Hist(d).tried;
    forall k | 0 <= k < |tried| && tried[k].Some?
      ensures exists r :: r in n.sealed && r.dir == d && r.index == k && r.pt == tried[k].value
    {
      assert SealedAt(n.sealed, d, k, tried[k].value);
      var r :| r in n.sealed && r.dir == d && r.index % TWO_64 == k % TWO_64 && r.pt == tried[k].value;
      ModSmall(r.index);
      ModSmall(k);
    }
  }

  /** If no other layer seals that way, what is opened comes from the peer. */
  lemma PeerInRange(su: Suite, keys: SessionKeys, n: Net, d: Direction)
    requires NetInv(su, keys, n) && InRange(n, d) && !OthersSeal(n.others, d)
    ensures DeliversInPlace(n.Hist(d))
  {
    hide SealedWell, CountersOk, OpensSealed;
    ExactInRange(n, d);
    var h := n.Hist(d);
    forall k | 0 <= k < |h.tried| && h.tried[k].Some?
      ensures k < |h.sent| && h.tried[k].value == h.sent[k]
    {
      var r :| r in n.sealed && r.dir == d && r.index == k && r.pt == h.tried[k].value;
      assert Accounted(n, r);
    }
  }

  /** Under any drops, duplicates, reorderings and injections, and with any other
      layers that have the same keys: the n-th attempt to open in a direction fails
      or yields a plaintext that some layer sealed n-th in that direction. If no
      other layer seals in that direction it is the peer's n-th plaintext, and what
      comes out before the first failure is a prefix of what the peer sent. */
  lemma Delivery(su: Suite, keys: SessionKeys, nonce: Bytes, seats: seq<Seat>, ops: seq<NetOp>, d: Direction)
    requires su.AeadLaw() && AuthenticRun(su, InitNet(keys, nonce, seats), ops)
    ensures var n := NetRun(su, InitNet(keys, nonce, seats), ops);
            var h := n.Hist(d);
            && OpensSealed(n.sealed, d, h.tried)
            && (InRange(n, d) ==> OpensExactly(n.sealed, d, h.tried))
            && (InRange(n, d) && !SeatsSeal(seats, d) ==> DeliversInPlace(h) && UpToFailure(h.tried) <= h.sent)
  {
    hide NetRun, InitNet, OpensSealed, OpensExactly, InRange, SeatsSeal, DeliversInPlace, OthersSeal;
    NetRunInv(su, keys, nonce, seats, ops);
    RunSeats(su, keys, nonce, seats, ops, d);
    var n := NetRun(su, InitNet(keys, nonce, seats), ops);
    if InRange(n, d) {
      ExactInRange(n, d);
      if !SeatsSeal(seats, d) {
        PeerInRange(su, keys, n, d);
        InPlacePrefix(n.Hist(d).tried, n.Hist(d).sent);
      }
    }
  }

  // --- Records of another layer --------------------------------------------

  /** Other layers that share the connection nonce as well, as the sessions of one
      sealed datum do. */
  function Copies(roles: seq<Role>, nonce: Bytes): (seats: seq<Seat>)
    ensures |seats| == |roles|
  {
    seq(|roles|, i requires 0 <= i < |roles| => Seat(roles[i], nonce))
  }

  function ReceiverOf(d: Direction): Role {
    if d.ClientToServer? then Server else Client
  }

  /** The nonce that a new layer seals its first record with. */
  function FirstNonce(su: Suite, keys: SessionKeys, nonce: Bytes, d: Direction): Bytes {
    Nonce(su, InitRecord(keys, nonce).pool.Dir(d))
  }

  /** The first record of another layer with these keys and the same first nonce, as
      it has with the same connection nonce, opens at the receiving end of this
      session, although its peer has sealed nothing. */
  lemma Spliced(su: Suite, keys: SessionKeys, nonce: Bytes, seats: seq<Seat>, i: nat, pt: Bytes)
    returns (ops: seq<NetOp>)
    requires su.AeadLaw() && i < |seats|
    requires var d := seats[i].role.SendDir(); FirstNonce(su, keys, seats[i].nonce, d) == FirstNonce(su, keys, nonce, d)
    ensures var d, start := seats[i].role.SendDir(), InitNet(keys, nonce, seats);
            && AuthenticRun(su, start, ops) && InRange(NetRun(su, start, ops), d)
            && NetRun(su, start, ops).Hist(d) == History([], [Some(pt)])
  {
    hide Aad, Nonce, Advance;
    var d, start := seats[i].role.SendDir(), InitNet(keys, nonce, seats);
    var layer := InitRecord(keys, seats[i].nonce);
    assert start.others[i] == Other(seats[i].role, layer, 0);
    var r := SealedBy(su, false, layer, d, 0, pt);
    var a, b := EmitOther(i, pt), Deliver(ReceiverOf(d), r.ct);
    ops := [a, b];
    var n := NetStep(su, start, a);
    assert r in n.sealed;
    assert OpenWith(su, keys.encKey, d, InitRecord(keys, nonce).pool.Dir(d), r.ct) == Some(pt);
    assert Authentic(su, n, b);
    NetRunTwo(su, start, a, b);
  }

  lemma NetRunTwo(su: Suite, n: Net, a: NetOp, b: NetOp)
    ensures NetRun(su, n, [a, b]) == NetStep(su, NetStep(su, n, a), b)
    ensures AuthenticRun(su, n, [a, b]) <==> Authentic(su, n, a) && Authentic(su, NetStep(su, n, a), b)
  {
    hide NetStep, Authentic;
    assert [a, b][..1] == [a] && [a][..0] == [];
    assert NetRun(su, n, [a]) == NetStep(su, NetRun(su, n, []), a);
    assert AuthenticRun(su, n, [a]) <==> Authentic(su, n, a);
  }

  /** Every open of every authentic run yields the peer's own record if and only if
      no other layer with these keys and this connection nonce seals in that
      direction. */
  lemma PeerOnlyIff(su: Suite, keys: SessionKeys, nonce: Bytes, roles: seq<Role>, d: Direction)
    requires su.AeadLaw()
    ensures (forall ops :: AuthenticRun(su, InitNet(keys, nonce, Copies(roles, nonce)), ops)
                           && InRange(NetRun(su, InitNet(keys, nonce, Copies(roles, nonce)), ops), d) ==>
               DeliversInPlace(NetRun(su, InitNet(keys, nonce, Copies(roles, nonce)), ops).Hist(d)))
            <==> forall i :: 0 <= i < |roles| ==> roles[i].SendDir() != d
  {
    hide NetRun, InitNet, AuthenticRun, InRange;
    var seats := Copies(roles, nonce);
    if i :| 0 <= i < |roles| && roles[i].SendDir() == d {
      var ops := Spliced(su, keys, nonce, seats, i, []);
      var h := NetRun(su, InitNet(keys, nonce, seats), ops).Hist(d);
      assert h.tried[0].Some? && |h.sent| == 0;
    } else {
      assert !SeatsSeal(seats, d);
      forall ops | AuthenticRun(su, InitNet(keys, nonce, seats), ops)
                   && InRange(NetRun(su, InitNet(keys, nonce, seats), ops), d)
        ensures DeliversInPlace(NetRun(su, InitNet(keys, nonce, seats), ops).Hist(d))
      {
        Delivery(su, keys, nonce, seats, ops, d);
      }
    }
  }

  /** For layers with any connection nonces: an open yields the peer's own record in
      every authentic run of every lawful suite if and only if no other layer with
      these keys seals in that direction. */
  lemma PeerOnlyForEverySuiteIff(keys: SessionKeys, nonce: Bytes, seats: seq<Seat>, d: Direction)
    ensures (forall su: Suite, ops :: su.Laws() && AuthenticRun(su, InitNet(keys, nonce, seats), ops)
                                      && InRange(NetRun(su, InitNet(keys, nonce, seats), ops), d) ==>
               DeliversInPlace(NetRun(su, InitNet(keys, nonce, seats), ops).Hist(d)))
            <==> !SeatsSeal(seats, d)
  {
    hide NetRun, InitNet, AuthenticRun, InRange, Suite.KemLaw, Suite.SigLaw, Suite.SizeLaw;
    if SeatsSeal(seats, d) {
      var i :| 0 <= i < |seats| && seats[i].role.SendDir() == d;
      var su := ToySuite();
      LawsAreConsistent();
      ToyNonces(keys, seats[i].nonce, nonce, d);
      var ops := Spliced(su, keys, nonce, seats, i, []);
      var h := NetRun(su, InitNet(keys, nonce, seats), ops).Hist(d);
      assert h.tried[0].Some? && |h.sent| == 0;
    } else {
      forall su: Suite, ops | su.Laws() && AuthenticRun(su, InitNet(keys, nonce, seats), ops)
                              && InRange(NetRun(su, InitNet(keys, nonce, seats), ops), d)
        ensures DeliversInPlace(NetRun(su, InitNet(keys, nonce, seats), ops).Hist(d))
      {
        Delivery(su, keys, nonce, seats, ops, d);
      }
    }
  }

  lemma ToyNonces(keys: SessionKeys, nonce: Bytes, nonce': Bytes, d: Direction)
    ensures FirstNonce(ToySuite(), keys, nonce, d) == FirstNonce(ToySuite(), keys, nonce', d)
  {
  }
}
