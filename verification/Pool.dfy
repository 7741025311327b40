/** The per-session entropy pool: one keyed transcript and one counter for each
    direction. The hasher is modelled by its key and the bytes it has absorbed. */
module Pools {
  import opened ByteStrings
  import opened Suites

  datatype Direction = ClientToServer | ServerToClient {
    function Flip(): Direction {
      match this
      case ClientToServer => ServerToClient
      case ServerToClient => ClientToServer
    }

    function Code(): Byte {
      match this
      case ClientToServer => 0
      case ServerToClient => 1
    }

    function Label(): (b: Bytes)
      ensures |b| == 15
    {
      match this
      case ClientToServer => Ascii("ORT-v1 pool c2s")
      case ServerToClient => Ascii("ORT-v1 pool s2c")
    }
  }

  const ABSORB_LABEL: Bytes := Ascii("ORT-v1 absorb")

  datatype Hasher = Hasher(key: Bytes, transcript: Bytes) {
    function Update(data: Bytes): Hasher {
      this.(transcript := transcript + data)
    }
  }

  /** One direction's pool. The counter wraps at 2^64 as release builds do. */
  datatype DirState = DirState(state: Hasher, counter: U64) {
    /** The bytes the extendable output is taken over. */
    function NonceInput(): Bytes {
      state.transcript + ToBE(8, counter)
    }

    function Drawn(): DirState {
      this.(counter := (counter + 1) % TWO_64)
    }

    function Absorbed(data: Bytes): DirState {
      this.(state := state.Update(ABSORB_LABEL).Update(data))
    }
  }

  function InitDir(key: Bytes, dir: Direction, seed: Bytes): DirState {
    DirState(Hasher(key, []).Update(dir.Label()).Update(seed), 0)
  }

  datatype PoolState = PoolState(c2s: DirState, s2c: DirState) {
    function Dir(d: Direction): DirState {
      match d
      case ClientToServer => c2s
      case ServerToClient => s2c
    }

    function With(d: Direction, s: DirState): PoolState {
      match d
      case ClientToServer => this.(c2s := s)
      case ServerToClient => this.(s2c := s)
    }
  }

  function InitPool(key: Bytes, seed: Bytes): PoolState {
    PoolState(InitDir(key, ClientToServer, seed), InitDir(key, ServerToClient, seed))
  }

  // --- Runs of the pool ----------------------------------------------------

  /** The two operations of a pool, in any order and on either direction. */
  datatype PoolOp = Draw(dir: Direction) | Absorb(dir: Direction, data: Bytes)

  function Step(p: PoolState, op: PoolOp): PoolState {
    match op
    case Draw(d) => p.With(d, p.Dir(d).Drawn())
    case Absorb(d, data) => p.With(d, p.Dir(d).Absorbed(data))
  }

  function Run(p: PoolState, ops: seq<PoolOp>): PoolState {
    if ops == [] then p else Step(Run(p, ops[..|ops| - 1]), ops[|ops| - 1])
  }

  /** How many nonces `ops` draws in direction `d`. */
  function Draws(ops: seq<PoolOp>, d: Direction): (n: nat)
    ensures n <= |ops|
  {
    if ops == [] then 0
    else Draws(ops[..|ops| - 1], d) + if ops[|ops| - 1] == Draw(d) then 1 else 0
  }

  /** The hash input of the nonce drawn by operation `i`. */
  function InputAt(p: PoolState, ops: seq<PoolOp>, i: nat): Bytes
    requires i < |ops| && ops[i].Draw?
  {
    Run(p, ops[..i]).Dir(ops[i].dir).NonceInput()
  }

  /** `b` is label, seed, arbitrary absorbed bytes, counter. */
  predicate InputShape(b: Bytes, d: Direction, seed: Bytes, counter: U64) {
    && |b| >= 15 + |seed| + 8
    && b[..15] == d.Label()
    && b[15..15 + |seed|] == seed
    && b[|b| - 8..] == ToBE(8, counter)
  }

  ghost predicate DirShape(s: DirState, key: Bytes, d: Direction, seed: Bytes, draws: nat) {
    && s.state.key == key
    && |s.state.transcript| >= 15 + |seed|
    && s.state.transcript[..15] == d.Label()
    && s.state.transcript[15..15 + |seed|] == seed
    && s.counter == draws % TWO_64
  }

  lemma WrapSucc(n: nat)
    ensures (n % TWO_64 + 1) % TWO_64 == (n + 1) % TWO_64
  {
  }

  /** Whatever was drawn and absorbed, each transcript still begins with its
      label and seed, and each counter is the number of draws. */
  lemma {:induction false} RunShape(key: Bytes, seed: Bytes, ops: seq<PoolOp>, d: Direction)
    ensures DirShape(Run(InitPool(key, seed), ops).Dir(d), key, d, seed, Draws(ops, d))
  {
    if ops != [] {
      RunShape(key, seed, ops[..|ops| - 1], d);
      WrapSucc(Draws(ops[..|ops| - 1], d));
    }
  }

  lemma DrawsMonotone(ops: seq<PoolOp>, i: nat, j: nat, d: Direction)
    requires i < j <= |ops| && ops[i] == Draw(d)
    ensures Draws(ops[..i], d) < Draws(ops[..j], d)
  {
    assert ops[..j][..j - 1] == ops[..j - 1];
    if i < j - 1 {
      DrawsMonotone(ops, i, j - 1, d);
    }
  }

  lemma DrawsPrefix(ops: seq<PoolOp>, i: nat, d: Direction)
    requires i <= |ops|
    ensures Draws(ops[..i], d) <= Draws(ops, d)
    decreases |ops| - i
  {
    if i < |ops| {
      assert ops[..i + 1][..i] == ops[..i];
      DrawsPrefix(ops, i + 1, d);
    } else {
      assert ops[..i] == ops;
    }
  }

  lemma InputAtShape(key: Bytes, seed: Bytes, ops: seq<PoolOp>, i: nat)
    requires i < |ops| && ops[i].Draw?
    ensures InputShape(InputAt(InitPool(key, seed), ops, i), ops[i].dir, seed, Draws(ops[..i], ops[i].dir) % TWO_64)
  {
    RunShape(key, seed, ops[..i], ops[i].dir);
  }

  lemma LabelsDiffer(b: Bytes, c: Bytes, seed: Bytes, seed': Bytes, m: U64, n: U64, d: Direction, e: Direction)
    requires InputShape(b, d, seed, m) && InputShape(c, e, seed', n) && d != e
    ensures b != c
  {
    assert b[..15][12] == d.Label()[12] && c[..15][12] == e.Label()[12];
  }

  lemma CountersDiffer(b: Bytes, c: Bytes, seed: Bytes, m: U64, n: U64, d: Direction, e: Direction)
    requires InputShape(b, d, seed, m) && InputShape(c, e, seed, n) && m != n
    ensures b != c
  {
    if b == c {
      BE64Injective(m, n);
    }
  }

  lemma ShapesDiffer(b: Bytes, c: Bytes, seed: Bytes, m: U64, n: U64, d: Direction, e: Direction)
    requires InputShape(b, d, seed, m) && InputShape(c, e, seed, n)
    requires d != e || m != n
    ensures b != c
  {
    if d != e {
      LabelsDiffer(b, c, seed, seed, m, n, d, e);
    } else {
      CountersDiffer(b, c, seed, m, n, d, e);
    }
  }

  lemma NumberedDiffer(b: Bytes, c: Bytes, seed: Bytes, m: nat, n: nat, d: Direction, e: Direction)
    requires InputShape(b, d, seed, m % TWO_64) && InputShape(c, e, seed, n % TWO_64)
    requires d == e ==> m < n < TWO_64
    ensures b != c
  {
    if d == e {
      ModSmall(m);
      ModSmall(n);
    }
    ShapesDiffer(b, c, seed, m % TWO_64, n % TWO_64, d, e);
  }

  lemma ModSmall(m: nat)
    requires m < TWO_64
    ensures m % TWO_64 == m
  {
  }

  lemma DrawIndices(ops: seq<PoolOp>, i: nat, j: nat, d: Direction)
    requires i < j < |ops| && ops[i] == Draw(d) && ops[j] == Draw(d)
    ensures Draws(ops[..i], d) < Draws(ops[..j], d) < Draws(ops, d)
  {
    hide Draws;
    DrawsMonotone(ops, i, j, d);
    DrawsMonotone(ops, j, j + 1, d);
    DrawsPrefix(ops, j + 1, d);
  }

  /** Nonce-input uniqueness (the need of section 8 of NIST SP 800-38D): in any
      run with at most 2^64 draws per direction, no two draws hash the same bytes,
      within a direction or across the two. */
  lemma NonceInputsDistinct(key: Bytes, seed: Bytes, ops: seq<PoolOp>, i: nat, j: nat)
    requires i < j < |ops| && ops[i].Draw? && ops[j].Draw?
    requires forall d :: Draws(ops, d) <= TWO_64
    ensures InputAt(InitPool(key, seed), ops, i) != InputAt(InitPool(key, seed), ops, j)
  {
    var d, e := ops[i].dir, ops[j].dir;
    InputAtShape(key, seed, ops, i);
    InputAtShape(key, seed, ops, j);
    if d == e {
      DrawIndices(ops, i, j, d);
    }
    NumberedDiffer(InputAt(InitPool(key, seed), ops, i), InputAt(InitPool(key, seed), ops, j), seed,
                   Draws(ops[..i], d), Draws(ops[..j], e), d, e);
  }

  /** Two sessions that share a pool key but not a seed never hash the same bytes. */
  lemma SessionsDisjoint(key: Bytes, seed: Bytes32, seed': Bytes32, ops: seq<PoolOp>, ops': seq<PoolOp>, i: nat, j: nat)
    requires seed != seed'
    requires i < |ops| && ops[i].Draw? && j < |ops'| && ops'[j].Draw?
    ensures InputAt(InitPool(key, seed), ops, i) != InputAt(InitPool(key, seed'), ops', j)
  {
    InputAtShape(key, seed, ops, i);
    InputAtShape(key, seed', ops', j);
  }

  /** The bound on draws is exact: draw 2^64 without absorbing, and the next
      draw repeats the first input. */
  lemma WrapRepeats(key: Bytes, seed: Bytes, d: Direction)
    ensures var ops := seq(TWO_64 + 1, _ => Draw(d));
            && Draws(ops, d) == TWO_64 + 1
            && InputAt(InitPool(key, seed), ops, 0) == InputAt(InitPool(key, seed), ops, TWO_64)
  {
    var ops := seq(TWO_64 + 1, _ => Draw(d));
    PureDraws(key, seed, ops, d, TWO_64 + 1);
    PureDraws(key, seed, ops, d, TWO_64);
    PureDraws(key, seed, ops, d, 0);
    assert ops[..TWO_64 + 1] == ops;
  }

  lemma {:induction false} PureDraws(key: Bytes, seed: Bytes, ops: seq<PoolOp>, d: Direction, n: nat)
    requires n <= |ops| && forall i :: 0 <= i < |ops| ==> ops[i] == Draw(d)
    ensures Draws(ops[..n], d) == n
    ensures Run(InitPool(key, seed), ops[..n]).Dir(d) == InitDir(key, d, seed).(counter := n % TWO_64)
  {
    hide Hasher.Update, Direction.Label;
    if n == 0 {
      assert ops[..n] == [];
    } else {
      PureDraws(key, seed, ops, d, n - 1);
      WrapSucc(n - 1);
      assert ops[..n][..n - 1] == ops[..n - 1];
    }
  }

  // --- The mutable pool ----------------------------------------------------

  class DirPool {
    var state: Hasher
    var counter: U64

    ghost function Value(): DirState
      reads this
    {
      DirState(state, counter)
    }

    constructor (key: Bytes, dir: Direction, seed: Bytes)
      ensures Value() == InitDir(key, dir, seed)
    {
      state := Hasher(key, []).Update(dir.Label()).Update(seed);
      counter := 0;
    }

    method NextNonce(su: Suite) returns (nonce: Bytes)
      modifies this
      ensures Value() == old(Value()).Drawn()
      ensures nonce == su.xof(old(state).key, old(Value()).NonceInput())
    {
      var h := state.Update(ToBE(8, counter));
      nonce := su.xof(h.key, h.transcript);
      counter := (counter + 1) % TWO_64;
    }

    method Absorb(data: Bytes)
      modifies this
      ensures Value() == old(Value()).Absorbed(data)
    {
      state := state.Update(ABSORB_LABEL);
      state := state.Update(data);
    }
  }

  class EntropyPool {
    const c2s: DirPool
    const s2c: DirPool

    ghost predicate Valid() {
      c2s != s2c
    }

    ghost function Value(): PoolState
      reads c2s, s2c
    {
      PoolState(c2s.Value(), s2c.Value())
    }

    constructor (key: Bytes, seed: Bytes)
      ensures Valid() && fresh(c2s) && fresh(s2c)
      ensures Value() == InitPool(key, seed)
    {
      c2s := new DirPool(key, ClientToServer, seed);
      s2c := new DirPool(key, ServerToClient, seed);
    }

    function Dir(d: Direction): DirPool {
      match d
      case ClientToServer => c2s
      case ServerToClient => s2c
    }

    method NextNonce(su: Suite, d: Direction) returns (nonce: Bytes)
      requires Valid()
      modifies Dir(d)
      ensures Value() == Step(old(Value()), Draw(d))
      ensures nonce == su.xof(old(Value()).Dir(d).state.key, old(Value()).Dir(d).NonceInput())
    {
      nonce := Dir(d).NextNonce(su);
    }

    method Absorb(d: Direction, data: Bytes)
      requires Valid()
      modifies Dir(d)
      ensures Value() == Step(old(Value()), PoolOp.Absorb(d, data))
    {
      Dir(d).Absorb(data);
    }

    function Counter(d: Direction): (n: U64)
      reads c2s, s2c
      ensures n == Value().Dir(d).counter
    {
      match d
      case ClientToServer => c2s.counter
      case ServerToClient => s2c.counter
    }
  }
}
