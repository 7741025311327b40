/** Bytes, machine integers and big-endian numerals shared by every layer. */
module ByteStrings {

  datatype Option<+T> = None | Some(value: T)

  /** Rust's `Result`; failure-compatible, so `:-` plays the part of `?`. */
  datatype Result<+T, +E> = Ok(value: T) | Err(error: E) {
    predicate IsFailure() {
      Err?
    }

    function PropagateFailure<U>(): Result<U, E>
      requires Err?
    {
      Err(error)
    }

    function Extract(): T
      requires Ok?
    {
      value
    }
  }

  type Byte = x: int | 0 <= x < 0x100
  type U16 = x: int | 0 <= x < 0x1_0000
  type U32 = x: int | 0 <= x < 0x1_0000_0000
  type U64 = x: int | 0 <= x < 0x1_0000_0000_0000_0000
  type Bytes = seq<Byte>

  const U64_MAX: nat := 0xFFFF_FFFF_FFFF_FFFF
  const TWO_64: nat := 0x1_0000_0000_0000_0000

  function Zeros(n: nat): (b: Bytes)
    ensures |b| == n
  {
    seq(n, _ => 0)
  }

  type Bytes16 = b: Bytes | |b| == 16 witness Zeros(16)
  type Bytes32 = b: Bytes | |b| == 32 witness Zeros(32)

  /** The bytes of an ASCII label such as `b"ORT-v1 rec"`. */
  function Ascii(s: string): (b: Bytes)
    ensures |b| == |s|
  {
    seq(|s|, i requires 0 <= i < |s| => s[i] as int % 0x100)
  }

  lemma Associate<T>(a: seq<T>, b: seq<T>, c: seq<T>)
    ensures (a + b) + c == a + (b + c)
  {
  }

  function Pow256(n: nat): (p: nat)
    ensures p >= 1
  {
    if n == 0 then 1 else 256 * Pow256(n - 1)
  }

  /** Big-endian numeral of width `n`. High-order digits that do not fit are
      dropped, which is what an `as u16` or `as u32` cast does before `to_be_bytes`. */
  function ToBE(n: nat, v: nat): (b: Bytes)
    ensures |b| == n
  {
    if n == 0 then [] else ToBE(n - 1, v / 256) + [v % 256]
  }

  function FromBE(b: Bytes): nat {
    if b == [] then 0 else FromBE(b[..|b| - 1]) * 256 + b[|b| - 1]
  }

  lemma {:induction false} FromToBE(n: nat, v: nat)
    requires v < Pow256(n)
    ensures FromBE(ToBE(n, v)) == v
  {
    if n > 0 {
      FromToBE(n - 1, v / 256);
      assert ToBE(n, v)[..n - 1] == ToBE(n - 1, v / 256);
    }
  }

  lemma {:induction false} ToFromBE(b: Bytes)
    ensures FromBE(b) < Pow256(|b|)
    ensures ToBE(|b|, FromBE(b)) == b
  {
    if b != [] {
      var front := b[..|b| - 1];
      ToFromBE(front);
      assert FromBE(b) / 256 == FromBE(front);
      assert b == front + [b[|b| - 1]];
    }
  }

  /** The most significant digit comes first. */
  lemma {:induction false} BigEndianAt(n: nat, v: nat, i: nat)
    requires i < n
    ensures ToBE(n, v)[i] == v / Pow256(n - 1 - i) % 256
  {
    if i < n - 1 {
      BigEndianAt(n - 1, v / 256, i);
      QuotientOfQuotient(v, Pow256(n - 2 - i));
    }
  }

  lemma QuotientOfQuotient(v: nat, p: nat)
    requires p > 0
    ensures v / 256 / p == v / (256 * p)
  {
    var q, d := v / 256, v % 256;
    var a, b := q / p, q % p;
    assert q == p * a + b;
    assert v == 256 * q + d == (256 * p) * a + (256 * b + d) by {
      assert 256 * (p * a) == (256 * p) * a;
    }
    assert 256 * b + d < 256 * p;
    RemainderUnique(256 * p, a, 256 * b + d);
  }

  /** A numeral of width `n` only sees its value modulo 256^n. */
  lemma {:induction false} CastBE(n: nat, v: nat)
    ensures ToBE(n, v % Pow256(n)) == ToBE(n, v)
  {
    if n > 0 {
      var p := Pow256(n - 1);
      ModOfQuotient(v, p);
      CastBE(n - 1, v / 256);
    }
  }

  lemma ModOfQuotient(v: nat, p: nat)
    requires p > 0
    ensures v % (256 * p) / 256 == v / 256 % p
    ensures v % (256 * p) % 256 == v % 256
  {
    var q, r := v / (256 * p), v % (256 * p);
    assert v == 256 * (p * q) + r;
    assert v / 256 == p * q + r / 256 && v % 256 == r % 256;
    RemainderUnique(p, q, r / 256);
  }

  lemma RemainderUnique(p: nat, a: nat, b: nat)
    requires b < p
    ensures (p * a + b) % p == b && (p * a + b) / p == a
  {
    var q, r := (p * a + b) / p, (p * a + b) % p;
    assert p * q + r == p * a + b;
    if q < a {
      MulMonotone(p, q + 1, a);
      assert false;
    } else if a < q {
      MulMonotone(p, a + 1, q);
      assert false;
    }
  }

  lemma MulMonotone(p: nat, a: int, b: int)
    requires a <= b
    ensures p * a <= p * b
  {
  }

  lemma Pow256Values()
    ensures Pow256(1) == 0x100 && Pow256(2) == 0x1_0000
    ensures Pow256(4) == 0x1_0000_0000 && Pow256(8) == TWO_64
  {
    assert Pow256(3) == 256 * Pow256(2);
    assert Pow256(5) == 256 * Pow256(4);
    assert Pow256(6) == 256 * Pow256(5);
    assert Pow256(7) == 256 * Pow256(6);
  }

  lemma CastU16(v: nat)
    ensures ToBE(2, v % 0x1_0000) == ToBE(2, v)
  {
    Pow256Values();
    CastBE(2, v);
  }

  lemma CastU32(v: nat)
    ensures ToBE(4, v % 0x1_0000_0000) == ToBE(4, v)
  {
    Pow256Values();
    CastBE(4, v);
  }

  /** Eight bytes tell any two `u64` values apart. */
  lemma BE64Injective(a: U64, b: U64)
    requires ToBE(8, a) == ToBE(8, b)
    ensures a == b
  {
    Pow256Values();
    FromToBE(8, a);
    FromToBE(8, b);
  }
}
