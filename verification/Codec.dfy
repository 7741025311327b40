/** The wire grammar of ort-proto and the cursor classes that write and read it.

    The grammar describes a frame body as one tag byte followed by a list of
    fields; printing and scanning are defined once for every list of fields, and
    the four laws of the codec (round trip, canonicity, prefixes, extensions) are
    proved by induction over that list. `Writer` and `Reader` are the source's
    mutable cursors, proved against the grammar. */
module Codec {
  import opened ByteStrings

  datatype ProtoError =
    | Truncated
    | TrailingBytes(extra: nat)
    | UnknownFrameType(tag: Byte)
    | FrameTooLarge(size: nat)

  /** A field: a fixed-width number, a fixed-length block, or a block behind a
      big-endian length of the given width. */
  datatype Kind = Num(width: nat) | Raw(len: nat) | Prefixed(width: nat)

  datatype Val = N(n: nat) | B(b: Bytes)

  /** The value has the shape of the field; its size may still overflow. */
  predicate Matches(k: Kind, v: Val) {
    match k
    case Num(_) => v.N?
    case Raw(n) => v.B? && |v.b| == n
    case Prefixed(_) => v.B?
  }

  /** The value is representable: numbers fit their width, lengths their prefix. */
  predicate Fits(k: Kind, v: Val) {
    && Matches(k, v)
    && match k
       case Num(w) => v.n < Pow256(w)
       case Raw(_) => true
       case Prefixed(w) => |v.b| < Pow256(w)
  }

  predicate MatchAll(ks: seq<Kind>, vs: seq<Val>) {
    |ks| == |vs| && forall i :: 0 <= i < |ks| ==> Matches(ks[i], vs[i])
  }

  predicate FitAll(ks: seq<Kind>, vs: seq<Val>) {
    |ks| == |vs| && forall i :: 0 <= i < |ks| ==> Fits(ks[i], vs[i])
  }

  function PrintVal(k: Kind, v: Val): Bytes
    requires Matches(k, v)
  {
    match k
    case Num(w) => ToBE(w, v.n)
    case Raw(_) => v.b
    case Prefixed(w) => ToBE(w, |v.b|) + v.b
  }

  function PrintVals(ks: seq<Kind>, vs: seq<Val>): Bytes
    requires MatchAll(ks, vs)
  {
    if ks == [] then [] else PrintVal(ks[0], vs[0]) + PrintVals(ks[1..], vs[1..])
  }

  /** Outcome of scanning the front of a byte string. */
  datatype Scan<+T> = Got(value: T, used: nat) | Short

  function ScanVal(k: Kind, s: Bytes): (r: Scan<Val>)
    ensures r.Got? ==> r.used <= |s|
  {
    match k
    case Num(w) => if |s| < w then Short else Got(N(FromBE(s[..w])), w)
    case Raw(n) => if |s| < n then Short else Got(B(s[..n]), n)
    case Prefixed(w) =>
      if |s| < w then Short else
        var n := FromBE(s[..w]);
        if |s| - w < n then Short else Got(B(s[w..w + n]), w + n)
  }

  function ScanVals(ks: seq<Kind>, s: Bytes): (r: Scan<seq<Val>>)
    ensures r.Got? ==> r.used <= |s|
  {
    if ks == [] then Got([], 0) else
      match ScanVal(ks[0], s)
      case Short => Short
      case Got(v, n) =>
        match ScanVals(ks[1..], s[n..])
        case Short => Short
        case Got(vs, m) => Got([v] + vs, n + m)
  }

  lemma ScanCons(ks: seq<Kind>, s: Bytes, v: Val, n: nat, vs: seq<Val>, m: nat)
    requires ks != [] && n <= |s|
    requires ScanVal(ks[0], s) == Got(v, n) && ScanVals(ks[1..], s[n..]) == Got(vs, m)
    ensures ScanVals(ks, s) == Got([v] + vs, n + m)
  {
  }

  // --- One field -----------------------------------------------------------

  lemma ScanPrintVal(k: Kind, v: Val, rest: Bytes)
    requires Fits(k, v)
    ensures ScanVal(k, PrintVal(k, v) + rest) == Got(v, |PrintVal(k, v)|)
  {
    var s := PrintVal(k, v) + rest;
    match k
    case Num(w) =>
      FromToBE(w, v.n);
      assert s[..w] == ToBE(w, v.n);
    case Raw(n) =>
      assert s[..n] == v.b;
    case Prefixed(w) =>
      FromToBE(w, |v.b|);
      assert s[..w] == ToBE(w, |v.b|);
      assert s[w..w + |v.b|] == v.b;
  }

  lemma PrintScanVal(k: Kind, s: Bytes)
    requires ScanVal(k, s).Got?
    ensures Fits(k, ScanVal(k, s).value)
    ensures PrintVal(k, ScanVal(k, s).value) == s[..ScanVal(k, s).used]
  {
    match k
    case Num(w) => ToFromBE(s[..w]);
    case Raw(_) =>
    case Prefixed(w) =>
      ToFromBE(s[..w]);
      var n := FromBE(s[..w]);
      assert s[..w] + s[w..w + n] == s[..w + n];
  }

  lemma CutScanVal(k: Kind, s: Bytes, m: nat)
    requires ScanVal(k, s).Got? && m < ScanVal(k, s).used
    ensures ScanVal(k, s[..m]) == Short
  {
    match k
    case Num(_) =>
    case Raw(_) =>
    case Prefixed(w) =>
      if m >= w {
        assert s[..m][..w] == s[..w];
      }
  }

  // --- Lists of fields -----------------------------------------------------

  /** Scanning undoes printing, whatever follows. */
  lemma {:induction false} ScanPrint(ks: seq<Kind>, vs: seq<Val>, rest: Bytes)
    requires FitAll(ks, vs)
    ensures ScanVals(ks, PrintVals(ks, vs) + rest) == Got(vs, |PrintVals(ks, vs)|)
  {
    hide ScanVal, PrintVal;
    if ks != [] {
      var head, tail := PrintVal(ks[0], vs[0]), PrintVals(ks[1..], vs[1..]);
      var s := head + (tail + rest);
      assert PrintVals(ks, vs) + rest == s;
      ScanPrintVal(ks[0], vs[0], tail + rest);
      ScanPrint(ks[1..], vs[1..], rest);
      assert s[|head|..] == tail + rest;
      ScanCons(ks, s, vs[0], |head|, vs[1..], |tail|);
      assert [vs[0]] + vs[1..] == vs;
    }
  }

  /** Printing undoes scanning: what was consumed is the only encoding of the result. */
  lemma {:induction false} PrintScan(ks: seq<Kind>, s: Bytes)
    requires ScanVals(ks, s).Got?
    ensures FitAll(ks, ScanVals(ks, s).value)
    ensures PrintVals(ks, ScanVals(ks, s).value) == s[..ScanVals(ks, s).used]
  {
    hide ScanVal, PrintVal;
    if ks != [] {
      var head := ScanVal(ks[0], s);
      PrintScanVal(ks[0], s);
      var t := s[head.used..];
      PrintScan(ks[1..], t);
      var tail := ScanVals(ks[1..], t);
      var vs := [head.value] + tail.value;
      assert vs[1..] == tail.value;
      assert s[..head.used] + t[..tail.used] == s[..head.used + tail.used];
      assert FitAll(ks, vs) by {
        forall i | 0 < i < |ks|
          ensures Fits(ks[i], vs[i])
        {
          assert Fits(ks[1..][i - 1], tail.value[i - 1]);
        }
      }
    }
  }

  /** Cutting a scanned string anywhere before its end leaves it short. */
  lemma {:induction false} CutScan(ks: seq<Kind>, s: Bytes, m: nat)
    requires ScanVals(ks, s).Got? && m < ScanVals(ks, s).used
    ensures ScanVals(ks, s[..m]) == Short
  {
    hide ScanVal, PrintVal;
    if ks != [] {
      var head := ScanVal(ks[0], s);
      if m < head.used {
        CutScanVal(ks[0], s, m);
      } else {
        PrintScanVal(ks[0], s);
        ScanPrintVal(ks[0], head.value, s[head.used..m]);
        assert s[..m] == s[..head.used] + s[head.used..m];
        assert s[..m][head.used..] == s[head.used..][..m - head.used];
        CutScan(ks[1..], s[head.used..], m - head.used);
      }
    }
  }

  lemma {:induction false} PrintSplit(ks: seq<Kind>, vs: seq<Val>, i: nat)
    requires MatchAll(ks, vs) && i <= |ks|
    ensures PrintVals(ks, vs) == PrintVals(ks[..i], vs[..i]) + PrintVals(ks[i..], vs[i..])
  {
    if i > 0 {
      PrintSplit(ks[1..], vs[1..], i - 1);
      assert ks[1..][i - 1..] == ks[i..] && vs[1..][i - 1..] == vs[i..];
      assert ks[..i][1..] == ks[1..][..i - 1] && vs[..i][1..] == vs[1..][..i - 1];
    }
  }

  /** Appending fields one by one, as the writer does, prints the list. */
  lemma PrintOne(start: Bytes, k: Kind, v: Val)
    requires Matches(k, v)
    ensures start + PrintVal(k, v) == start + PrintVals([k], [v])
  {
    assert PrintVals([k], [v]) == PrintVal(k, v) + PrintVals([], []);
  }

  lemma PrintTwo(start: Bytes, k: Kind, v: Val, l: Kind, w: Val)
    requires Matches(k, v) && Matches(l, w)
    ensures start + PrintVal(k, v) + PrintVal(l, w) == start + PrintVals([k, l], [v, w])
  {
    PrintSplit([k, l], [v, w], 1);
    PrintOne([], k, v);
    PrintOne([], l, w);
    assert [k, l][..1] == [k] && [k, l][1..] == [l] && [v, w][..1] == [v] && [v, w][1..] == [w];
  }

  lemma PrintThen(start: Bytes, ks: seq<Kind>, vs: seq<Val>, ls: seq<Kind>, ws: seq<Val>)
    requires MatchAll(ks, vs) && MatchAll(ls, ws)
    ensures start + PrintVals(ks, vs) + PrintVals(ls, ws) == start + PrintVals(ks + ls, vs + ws)
  {
    var n := |ks|;
    PrintSplit(ks + ls, vs + ws, n);
    assert (ks + ls)[..n] == ks && (ks + ls)[n..] == ls && (vs + ws)[..n] == vs && (vs + ws)[n..] == ws;
  }

  // --- Scanning by position, as the reader does ----------------------------

  /** `ScanVal` at a position of a buffer; `used` is the position after the field. */
  function ScanAt(k: Kind, buf: Bytes, pos: nat): (r: Scan<Val>)
    requires pos <= |buf|
    ensures r.Got? ==> pos <= r.used <= |buf| && Fits(k, r.value)
  {
    match k
    case Num(w) =>
      if |buf| - pos < w then Short else
        ToFromBE(buf[pos..pos + w]);
        Got(N(FromBE(buf[pos..pos + w])), pos + w)
    case Raw(n) => if |buf| - pos < n then Short else Got(B(buf[pos..pos + n]), pos + n)
    case Prefixed(w) =>
      if |buf| - pos < w then Short else
        ToFromBE(buf[pos..pos + w]);
        var n := FromBE(buf[pos..pos + w]);
        if |buf| - pos - w < n then Short else Got(B(buf[pos + w..pos + w + n]), pos + w + n)
  }

  /** `ScanVals` of the fields from `i` on, at a position. */
  function ScanFrom(ks: seq<Kind>, i: nat, buf: Bytes, pos: nat): (r: Scan<seq<Val>>)
    requires i <= |ks| && pos <= |buf|
    ensures r.Got? ==> pos <= r.used <= |buf|
    decreases |ks| - i
  {
    if i == |ks| then Got([], pos) else
      match ScanAt(ks[i], buf, pos)
      case Short => Short
      case Got(v, next) =>
        match ScanFrom(ks, i + 1, buf, next)
        case Short => Short
        case Got(vs, end) => Got([v] + vs, end)
  }

  lemma ScanOne(k: Kind, buf: Bytes, pos: nat)
    requires pos <= |buf|
    ensures var a := ScanAt(k, buf, pos);
            ScanFrom([k], 0, buf, pos) == if a.Short? then Short else Got([a.value], a.used)
  {
    var a := ScanAt(k, buf, pos);
    if a.Got? {
      assert ScanFrom([k], 1, buf, a.used) == Got([], a.used);
      assert [a.value] + [] == [a.value];
    }
  }

  /** Fields listed in front do not matter to the fields behind them. */
  lemma {:induction false} ScanBehind(ks: seq<Kind>, ls: seq<Kind>, i: nat, buf: Bytes, pos: nat)
    requires i <= |ls| && pos <= |buf|
    ensures ScanFrom(ks + ls, |ks| + i, buf, pos) == ScanFrom(ls, i, buf, pos)
    decreases |ls| - i
  {
    if i < |ls| && ScanAt(ls[i], buf, pos).Got? {
      ScanBehind(ks, ls, i + 1, buf, ScanAt(ls[i], buf, pos).used);
    }
  }

  /** Scanning two lists in a row: the second starts where the first ended. */
  function Then(a: Scan<seq<Val>>, b: Scan<seq<Val>>): Scan<seq<Val>> {
    if a.Short? || b.Short? then Short else Got(a.value + b.value, b.used)
  }

  lemma {:induction false} ScanThenFrom(ks: seq<Kind>, ls: seq<Kind>, i: nat, buf: Bytes, pos: nat)
    requires i <= |ks| && pos <= |buf|
    ensures var a := ScanFrom(ks, i, buf, pos);
            ScanFrom(ks + ls, i, buf, pos) == if a.Short? then Short else Then(a, ScanFrom(ls, 0, buf, a.used))
    decreases |ks| - i
  {
    if i == |ks| {
      ScanBehind(ks, ls, 0, buf, pos);
      var b := ScanFrom(ls, 0, buf, pos);
      assert b.Got? ==> [] + b.value == b.value;
    } else {
      var h := ScanAt(ks[i], buf, pos);
      if h.Got? {
        ScanThenFrom(ks, ls, i + 1, buf, h.used);
        var a := ScanFrom(ks, i + 1, buf, h.used);
        if a.Got? {
          var b := ScanFrom(ls, 0, buf, a.used);
          assert b.Got? ==> [h.value] + (a.value + b.value) == ([h.value] + a.value) + b.value;
        }
      }
    }
  }

  lemma ScanTwo(k: Kind, l: Kind, buf: Bytes, pos: nat)
    requires pos <= |buf|
    ensures var a := ScanAt(k, buf, pos);
            ScanFrom([k, l], 0, buf, pos) ==
              if a.Short? then Short else
                var b := ScanAt(l, buf, a.used);
                if b.Short? then Short else Got([a.value, b.value], b.used)
  {
    ScanThenFrom([k], [l], 0, buf, pos);
    ScanOne(k, buf, pos);
    var a := ScanAt(k, buf, pos);
    if a.Got? {
      ScanOne(l, buf, a.used);
      var b := ScanAt(l, buf, a.used);
      assert b.Got? ==> [a.value] + [b.value] == [a.value, b.value];
    }
    assert [k] + [l] == [k, l];
  }

  lemma ScanFour(k: Kind, l: Kind, m: Kind, n: Kind, buf: Bytes, pos: nat)
    requires pos <= |buf|
    ensures var a := ScanAt(k, buf, pos);
            ScanFrom([k, l, m, n], 0, buf, pos) ==
              if a.Short? then Short else
                var b := ScanAt(l, buf, a.used);
                if b.Short? then Short else
                  var c := ScanAt(m, buf, b.used);
                  if c.Short? then Short else
                    var d := ScanAt(n, buf, c.used);
                    if d.Short? then Short else Got([a.value, b.value, c.value, d.value], d.used)
  {
    ScanThenFrom([k, l], [m, n], 0, buf, pos);
    ScanTwo(k, l, buf, pos);
    assert [k, l] + [m, n] == [k, l, m, n];
    var ab := ScanFrom([k, l], 0, buf, pos);
    if ab.Got? {
      ScanTwo(m, n, buf, ab.used);
      var cd := ScanFrom([m, n], 0, buf, ab.used);
      if cd.Got? {
        assert ab.value + cd.value == [ab.value[0], ab.value[1], cd.value[0], cd.value[1]];
      }
    }
  }

  lemma ScanAtSlice(k: Kind, buf: Bytes, pos: nat)
    requires pos <= |buf|
    ensures ScanAt(k, buf, pos).Short? <==> ScanVal(k, buf[pos..]).Short?
    ensures ScanAt(k, buf, pos).Got? ==>
              ScanVal(k, buf[pos..]) == Got(ScanAt(k, buf, pos).value, ScanAt(k, buf, pos).used - pos)
  {
    var s := buf[pos..];
    match k
    case Num(w) => assert |s| >= w ==> s[..w] == buf[pos..pos + w];
    case Raw(n) => assert |s| >= n ==> s[..n] == buf[pos..pos + n];
    case Prefixed(w) =>
      if |s| >= w {
        assert s[..w] == buf[pos..pos + w];
        var n := FromBE(s[..w]);
        assert |s| - w >= n ==> s[w..w + n] == buf[pos + w..pos + w + n];
      }
  }

  /** Scanning by position is scanning the rest of the buffer. */
  lemma {:induction false} ScanFromSlice(ks: seq<Kind>, i: nat, buf: Bytes, pos: nat)
    requires i <= |ks| && pos <= |buf|
    ensures var r, q := ScanFrom(ks, i, buf, pos), ScanVals(ks[i..], buf[pos..]);
            if r.Short? then q.Short? else q == Got(r.value, r.used - pos)
    decreases |ks| - i
  {
    if i < |ks| {
      ScanAtSlice(ks[i], buf, pos);
      var r := ScanAt(ks[i], buf, pos);
      if r.Got? {
        ScanFromSlice(ks, i + 1, buf, r.used);
        assert ks[i..][1..] == ks[i + 1..];
        assert buf[pos..][r.used - pos..] == buf[r.used..];
      }
    }
  }

  // --- Cursors -------------------------------------------------------------

  /** Append-only big-endian writer. */
  class Writer {
    var buf: Bytes

    constructor ()
      ensures buf == []
    {
      buf := [];
    }

    method U8(v: Byte)
      modifies this
      ensures buf == old(buf) + PrintVal(Num(1), N(v))
    {
      buf := buf + [v];
      assert ToBE(1, v) == [v];
    }

    method U16(v: U16)
      modifies this
      ensures buf == old(buf) + PrintVal(Num(2), N(v))
    {
      buf := buf + ToBE(2, v);
    }

    method U32(v: U32)
      modifies this
      ensures buf == old(buf) + PrintVal(Num(4), N(v))
    {
      buf := buf + ToBE(4, v);
    }

    method U64(v: U64)
      modifies this
      ensures buf == old(buf) + PrintVal(Num(8), N(v))
    {
      buf := buf + ToBE(8, v);
    }

    method Raw(b: Bytes)
      modifies this
      ensures buf == old(buf) + PrintVal(Kind.Raw(|b|), B(b))
    {
      buf := buf + b;
    }

    /** The length is cast to `u16`, so a longer block gets a wrong prefix. */
    method Bytes16(b: Bytes)
      modifies this
      ensures buf == old(buf) + PrintVal(Prefixed(2), B(b))
    {
      hide ToBE, Pow256;
      CastU16(|b|);
      var start := buf;
      U16(|b| % 0x1_0000);
      buf := buf + b;
      assert buf == start + (ToBE(2, |b|) + b);
    }

    method Bytes32(b: Bytes)
      modifies this
      ensures buf == old(buf) + PrintVal(Prefixed(4), B(b))
    {
      hide ToBE, Pow256;
      CastU32(|b|);
      var start := buf;
      U32(|b| % 0x1_0000_0000);
      buf := buf + b;
      assert buf == start + (ToBE(4, |b|) + b);
    }
  }

  /** Bounds-checked big-endian reader. */
  class Reader {
    const buf: Bytes
    var pos: nat

    /** The cursor never leaves the buffer, so no read indexes out of bounds. */
    ghost predicate Valid()
      reads this
    {
      pos <= |buf|
    }

    constructor (b: Bytes)
      ensures Valid() && buf == b && pos == 0
    {
      buf := b;
      pos := 0;
    }

    function Remaining(): (n: nat)
      requires Valid()
      reads this
      ensures pos + n == |buf|
    {
      |buf| - pos
    }

    method Take(n: nat) returns (r: Result<Bytes, ProtoError>)
      requires Valid()
      modifies this
      ensures Valid()
      ensures old(Remaining()) < n ==> r == Err(Truncated) && pos == old(pos)
      ensures old(Remaining()) >= n ==> pos == old(pos) + n && r == Ok(buf[old(pos)..pos])
    {
      if Remaining() < n {
        return Err(Truncated);
      }
      r := Ok(buf[pos..pos + n]);
      pos := pos + n;
    }

    method Number(w: nat) returns (r: Result<nat, ProtoError>)
      requires Valid()
      modifies this
      ensures Valid()
      ensures match ScanAt(Num(w), buf, old(pos))
              case Short => r == Err(Truncated)
              case Got(v, next) => r == Ok(v.n) && pos == next
    {
      var b :- Take(w);
      r := Ok(FromBE(b));
    }

    method Array(n: nat) returns (r: Result<Bytes, ProtoError>)
      requires Valid()
      modifies this
      ensures Valid()
      ensures match ScanAt(Kind.Raw(n), buf, old(pos))
              case Short => r == Err(Truncated)
              case Got(v, next) => r == Ok(v.b) && pos == next
    {
      r := Take(n);
    }

    /** `bytes16` (w = 2) and `bytes32` (w = 4). */
    method Block(w: nat) returns (r: Result<Bytes, ProtoError>)
      requires Valid()
      modifies this
      ensures Valid()
      ensures match ScanAt(Prefixed(w), buf, old(pos))
              case Short => r == Err(Truncated)
              case Got(v, next) => r == Ok(v.b) && pos == next
    {
      var n :- Number(w);
      r := Take(n);
    }

    method ExpectEnd() returns (r: Result<(), ProtoError>)
      requires Valid()
      ensures pos == |buf| ==> r == Ok(())
      ensures pos < |buf| ==> r == Err(TrailingBytes(|buf| - pos))
    {
      return if Remaining() == 0 then Ok(()) else Err(TrailingBytes(Remaining()));
    }
  }
}
