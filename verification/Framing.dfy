/** Outer framing: a big-endian `u32` length in front of every body, and its
    reassembly from a byte stream. */
module Framing {
  import opened ByteStrings
  import opened Codec

  const MAX_FRAME: nat := 0x10_0000

  function EncodeFramed(body: Bytes): (b: Bytes)
    ensures |b| == 4 + |body|
  {
    ToBE(4, |body|) + body
  }

  function ParseLen(prefix: Bytes): Result<nat, ProtoError>
    requires |prefix| == 4
  {
    var n := FromBE(prefix);
    if n > MAX_FRAME then Err(FrameTooLarge(n)) else Ok(n)
  }

  /** What one `read_frame` returns: a body, `None`, an oversized prefix, or an
      end of stream inside a body. */
  datatype ReadOutcome = Body(body: Bytes) | EndOfStream | TooLarge(size: nat) | BodyCut

  /** One `read_frame` on the bytes `s` that are still to come before the end of
      the stream, with the bytes it leaves. A failing `read_exact` eats the rest. */
  function NextFrame(s: Bytes): (r: (ReadOutcome, Bytes))
    ensures r.0.Body? ==> |r.1| < |s| && |r.0.body| <= MAX_FRAME
  {
    if |s| < 4 then (EndOfStream, [])
    else
      match ParseLen(s[..4])
      case Err(e) => (TooLarge(FromBE(s[..4])), s[4..])
      case Ok(n) => if |s| - 4 < n then (BodyCut, []) else (Body(s[4..4 + n]), s[4 + n..])
  }

  /** Repeated `read_frame` until something other than a body comes back. */
  function ReadAll(s: Bytes): (r: (seq<Bytes>, ReadOutcome))
    decreases |s|
  {
    var (out, rest) := NextFrame(s);
    if out.Body? then
      var (bodies, last) := ReadAll(rest);
      ([out.body] + bodies, last)
    else ([], out)
  }

  /** The bytes that writing `bodies` one after the other puts on the stream. */
  function Stream(bodies: seq<Bytes>): Bytes {
    if bodies == [] then [] else EncodeFramed(bodies[0]) + Stream(bodies[1..])
  }

  predicate AllWithinCap(bodies: seq<Bytes>) {
    forall i :: 0 <= i < |bodies| ==> |bodies[i]| <= MAX_FRAME
  }

  lemma NextOfFramed(body: Bytes, rest: Bytes)
    requires |body| <= MAX_FRAME
    ensures NextFrame(EncodeFramed(body) + rest) == (Body(body), rest)
  {
    var s := EncodeFramed(body) + rest;
    Pow256Values();
    FromToBE(4, |body|);
    assert s[..4] == ToBE(4, |body|);
    assert s[4..4 + |body|] == body && s[4 + |body|..] == rest;
  }

  /** A frame cut after `k` bytes reads as a clean end while only its length
      prefix is touched, and as an error once its body is. */
  lemma NextOfCut(body: Bytes, k: nat)
    requires |body| <= MAX_FRAME && k < 4 + |body|
    ensures NextFrame(EncodeFramed(body)[..k]) == (if k < 4 then EndOfStream else BodyCut, [])
  {
    if k >= 4 {
      Pow256Values();
      FromToBE(4, |body|);
      assert EncodeFramed(body)[..k][..4] == ToBE(4, |body|);
    }
  }

  lemma {:induction false} ReadAllWithinCap(s: Bytes)
    ensures AllWithinCap(ReadAll(s).0)
    decreases |s|
  {
    if NextFrame(s).0.Body? {
      ReadAllWithinCap(NextFrame(s).1);
    }
  }

  lemma ReadAllCons(body: Bytes, rest: Bytes)
    requires |body| <= MAX_FRAME
    ensures ReadAll(EncodeFramed(body) + rest) == ([body] + ReadAll(rest).0, ReadAll(rest).1)
  {
    NextOfFramed(body, rest);
  }

  lemma ReadAllNothing()
    ensures ReadAll([]) == ([], EndOfStream)
  {
  }

  lemma {:induction false} ReadAllOfStream(bodies: seq<Bytes>, rest: Bytes, more: seq<Bytes>, last: ReadOutcome)
    requires AllWithinCap(bodies) && ReadAll(rest) == (more, last)
    ensures ReadAll(Stream(bodies) + rest) == (bodies + more, last)
  {
    hide NextFrame, EncodeFramed;
    if bodies == [] {
      assert Stream(bodies) + rest == rest && bodies + more == more;
    } else {
      var head, tail := EncodeFramed(bodies[0]), Stream(bodies[1..]);
      Associate(head, tail, rest);
      ReadAllOfStream(bodies[1..], rest, more, last);
      ReadAllCons(bodies[0], tail + rest);
      assert [bodies[0]] + (bodies[1..] + more) == bodies + more;
    }
  }

  /** Reading back a written stream yields exactly the written bodies and then a
      clean end, if and only if every body respects the size cap. */
  lemma Reassembly(bodies: seq<Bytes>)
    ensures ReadAll(Stream(bodies)) == (bodies, EndOfStream) <==> AllWithinCap(bodies)
  {
    if AllWithinCap(bodies) {
      ReadAllOfStream(bodies, [], [], EndOfStream);
      assert Stream(bodies) + [] == Stream(bodies) && bodies + [] == bodies;
    }
    ReadAllWithinCap(Stream(bodies));
  }

  /** How many whole frames lie within the first `m` bytes of the stream. */
  function WholeFrames(bodies: seq<Bytes>, m: nat): (j: nat)
    ensures j <= |bodies|
  {
    if bodies == [] || m < 4 + |bodies[0]| then 0 else 1 + WholeFrames(bodies[1..], m - 4 - |bodies[0]|)
  }

  /** The bytes of the cut frame that are left behind the whole ones. */
  function Leftover(bodies: seq<Bytes>, m: nat): nat {
    if bodies == [] || m < 4 + |bodies[0]| then m else Leftover(bodies[1..], m - 4 - |bodies[0]|)
  }

  /** Every cut of a written stream: the whole frames come out unchanged, and the
      cut is a clean end at a boundary or inside a length prefix and an error
      inside a body. */
  lemma {:induction false} CutReassembly(bodies: seq<Bytes>, m: nat)
    requires AllWithinCap(bodies) && m <= |Stream(bodies)|
    ensures ReadAll(Stream(bodies)[..m]) ==
            (bodies[..WholeFrames(bodies, m)], if Leftover(bodies, m) < 4 then EndOfStream else BodyCut)
  {
    hide NextFrame, EncodeFramed;
    if bodies == [] {
      assert Stream(bodies)[..m] == [] && bodies[..0] == [];
      ReadAllNothing();
    } else {
      var head, tail := EncodeFramed(bodies[0]), Stream(bodies[1..]);
      if m < |head| {
        assert Stream(bodies)[..m] == head[..m];
        NextOfCut(bodies[0], m);
        assert bodies[..0] == [];
      } else {
        assert Stream(bodies)[..m] == head + tail[..m - |head|];
        ReadAllCons(bodies[0], tail[..m - |head|]);
        CutReassembly(bodies[1..], m - |head|);
        var j := WholeFrames(bodies[1..], m - |head|);
        assert [bodies[0]] + bodies[1..][..j] == bodies[..1 + j];
      }
    }
  }

  /** The whole frames and the leftover account for every byte of the cut. */
  lemma {:induction false} CutAccounting(bodies: seq<Bytes>, m: nat)
    requires m <= |Stream(bodies)|
    ensures |Stream(bodies[..WholeFrames(bodies, m)])| + Leftover(bodies, m) == m
    ensures WholeFrames(bodies, m) < |bodies| ==> Leftover(bodies, m) < 4 + |bodies[WholeFrames(bodies, m)]|
  {
    if bodies != [] && m >= 4 + |bodies[0]| {
      var rest := m - 4 - |bodies[0]|;
      CutAccounting(bodies[1..], rest);
      var j := WholeFrames(bodies[1..], rest);
      assert bodies[..1 + j][1..] == bodies[1..][..j];
    }
  }

  class FramedWriter {
    /** Everything handed to the sink so far. */
    var sink: Bytes

    constructor ()
      ensures sink == []
    {
      sink := [];
    }

    method WriteFrame(body: Bytes)
      modifies this
      ensures sink == old(sink) + EncodeFramed(body)
    {
      CastU32(|body|);
      var framed := ToBE(4, |body| % 0x1_0000_0000) + body;
      sink := sink + framed;
    }
  }

  /** Writing one body after another produces the stream of them all. */
  lemma {:induction false} StreamSnoc(before: seq<Bytes>, body: Bytes)
    ensures Stream(before + [body]) == Stream(before) + EncodeFramed(body)
  {
    if before != [] {
      StreamSnoc(before[1..], body);
      assert (before + [body])[1..] == before[1..] + [body];
    }
  }

  class FramedReader {
    /** What the source will still deliver before its end. */
    var inner: Bytes

    constructor (s: Bytes)
      ensures inner == s
    {
      inner := s;
    }

    /** Fill a buffer of `n` bytes, or fail with an unexpected end of file. */
    method ReadExact(n: nat) returns (r: Result<Bytes, ()>)
      modifies this
      ensures n <= |old(inner)| ==> r == Ok(old(inner)[..n]) && inner == old(inner)[n..]
      ensures n > |old(inner)| ==> r == Err(()) && inner == []
    {
      if |inner| < n {
        inner := [];
        return Err(());
      }
      r := Ok(inner[..n]);
      inner := inner[n..];
    }

    method ReadFrame() returns (out: ReadOutcome)
      modifies this
      ensures (out, inner) == NextFrame(old(inner))
    {
      ghost var s := inner;
      var prefix := ReadExact(4);
      if prefix.Err? {
        return EndOfStream;
      }
      var n := ParseLen(prefix.value);
      if n.Err? {
        return TooLarge(FromBE(prefix.value));
      }
      var body := ReadExact(n.value);
      if body.Err? {
        return BodyCut;
      }
      assert s[4..][..n.value] == s[4..4 + n.value] && s[4..][n.value..] == s[4 + n.value..];
      return Body(body.value);
    }
  }
}
