/** The wire format written out byte by byte, as a reference for the grammar and
    the framing. */
module Wire {
  import opened ByteStrings
  import opened Codec
  import opened Messages
  import opened Framing

  // --- Frame bodies --------------------------------------------------------

  /** A block behind a 16-bit or a 32-bit length. */
  function Block16(b: Bytes): Bytes {
    ToBE(2, |b|) + b
  }

  function Block32(b: Bytes): Bytes {
    ToBE(4, |b|) + b
  }

  function PayloadBytes(p: KemPayload): Bytes {
    Block16(p.ciphertext) + p.srcIp + ToBE(8, p.tsMillis) + p.nonce + Block16(p.clientSig) + Block32(p.encData)
  }

  function FrameBytes(f: Frame): Bytes {
    match f
    case ClientHelloOneRtt(id, pk) => [0x01] + ToBE(2, id) + Block16(pk)
    case ClientHelloZeroRtt(id, pk, p) => [0x02] + ToBE(2, id) + Block16(pk) + PayloadBytes(p)
    case ClientData(pk, p) => [0x03] + Block16(pk) + PayloadBytes(p)
    case ServerHello(id, pk, cert, ts) => [0x04] + ToBE(2, id) + Block16(pk) + Block32(cert) + ToBE(8, ts)
    case ServerAck(h) => [0x05] + Block16(h)
    case DataRecord(d, ct) => [0x06] + ToBE(1, d) + Block32(ct)
    case Close => [0x07]
  }

  lemma TwoFields(k: Kind, v: Val, l: Kind, w: Val)
    requires Matches(k, v) && Matches(l, w)
    ensures PrintVals([k, l], [v, w]) == PrintVal(k, v) + PrintVal(l, w)
  {
    hide PrintVals, PrintVal;
    PrintTwo([], k, v, l, w);
    assert [] + PrintVal(k, v) == PrintVal(k, v) && [] + PrintVals([k, l], [v, w]) == PrintVals([k, l], [v, w]);
  }

  lemma PayloadLayout(p: KemPayload)
    ensures PrintVals(PAYLOAD, PayloadVals(p)) == PayloadBytes(p)
  {
    hide PrintVals, ToBE;
    var vs := PayloadVals(p);
    assert vs[..2] == [vs[0], vs[1]] && vs[2..4] == [vs[2], vs[3]] && vs[4..] == [vs[4], vs[5]];
    TwoFields(Prefixed(2), vs[0], Raw(16), vs[1]);
    TwoFields(Num(8), vs[2], Raw(32), vs[3]);
    TwoFields(Prefixed(2), vs[4], Prefixed(4), vs[5]);
    PrintPayload([], p);
    var a, b := Block16(p.ciphertext) + p.srcIp, ToBE(8, p.tsMillis) + p.nonce;
    var c := Block16(p.clientSig) + Block32(p.encData);
    assert PrintVals([Prefixed(2), Raw(16)], vs[..2]) == a;
    assert PrintVals([Num(8), Raw(32)], vs[2..4]) == b;
    assert PrintVals([Prefixed(2), Prefixed(4)], vs[4..]) == c;
    assert [] + a == a && [] + PrintVals(PAYLOAD, vs) == PrintVals(PAYLOAD, vs);
    Regroup(Block16(p.ciphertext), p.srcIp, ToBE(8, p.tsMillis), p.nonce, Block16(p.clientSig), Block32(p.encData));
  }

  lemma Regroup(a: Bytes, b: Bytes, c: Bytes, d: Bytes, e: Bytes, f: Bytes)
    ensures a + b + c + d + e + f == (a + b) + (c + d) + (e + f)
  {
  }

  /** The grammar's encoding of every frame, byte by byte. */
  lemma WireLayout(f: Frame)
    ensures EncodeBody(f) == FrameBytes(f)
  {
    hide PrintVals, PayloadBytes, ToBE;
    match f
    case ClientHelloOneRtt(id, pk) => LayoutPair(f, Num(2), N(id), Prefixed(2), B(pk));
    case ClientHelloZeroRtt(id, pk, p) =>
      LayoutZeroRtt(id, pk, p);
      PayloadLayout(p);
    case ClientData(pk, p) =>
      LayoutClientData(pk, p);
      PayloadLayout(p);
    case ServerHello(id, pk, cert, ts) => LayoutServerHello(id, pk, cert, ts);
    case ServerAck(h) => PrintOne([0x05], Prefixed(2), B(h));
    case DataRecord(d, ct) => LayoutPair(f, Num(1), N(d), Prefixed(4), B(ct));
    case Close => NoFields();
  }

  lemma NoFields()
    ensures PrintVals([], []) == []
  {
  }

  /** A body is refused for its type exactly if its first byte is none of the seven. */
  lemma UnknownTypeIff(b: Bytes, t: Byte)
    ensures DecodeBody(b) == Err(UnknownFrameType(t)) <==> b != [] && b[0] == t && !(0x01 <= t <= 0x07)
  {
  }

  // --- The framed stream ---------------------------------------------------

  /** The length comes first, most significant byte first, then the body. */
  lemma FramedLayout(body: Bytes)
    ensures var b, n := EncodeFramed(body), |body|;
            && b[0] == n / 0x100_0000 % 0x100 && b[1] == n / 0x1_0000 % 0x100
            && b[2] == n / 0x100 % 0x100 && b[3] == n % 0x100
            && b[4..] == body
  {
    var n := |body|;
    BigEndianAt(4, n, 0);
    BigEndianAt(4, n, 1);
    BigEndianAt(4, n, 2);
    BigEndianAt(4, n, 3);
    assert Pow256(3) == 0x100_0000 && Pow256(2) == 0x1_0000 && Pow256(1) == 0x100;
  }

  /** A body over the cap is an error that names its size, after all the bodies in
      front of it have come out, whatever follows. */
  lemma OversizedRefused(bodies: seq<Bytes>, big: Bytes, rest: Bytes)
    requires AllWithinCap(bodies) && 0x10_0000 < |big| < 0x1_0000_0000
    ensures ReadAll(Stream(bodies) + (EncodeFramed(big) + rest)) == (bodies, TooLarge(|big|))
  {
    hide ReadAll, Stream;
    TooLargeFirst(big, rest);
    ReadAllOfStream(bodies, EncodeFramed(big) + rest, [], TooLarge(|big|));
    assert bodies + [] == bodies;
  }

  lemma TooLargeFirst(big: Bytes, rest: Bytes)
    requires 0x10_0000 < |big| < 0x1_0000_0000
    ensures ReadAll(EncodeFramed(big) + rest) == ([], TooLarge(|big|))
  {
    Pow256Values();
    FromToBE(4, |big|);
    var s := EncodeFramed(big) + rest;
    assert s[..4] == ToBE(4, |big|);
  }
}
