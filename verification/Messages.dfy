/** ORT frames: the message types of ort-proto, their wire grammar, the
    imperative encoder and decoder, and the laws relating the two. */
module Messages {
  import opened ByteStrings
  import opened Codec

  datatype KemPayload = KemPayload(
    ciphertext: Bytes,
    srcIp: Bytes16,
    tsMillis: U64,
    nonce: Bytes32,
    clientSig: Bytes,
    encData: Bytes)

  datatype Frame =
    | ClientHelloOneRtt(suiteId: U16, clientPk: Bytes)
    | ClientHelloZeroRtt(suiteId: U16, clientPk: Bytes, payload: KemPayload)
    | ClientData(clientPk: Bytes, payload: KemPayload)
    | ServerHello(suiteId: U16, serverPk: Bytes, certificate: Bytes, serverTs: U64)
    | ServerAck(ekHash: Bytes)
    | DataRecord(dir: Byte, ciphertext: Bytes)
    | Close

  // --- Grammar -------------------------------------------------------------

  function Tag(f: Frame): Byte {
    match f
    case ClientHelloOneRtt(_, _) => 0x01
    case ClientHelloZeroRtt(_, _, _) => 0x02
    case ClientData(_, _) => 0x03
    case ServerHello(_, _, _, _) => 0x04
    case ServerAck(_) => 0x05
    case DataRecord(_, _) => 0x06
    case Close => 0x07
  }

  predicate KnownTag(t: Byte) {
    1 <= t <= 7
  }

  const PAYLOAD: seq<Kind> := [Prefixed(2), Raw(16), Num(8), Raw(32), Prefixed(2), Prefixed(4)]

  function Schema(t: Byte): seq<Kind>
    requires KnownTag(t)
  {
    match t
    case 1 => [Num(2), Prefixed(2)]
    case 2 => [Num(2), Prefixed(2)] + PAYLOAD
    case 3 => [Prefixed(2)] + PAYLOAD
    case 4 => [Num(2), Prefixed(2), Prefixed(4), Num(8)]
    case 5 => [Prefixed(2)]
    case 6 => [Num(1), Prefixed(4)]
    case _ => []
  }

  function PayloadVals(p: KemPayload): (vs: seq<Val>)
    ensures MatchAll(PAYLOAD, vs)
  {
    [B(p.ciphertext), B(p.srcIp), N(p.tsMillis), B(p.nonce), B(p.clientSig), B(p.encData)]
  }

  function FrameVals(f: Frame): (vs: seq<Val>)
    ensures MatchAll(Schema(Tag(f)), vs)
  {
    match f
    case ClientHelloOneRtt(id, pk) => [N(id), B(pk)]
    case ClientHelloZeroRtt(id, pk, p) => [N(id), B(pk)] + PayloadVals(p)
    case ClientData(pk, p) => [B(pk)] + PayloadVals(p)
    case ServerHello(id, pk, cert, ts) => [N(id), B(pk), B(cert), N(ts)]
    case ServerAck(h) => [B(h)]
    case DataRecord(d, ct) => [N(d), B(ct)]
    case Close => []
  }

  function PayloadOf(vs: seq<Val>): KemPayload
    requires FitAll(PAYLOAD, vs)
  {
    assert Fits(PAYLOAD[0], vs[0]) && Fits(PAYLOAD[1], vs[1]) && Fits(PAYLOAD[2], vs[2]);
    assert Fits(PAYLOAD[3], vs[3]) && Fits(PAYLOAD[4], vs[4]) && Fits(PAYLOAD[5], vs[5]);
    Pow256Values();
    KemPayload(vs[0].b, vs[1].b, vs[2].n, vs[3].b, vs[4].b, vs[5].b)
  }

  function FrameOf(t: Byte, vs: seq<Val>): Frame
    requires KnownTag(t) && FitAll(Schema(t), vs)
  {
    Pow256Values();
    var ks := Schema(t);
    assert forall i :: 0 <= i < |ks| ==> Fits(ks[i], vs[i]);
    match t
    case 1 =>
      assert Fits(ks[0], vs[0]) && Fits(ks[1], vs[1]);
      ClientHelloOneRtt(vs[0].n, vs[1].b)
    case 2 =>
      assert Fits(ks[0], vs[0]) && Fits(ks[1], vs[1]);
      FitTail(ks, vs, 2);
      assert ks[2..] == PAYLOAD;
      ClientHelloZeroRtt(vs[0].n, vs[1].b, PayloadOf(vs[2..]))
    case 3 =>
      assert Fits(ks[0], vs[0]);
      FitTail(ks, vs, 1);
      assert ks[1..] == PAYLOAD;
      ClientData(vs[0].b, PayloadOf(vs[1..]))
    case 4 =>
      assert Fits(ks[0], vs[0]) && Fits(ks[1], vs[1]) && Fits(ks[2], vs[2]) && Fits(ks[3], vs[3]);
      ServerHello(vs[0].n, vs[1].b, vs[2].b, vs[3].n)
    case 5 =>
      assert Fits(ks[0], vs[0]);
      ServerAck(vs[0].b)
    case 6 =>
      assert Fits(ks[0], vs[0]) && Fits(ks[1], vs[1]);
      DataRecord(vs[0].n, vs[1].b)
    case _ => Close
  }

  lemma FitTail(ks: seq<Kind>, vs: seq<Val>, i: nat)
    requires FitAll(ks, vs) && i <= |ks|
    ensures FitAll(ks[i..], vs[i..])
  {
  }

  /** The bytes `Frame::encode` produces. */
  function EncodeBody(f: Frame): Bytes {
    [Tag(f)] + PrintVals(Schema(Tag(f)), FrameVals(f))
  }

  /** The frame `Frame::decode` accepts, or the error it reports. */
  function DecodeBody(b: Bytes): Result<Frame, ProtoError> {
    if b == [] then Err(Truncated)
    else if !KnownTag(b[0]) then Err(UnknownFrameType(b[0]))
    else
      match ScanVals(Schema(b[0]), b[1..])
      case Short => Err(Truncated)
      case Got(vs, used) =>
        PrintScan(Schema(b[0]), b[1..]);
        if 1 + used < |b| then Err(TrailingBytes(|b| - 1 - used))
        else Ok(FrameOf(b[0], vs))
  }

  /** Every variable-length field fits behind its length prefix. */
  predicate PayloadEncodable(p: KemPayload) {
    |p.ciphertext| < 0x1_0000 && |p.clientSig| < 0x1_0000 && |p.encData| < 0x1_0000_0000
  }

  predicate Encodable(f: Frame) {
    match f
    case ClientHelloOneRtt(_, pk) => |pk| < 0x1_0000
    case ClientHelloZeroRtt(_, pk, p) => |pk| < 0x1_0000 && PayloadEncodable(p)
    case ClientData(pk, p) => |pk| < 0x1_0000 && PayloadEncodable(p)
    case ServerHello(_, pk, cert, _) => |pk| < 0x1_0000 && |cert| < 0x1_0000_0000
    case ServerAck(h) => |h| < 0x1_0000
    case DataRecord(_, ct) => |ct| < 0x1_0000_0000
    case Close => true
  }

  // --- Frames are exactly the lists of fitting values ----------------------

  lemma EncodableFits(f: Frame)
    ensures Encodable(f) <==> FitAll(Schema(Tag(f)), FrameVals(f))
  {
    Pow256Values();
    var ks, vs := Schema(Tag(f)), FrameVals(f);
    if FitAll(ks, vs) {
      assert forall i :: 0 <= i < |ks| ==> Fits(ks[i], vs[i]);
      match f
      case ClientHelloOneRtt(_, _) => assert Fits(ks[1], vs[1]);
      case ClientHelloZeroRtt(_, _, _) =>
        assert Fits(ks[1], vs[1]) && Fits(ks[2], vs[2]) && Fits(ks[6], vs[6]) && Fits(ks[7], vs[7]);
      case ClientData(_, _) =>
        assert Fits(ks[0], vs[0]) && Fits(ks[1], vs[1]) && Fits(ks[5], vs[5]) && Fits(ks[6], vs[6]);
      case ServerHello(_, _, _, _) => assert Fits(ks[1], vs[1]) && Fits(ks[2], vs[2]);
      case ServerAck(_) => assert Fits(ks[0], vs[0]);
      case DataRecord(_, _) => assert Fits(ks[1], vs[1]);
      case Close =>
    }
  }

  lemma FrameOfVals(f: Frame)
    requires FitAll(Schema(Tag(f)), FrameVals(f))
    ensures FrameOf(Tag(f), FrameVals(f)) == f
  {
    match f
    case ClientHelloZeroRtt(_, _, p) => assert FrameVals(f)[2..] == PayloadVals(p);
    case ClientData(_, p) => assert FrameVals(f)[1..] == PayloadVals(p);
    case _ =>
  }

  lemma PayloadValsOf(vs: seq<Val>)
    requires FitAll(PAYLOAD, vs)
    ensures PayloadVals(PayloadOf(vs)) == vs
  {
    assert forall i :: 0 <= i < |PAYLOAD| ==> Fits(PAYLOAD[i], vs[i]);
    assert Fits(PAYLOAD[0], vs[0]) && Fits(PAYLOAD[1], vs[1]) && Fits(PAYLOAD[2], vs[2]);
    assert Fits(PAYLOAD[3], vs[3]) && Fits(PAYLOAD[4], vs[4]) && Fits(PAYLOAD[5], vs[5]);
  }

  lemma ValsOfFrame(t: Byte, vs: seq<Val>)
    requires KnownTag(t) && FitAll(Schema(t), vs)
    ensures Tag(FrameOf(t, vs)) == t && FrameVals(FrameOf(t, vs)) == vs
  {
    hide Pow256, PayloadOf, PayloadVals;
    var ks := Schema(t);
    assert forall i :: 0 <= i < |ks| ==> Fits(ks[i], vs[i]);
    match t
    case 1 => assert Fits(ks[0], vs[0]) && Fits(ks[1], vs[1]);
    case 2 =>
      assert Fits(ks[0], vs[0]) && Fits(ks[1], vs[1]);
      FitTail(ks, vs, 2);
      assert ks[2..] == PAYLOAD;
      PayloadValsOf(vs[2..]);
      assert vs == [vs[0], vs[1]] + vs[2..];
    case 3 =>
      assert Fits(ks[0], vs[0]);
      FitTail(ks, vs, 1);
      assert ks[1..] == PAYLOAD;
      PayloadValsOf(vs[1..]);
      assert vs == [vs[0]] + vs[1..];
    case 4 => assert Fits(ks[0], vs[0]) && Fits(ks[1], vs[1]) && Fits(ks[2], vs[2]) && Fits(ks[3], vs[3]);
    case 5 => assert Fits(ks[0], vs[0]);
    case 6 => assert Fits(ks[0], vs[0]) && Fits(ks[1], vs[1]);
    case _ =>
  }

  // --- Laws of the codec ---------------------------------------------------

  /** Accepted encodings are canonical: a body that decodes is the encoding of
      its frame, and that frame fits the format. */
  lemma Canonical(b: Bytes)
    requires DecodeBody(b).Ok?
    ensures Encodable(DecodeBody(b).value)
    ensures EncodeBody(DecodeBody(b).value) == b
  {
    var ks, t := Schema(b[0]), b[1..];
    PrintScan(ks, t);
    EncodeFrameOf(b[0], ScanVals(ks, t).value);
    assert t[..ScanVals(ks, t).used] == t;
    assert b == [b[0]] + t;
  }

  lemma EncodeFrameOf(t: Byte, vs: seq<Val>)
    requires KnownTag(t) && FitAll(Schema(t), vs)
    ensures Encodable(FrameOf(t, vs))
    ensures EncodeBody(FrameOf(t, vs)) == [t] + PrintVals(Schema(t), vs)
  {
    ValsOfFrame(t, vs);
    EncodableFits(FrameOf(t, vs));
  }

  lemma DecodeScanned(b: Bytes, f: Frame, end: nat)
    requires b != [] && KnownTag(b[0]) && Tag(f) == b[0]
    requires 1 <= end <= |b| && ScanVals(Schema(b[0]), b[1..]) == Got(FrameVals(f), end - 1)
    ensures DecodeBody(b) == if end < |b| then Err(TrailingBytes(|b| - end)) else Ok(f)
  {
    PrintScan(Schema(b[0]), b[1..]);
    FrameOfVals(f);
  }

  lemma DecodePrinted(t: Byte, vs: seq<Val>, rest: Bytes)
    requires KnownTag(t) && FitAll(Schema(t), vs)
    ensures DecodeBody([t] + PrintVals(Schema(t), vs) + rest)
            == if rest == [] then Ok(FrameOf(t, vs)) else Err(TrailingBytes(|rest|))
  {
    hide PrintVals, ScanVals, FrameOf;
    var printed := PrintVals(Schema(t), vs);
    var b := [t] + printed + rest;
    assert b[0] == t && b[1..] == printed + rest;
    ScanPrint(Schema(t), vs, rest);
  }

  lemma DecodeExtended(f: Frame, rest: Bytes)
    requires Encodable(f)
    ensures DecodeBody(EncodeBody(f) + rest) == if rest == [] then Ok(f) else Err(TrailingBytes(|rest|))
  {
    EncodableFits(f);
    DecodePrinted(Tag(f), FrameVals(f), rest);
    FrameOfVals(f);
  }

  /** Decoding undoes encoding exactly on the frames whose fields fit their
      length prefixes. */
  lemma RoundTrip(f: Frame)
    ensures DecodeBody(EncodeBody(f)) == Ok(f) <==> Encodable(f)
  {
    if Encodable(f) {
      DecodeExtended(f, []);
      assert EncodeBody(f) + [] == EncodeBody(f);
    }
    if DecodeBody(EncodeBody(f)) == Ok(f) {
      Canonical(EncodeBody(f));
    }
  }

  /** Every proper prefix of a valid body is reported as truncated. */
  lemma PrefixTruncated(b: Bytes, m: nat)
    requires DecodeBody(b).Ok? && m < |b|
    ensures DecodeBody(b[..m]) == Err(Truncated)
  {
    if m > 0 {
      assert b[..m][1..] == b[1..][..m - 1];
      CutScan(Schema(b[0]), b[1..], m - 1);
    }
  }

  /** Every proper extension of a valid body is reported with its exact excess. */
  lemma ExtensionTrails(b: Bytes, rest: Bytes)
    requires DecodeBody(b).Ok? && rest != []
    ensures DecodeBody(b + rest) == Err(TrailingBytes(|rest|))
  {
    Canonical(b);
    DecodeExtended(DecodeBody(b).value, rest);
  }

  // --- The imperative encoder and decoder ----------------------------------

  method WritePayload(w: Writer, p: KemPayload)
    modifies w
    ensures w.buf == old(w.buf) + PrintVals(PAYLOAD, PayloadVals(p))
  {
    ghost var start, vs := w.buf, PayloadVals(p);
    w.Bytes16(p.ciphertext);
    w.Raw(p.srcIp);
    PrintTwo(start, Prefixed(2), vs[0], Raw(16), vs[1]);
    ghost var mid := w.buf;
    w.U64(p.tsMillis);
    w.Raw(p.nonce);
    PrintTwo(mid, Num(8), vs[2], Raw(32), vs[3]);
    ghost var last := w.buf;
    w.Bytes16(p.clientSig);
    w.Bytes32(p.encData);
    PrintTwo(last, Prefixed(2), vs[4], Prefixed(4), vs[5]);
    PrintPayload(start, p);
    assert vs[..2] == [vs[0], vs[1]] && vs[2..4] == [vs[2], vs[3]] && vs[4..] == [vs[4], vs[5]];
  }

  lemma PrintPayload(start: Bytes, p: KemPayload)
    ensures var vs := PayloadVals(p);
            start + PrintVals([Prefixed(2), Raw(16)], vs[..2]) + PrintVals([Num(8), Raw(32)], vs[2..4])
              + PrintVals([Prefixed(2), Prefixed(4)], vs[4..]) == start + PrintVals(PAYLOAD, vs)
  {
    var vs := PayloadVals(p);
    PrintThen(start, [Prefixed(2), Raw(16)], vs[..2], [Num(8), Raw(32)], vs[2..4]);
    assert [Prefixed(2), Raw(16)] + [Num(8), Raw(32)] == PAYLOAD[..4];
    assert PAYLOAD[..4] + [Prefixed(2), Prefixed(4)] == PAYLOAD;
    PrintThen(start, PAYLOAD[..4], vs[..4], [Prefixed(2), Prefixed(4)], vs[4..]);
    assert vs[..2] + vs[2..4] == vs[..4] && vs[..4] + vs[4..] == vs;
  }

  // How the fields of the longer frames line up behind the tag.

  lemma LayoutPair(f: Frame, k: Kind, v: Val, l: Kind, w: Val)
    requires Schema(Tag(f)) == [k, l] && FrameVals(f) == [v, w]
    ensures Matches(k, v) && Matches(l, w)
    ensures [Tag(f)] + PrintVal(k, v) + PrintVal(l, w) == EncodeBody(f)
  {
    assert Matches(Schema(Tag(f))[0], FrameVals(f)[0]) && Matches(Schema(Tag(f))[1], FrameVals(f)[1]);
    PrintTwo([Tag(f)], k, v, l, w);
  }

  lemma LayoutZeroRtt(id: U16, pk: Bytes, p: KemPayload)
    ensures [0x02] + PrintVal(Num(2), N(id)) + PrintVal(Prefixed(2), B(pk)) + PrintVals(PAYLOAD, PayloadVals(p))
            == EncodeBody(ClientHelloZeroRtt(id, pk, p))
  {
    PrintTwo([0x02], Num(2), N(id), Prefixed(2), B(pk));
    PrintThen([0x02], [Num(2), Prefixed(2)], [N(id), B(pk)], PAYLOAD, PayloadVals(p));
  }

  lemma LayoutClientData(pk: Bytes, p: KemPayload)
    ensures [0x03] + PrintVal(Prefixed(2), B(pk)) + PrintVals(PAYLOAD, PayloadVals(p)) == EncodeBody(ClientData(pk, p))
  {
    PrintOne([0x03], Prefixed(2), B(pk));
    PrintThen([0x03], [Prefixed(2)], [B(pk)], PAYLOAD, PayloadVals(p));
  }

  lemma LayoutServerHello(id: U16, pk: Bytes, cert: Bytes, ts: U64)
    ensures [0x04] + PrintVal(Num(2), N(id)) + PrintVal(Prefixed(2), B(pk))
            + PrintVal(Prefixed(4), B(cert)) + PrintVal(Num(8), N(ts))
            == EncodeBody(ServerHello(id, pk, cert, ts))
  {
    PrintTwo([0x04], Num(2), N(id), Prefixed(2), B(pk));
    PrintTwo([0x04] + PrintVals([Num(2), Prefixed(2)], [N(id), B(pk)]), Prefixed(4), B(cert), Num(8), N(ts));
    PrintThen([0x04], [Num(2), Prefixed(2)], [N(id), B(pk)], [Prefixed(4), Num(8)], [B(cert), N(ts)]);
    assert [Num(2), Prefixed(2)] + [Prefixed(4), Num(8)] == Schema(4);
    assert [N(id), B(pk)] + [B(cert), N(ts)] == FrameVals(ServerHello(id, pk, cert, ts));
  }

  method Encode(f: Frame) returns (b: Bytes)
    ensures b == EncodeBody(f)
  {
    var w := new Writer();
    w.U8(Tag(f));
    assert w.buf == [Tag(f)] by {
      assert ToBE(1, Tag(f)) == ToBE(0, 0) + [Tag(f)];
    }
    match f {
      case ClientHelloOneRtt(id, pk) =>
        w.U16(id);
        w.Bytes16(pk);
        LayoutPair(f, Num(2), N(id), Prefixed(2), B(pk));
      case ClientHelloZeroRtt(id, pk, p) =>
        w.U16(id);
        w.Bytes16(pk);
        WritePayload(w, p);
        LayoutZeroRtt(id, pk, p);
      case ClientData(pk, p) =>
        w.Bytes16(pk);
        WritePayload(w, p);
        LayoutClientData(pk, p);
      case ServerHello(id, pk, cert, ts) =>
        w.U16(id);
        w.Bytes16(pk);
        w.Bytes32(cert);
        w.U64(ts);
        LayoutServerHello(id, pk, cert, ts);
      case ServerAck(h) =>
        w.Bytes16(h);
        PrintOne([0x05], Prefixed(2), B(h));
      case DataRecord(d, ct) =>
        w.U8(d);
        w.Bytes32(ct);
        LayoutPair(f, Num(1), N(d), Prefixed(4), B(ct));
      case Close =>
    }
    b := w.buf;
  }

  /** The payload at a position, field by field. */
  function PayloadAt(buf: Bytes, pos: nat): (r: Scan<KemPayload>)
    requires pos <= |buf|
    ensures r.Got? ==> pos <= r.used <= |buf|
  {
    Pow256Values();
    var ct := ScanAt(Prefixed(2), buf, pos);
    if ct.Short? then Short else
      var ip := ScanAt(Raw(16), buf, ct.used);
      if ip.Short? then Short else
        var ts := ScanAt(Num(8), buf, ip.used);
        if ts.Short? then Short else
          var nonce := ScanAt(Raw(32), buf, ts.used);
          if nonce.Short? then Short else
            var sig := ScanAt(Prefixed(2), buf, nonce.used);
            if sig.Short? then Short else
              var enc := ScanAt(Prefixed(4), buf, sig.used);
              if enc.Short? then Short else
                Got(KemPayload(ct.value.b, ip.value.b, ts.value.n, nonce.value.b, sig.value.b, enc.value.b), enc.used)
  }

  method ReadPayload(r: Reader) returns (res: Result<KemPayload, ProtoError>)
    requires r.Valid()
    modifies r
    ensures r.Valid()
    ensures match PayloadAt(r.buf, old(r.pos))
            case Short => res == Err(Truncated)
            case Got(p, end) => res == Ok(p) && r.pos == end
  {
    hide ScanAt;
    Pow256Values();
    var ciphertext :- r.Block(2);
    var srcIp :- r.Array(16);
    var ts :- r.Number(8);
    var nonce :- r.Array(32);
    var sig :- r.Block(2);
    var enc :- r.Block(4);
    return Ok(KemPayload(ciphertext, srcIp, ts, nonce, sig, enc));
  }

  /** The field-by-field reading of a payload is the scan of its grammar. */
  lemma PayloadAtScan(buf: Bytes, pos: nat)
    requires pos <= |buf|
    ensures match PayloadAt(buf, pos)
            case Short => ScanFrom(PAYLOAD, 0, buf, pos) == Short
            case Got(p, end) => ScanFrom(PAYLOAD, 0, buf, pos) == Got(PayloadVals(p), end)
  {
    hide ScanAt, ScanFrom;
    var front, rest := [Prefixed(2), Raw(16)], [Num(8), Raw(32), Prefixed(2), Prefixed(4)];
    assert PAYLOAD == front + rest;
    ScanThenFrom(front, rest, 0, buf, pos);
    ScanTwo(Prefixed(2), Raw(16), buf, pos);
    var a := ScanFrom(front, 0, buf, pos);
    if a.Got? {
      ScanFour(Num(8), Raw(32), Prefixed(2), Prefixed(4), buf, a.used);
      var b := ScanFrom(rest, 0, buf, a.used);
      if b.Got? {
        assert PayloadVals(PayloadAt(buf, pos).value) == a.value + b.value;
      }
    }
  }

  function ServerHelloAt(buf: Bytes): (r: Scan<Frame>)
    requires buf != []
    ensures r.Got? ==> 1 <= r.used <= |buf| && r.value.ServerHello?
  {
    Pow256Values();
    var id := ScanAt(Num(2), buf, 1);
    if id.Short? then Short else
      var pk := ScanAt(Prefixed(2), buf, id.used);
      if pk.Short? then Short else
        var cert := ScanAt(Prefixed(4), buf, pk.used);
        if cert.Short? then Short else
          var ts := ScanAt(Num(8), buf, cert.used);
          if ts.Short? then Short else Got(ServerHello(id.value.n, pk.value.b, cert.value.b, ts.value.n), ts.used)
  }

  /** The frame at position 1, field by field, for a known tag. */
  function FrameAt(t: Byte, buf: Bytes): (r: Scan<Frame>)
    requires KnownTag(t) && buf != []
    ensures r.Got? ==> 1 <= r.used <= |buf|
  {
    Pow256Values();
    match t
    case 1 =>
      var id := ScanAt(Num(2), buf, 1);
      if id.Short? then Short else
        var pk := ScanAt(Prefixed(2), buf, id.used);
        if pk.Short? then Short else Got(ClientHelloOneRtt(id.value.n, pk.value.b), pk.used)
    case 2 =>
      var id := ScanAt(Num(2), buf, 1);
      if id.Short? then Short else
        var pk := ScanAt(Prefixed(2), buf, id.used);
        if pk.Short? then Short else
          var p := PayloadAt(buf, pk.used);
          if p.Short? then Short else Got(ClientHelloZeroRtt(id.value.n, pk.value.b, p.value), p.used)
    case 3 =>
      var pk := ScanAt(Prefixed(2), buf, 1);
      if pk.Short? then Short else
        var p := PayloadAt(buf, pk.used);
        if p.Short? then Short else Got(ClientData(pk.value.b, p.value), p.used)
    case 4 => ServerHelloAt(buf)
    case 5 =>
      var h := ScanAt(Prefixed(2), buf, 1);
      if h.Short? then Short else Got(ServerAck(h.value.b), h.used)
    case 6 =>
      var d := ScanAt(Num(1), buf, 1);
      if d.Short? then Short else
        var ct := ScanAt(Prefixed(4), buf, d.used);
        if ct.Short? then Short else Got(DataRecord(d.value.n, ct.value.b), ct.used)
    case _ => Got(Close, 1)
  }

  lemma FrameAtScan(t: Byte, buf: Bytes)
    requires KnownTag(t) && buf != []
    ensures FrameAt(t, buf).Got? ==> Tag(FrameAt(t, buf).value) == t
    ensures ScansAs(FrameAt(t, buf), ScanFrom(Schema(t), 0, buf, 1))
  {
    hide ScanAt, PayloadAt, ServerHelloAt;
    match t
    case 1 => ScanTwo(Num(2), Prefixed(2), buf, 1);
    case 2 => ZeroRttScan(buf);
    case 3 => ClientDataScan(buf);
    case 4 => ServerHelloScan(buf);
    case 5 => ScanOne(Prefixed(2), buf, 1);
    case 6 => ScanTwo(Num(1), Prefixed(4), buf, 1);
    case _ =>
  }

  ghost predicate ScansAs(r: Scan<Frame>, q: Scan<seq<Val>>) {
    if r.Short? then q.Short? else q == Got(FrameVals(r.value), r.used)
  }

  lemma ZeroRttScan(buf: Bytes)
    requires buf != []
    ensures FrameAt(2, buf).Got? ==> FrameAt(2, buf).value.ClientHelloZeroRtt?
    ensures ScansAs(FrameAt(2, buf), ScanFrom(Schema(2), 0, buf, 1))
  {
    hide ScanAt, ScanFrom, PayloadAt;
    ScanTwo(Num(2), Prefixed(2), buf, 1);
    ScanThenFrom([Num(2), Prefixed(2)], PAYLOAD, 0, buf, 1);
    var a := ScanFrom([Num(2), Prefixed(2)], 0, buf, 1);
    if a.Got? {
      PayloadAtScan(buf, a.used);
    }
  }

  lemma ClientDataScan(buf: Bytes)
    requires buf != []
    ensures FrameAt(3, buf).Got? ==> FrameAt(3, buf).value.ClientData?
    ensures ScansAs(FrameAt(3, buf), ScanFrom(Schema(3), 0, buf, 1))
  {
    hide ScanAt, ScanFrom, PayloadAt;
    ScanOne(Prefixed(2), buf, 1);
    ScanThenFrom([Prefixed(2)], PAYLOAD, 0, buf, 1);
    var a := ScanFrom([Prefixed(2)], 0, buf, 1);
    if a.Got? {
      PayloadAtScan(buf, a.used);
    }
  }

  lemma ServerHelloScan(buf: Bytes)
    requires buf != []
    ensures ScansAs(ServerHelloAt(buf), ScanFrom(Schema(4), 0, buf, 1))
  {
    hide ScanAt, ScanFrom;
    ScanFour(Num(2), Prefixed(2), Prefixed(4), Num(8), buf, 1);
  }

  /** Decoding by position, as the source does it, agrees with the grammar. */
  lemma DecodeByPosition(b: Bytes)
    ensures DecodeBody(b) ==
      if b == [] then Err(Truncated)
      else if !KnownTag(b[0]) then Err(UnknownFrameType(b[0]))
      else match FrameAt(b[0], b)
           case Short => Err(Truncated)
           case Got(f, end) => if end < |b| then Err(TrailingBytes(|b| - end)) else Ok(f)
  {
    if b != [] && KnownTag(b[0]) {
      var ks := Schema(b[0]);
      FrameAtScan(b[0], b);
      ScanFromSlice(ks, 0, b, 1);
      assert ks[0..] == ks;
      var r := FrameAt(b[0], b);
      if r.Got? {
        DecodeScanned(b, r.value, r.used);
      }
    }
  }

  method Decode(buf: Bytes) returns (res: Result<Frame, ProtoError>)
    ensures res == DecodeBody(buf)
  {
    DecodeByPosition(buf);
    var r := new Reader(buf);
    ScanTag(buf);
    var t :- r.Number(1);
    if !KnownTag(t) {
      return Err(UnknownFrameType(t));
    }
    var f :- ReadBody(r, t);
    var _ :- r.ExpectEnd();
    return Ok(f);
  }

  lemma ScanTag(buf: Bytes)
    ensures ScanAt(Num(1), buf, 0) == if buf == [] then Short else Got(N(buf[0]), 1)
  {
    if buf != [] {
      assert buf[0..1][..0] == [] && FromBE(buf[0..1]) == FromBE(buf[0..1][..0]) * 256 + buf[0];
    }
  }

  method ReadServerHello(r: Reader) returns (res: Result<Frame, ProtoError>)
    requires r.Valid() && r.pos == 1
    modifies r
    ensures r.Valid()
    ensures match ServerHelloAt(r.buf)
            case Short => res == Err(Truncated)
            case Got(f, end) => res == Ok(f) && r.pos == end
  {
    Pow256Values();
    var id :- r.Number(2);
    var pk :- r.Block(2);
    var cert :- r.Block(4);
    var ts :- r.Number(8);
    return Ok(ServerHello(id, pk, cert, ts));
  }

  method ReadBody(r: Reader, t: Byte) returns (res: Result<Frame, ProtoError>)
    requires r.Valid() && r.pos == 1 && KnownTag(t)
    modifies r
    ensures r.Valid()
    ensures match FrameAt(t, r.buf)
            case Short => res == Err(Truncated)
            case Got(f, end) => res == Ok(f) && r.pos == end
  {
    hide ScanAt, PayloadAt, ServerHelloAt;
    Pow256Values();
    match t {
      case 1 =>
        var id :- r.Number(2);
        var pk :- r.Block(2);
        return Ok(ClientHelloOneRtt(id, pk));
      case 2 =>
        var id :- r.Number(2);
        var pk :- r.Block(2);
        var p :- ReadPayload(r);
        return Ok(ClientHelloZeroRtt(id, pk, p));
      case 3 =>
        var pk :- r.Block(2);
        var p :- ReadPayload(r);
        return Ok(ClientData(pk, p));
      case 4 =>
        res := ReadServerHello(r);
      case 5 =>
        var h :- r.Block(2);
        return Ok(ServerAck(h));
      case 6 =>
        var d :- r.Number(1);
        var ct :- r.Block(4);
        return Ok(DataRecord(d, ct));
      case _ =>
        return Ok(Close);
    }
  }
}
