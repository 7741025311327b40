/** The sans-IO handshake: the client's flights, the server's checks and answers,
    and what an honest client and an honest server make of each other. */
module Handshake {
  import opened ByteStrings
  import opened Codec
  import opened Messages
  import opened Framing
  import opened Suites
  import opened Pools
  import opened Records
  import opened Replay
  import opened Binding

  datatype ClientConfig = ClientConfig(sigSecret: Bytes, clientPk: Bytes)

  datatype ServerConfig = ServerConfig(
    kemSecret: Bytes, serverPk: Bytes, certificate: Bytes, windowMs: U64, skewMs: U64)

  // --- Client --------------------------------------------------------------

  datatype ClientFlight = ClientFlight(payload: KemPayload, record: RecordState, expectedHash: Bytes)

  /** The payload shared by both modes. The encapsulation seed `r`, the nonce and
      the clock reading `ts` are the random and timed inputs. */
  function BuildPayload(su: Suite, cfg: ClientConfig, serverPk: Bytes, srcIp: Bytes16,
                        r: Bytes, nonce: Bytes32, ts: U64, early: Bytes): Result<ClientFlight, CoreError>
  {
    match su.kemEncapsulate(serverPk, r)
    case Err(e) => Err(e)
    case Ok((ciphertext, shared)) =>
      var record := InitRecord(DeriveKeys(su, shared, ciphertext), nonce);
      var (sealed, encData) := SealRecord(su, record, ClientToServer, early);
      var msg := BindingMsg(su, ConnMeta(srcIp, ts, nonce), cfg.clientPk, ciphertext, encData);
      var payload := KemPayload(ciphertext, srcIp, ts, nonce, su.sigSign(cfg.sigSecret, msg), encData);
      Ok(ClientFlight(payload, sealed, KeyHash(su, record)))
  }

  function ZeroRttFrame(cfg: ClientConfig, p: KemPayload): Frame {
    ClientHelloZeroRtt(SUITE_CODE, cfg.clientPk, p)
  }

  function OneRttHello(cfg: ClientConfig): Frame {
    ClientHelloOneRtt(SUITE_CODE, cfg.clientPk)
  }

  function OneRttFinish(cfg: ClientConfig, p: KemPayload): Frame {
    ClientData(cfg.clientPk, p)
  }

  // --- Server --------------------------------------------------------------

  datatype Session = Session(record: RecordState, early: Bytes)

  predicate BindingVerifies(su: Suite, clientPk: Bytes, p: KemPayload) {
    su.sigVerify(clientPk, BindingMsg(su, ConnMeta(p.srcIp, p.tsMillis, p.nonce), clientPk, p.ciphertext, p.encData),
                 p.clientSig)
  }

  function TagOf(su: Suite, p: KemPayload): Bytes32 {
    ReplayTag(su, p.nonce, p.encData)
  }

  /** The checks in front of the strike cache. */
  function Screen(su: Suite, cfg: ServerConfig, clientPk: Bytes, p: KemPayload, peerIp: Bytes16,
                  now: U64): Result<(), CoreError>
  {
    if p.srcIp != peerIp then Err(SourceIpMismatch)
    else
      match CheckWindow(now, p.tsMillis, cfg.windowMs, cfg.skewMs)
      case Err(e) => Err(e)
      case Ok(_) => if BindingVerifies(su, clientPk, p) then Ok(()) else Err(BadSignature)
  }

  /** The work behind the strike cache. */
  function Establish(su: Suite, cfg: ServerConfig, p: KemPayload): Result<Session, CoreError> {
    match su.kemDecapsulate(cfg.kemSecret, p.ciphertext)
    case Err(e) => Err(e)
    case Ok(shared) =>
      var record := InitRecord(DeriveKeys(su, shared, p.ciphertext), p.nonce);
      var (state, early) := OpenRecord(su, record, ClientToServer, p.encData);
      if early.None? then Err(AeadFailure) else Ok(Session(state, early.value))
  }

  function ProcessPayload(su: Suite, cfg: ServerConfig, clientPk: Bytes, p: KemPayload, peerIp: Bytes16, now: U64,
                          cache: CacheState)
    : (CacheState, Result<Session, CoreError>)
  {
    match Screen(su, cfg, clientPk, p, peerIp, now)
    case Err(e) => (cache, Err(e))
    case Ok(_) =>
      var (after, answer) := StrikeOnce(cache, TagOf(su, p), now);
      if answer.Err? then (after, Err(answer.error)) else (after, Establish(su, cfg, p))
  }

  datatype ServerStep = ZeroRtt(ack: Frame, session: Session) | OneRtt(hello: Frame)

  function HelloFrame(cfg: ServerConfig, now: U64): Frame {
    ServerHello(SUITE_CODE, cfg.serverPk, cfg.certificate, now)
  }

  function OnFirst(su: Suite, cfg: ServerConfig, frame: Frame, peerIp: Bytes16, now: U64, cache: CacheState)
    : (CacheState, Result<ServerStep, CoreError>)
  {
    match frame
    case ClientHelloOneRtt(id, _) =>
      if id != SUITE_CODE then (cache, Err(UnsupportedSuite(id))) else (cache, Ok(OneRtt(HelloFrame(cfg, now))))
    case ClientHelloZeroRtt(id, clientPk, p) =>
      if id != SUITE_CODE then (cache, Err(UnsupportedSuite(id))) else
        var (after, res) := ProcessPayload(su, cfg, clientPk, p, peerIp, now, cache);
        (after, if res.Err? then Err(res.error) else Ok(ZeroRtt(ServerAck(KeyHash(su, res.value.record)), res.value)))
    case _ => (cache, Err(UnexpectedMessage))
  }

  function OnClientData(su: Suite, cfg: ServerConfig, frame: Frame, peerIp: Bytes16, now: U64, cache: CacheState)
    : (CacheState, Result<Session, CoreError>)
  {
    match frame
    case ClientData(clientPk, p) => ProcessPayload(su, cfg, clientPk, p, peerIp, now, cache)
    case _ => (cache, Err(UnexpectedMessage))
  }

  // --- Completeness --------------------------------------------------------

  ghost predicate HonestKeys(su: Suite, ccfg: ClientConfig, scfg: ServerConfig) {
    && su.Laws()
    && ccfg.clientPk == su.sigPublic(ccfg.sigSecret)
    && scfg.serverPk == su.kemPublic(scfg.kemSecret)
  }

  /** An honest flight always builds; its sizes are those of the suite. */
  lemma HonestBuild(su: Suite, ccfg: ClientConfig, scfg: ServerConfig, srcIp: Bytes16, r: Bytes, nonce: Bytes32,
                    ts: U64, early: Bytes)
    requires HonestKeys(su, ccfg, scfg)
    ensures var b := BuildPayload(su, ccfg, scfg.serverPk, srcIp, r, nonce, ts, early);
            && b.Ok?
            && var p := b.value.payload;
               && |p.ciphertext| == KEM_CT_LEN && |p.clientSig| == SIG_LEN && |p.encData| == |early| + TAG_LEN
               && p.srcIp == srcIp && p.tsMillis == ts && p.nonce == nonce
               && BindingVerifies(su, ccfg.clientPk, p)
  {
    var e := su.kemEncapsulate(su.kemPublic(scfg.kemSecret), r);
    assert e.Ok?;
  }

  /** The server recovers the client's session from an honest payload: same keys,
      same pools, same early data; one record has been counted, client to server. */
  lemma HonestEstablish(su: Suite, ccfg: ClientConfig, scfg: ServerConfig, srcIp: Bytes16, r: Bytes, nonce: Bytes32,
                        ts: U64, early: Bytes)
    requires HonestKeys(su, ccfg, scfg)
    ensures var b := BuildPayload(su, ccfg, scfg.serverPk, srcIp, r, nonce, ts, early);
            && b.Ok?
            && Establish(su, scfg, b.value.payload) == Ok(Session(b.value.record, early))
            && b.value.record.pool.c2s.counter == 1 && b.value.record.pool.s2c.counter == 0
            && b.value.expectedHash == KeyHash(su, b.value.record)
  {
    HonestBuild(su, ccfg, scfg, srcIp, r, nonce, ts, early);
    var e := su.kemEncapsulate(su.kemPublic(scfg.kemSecret), r);
    assert su.kemDecapsulate(scfg.kemSecret, e.value.0) == Ok(e.value.1);
    var record := InitRecord(DeriveKeys(su, e.value.1, e.value.0), nonce);
    var ct := SealRecord(su, record, ClientToServer, early).1;
    assert OpenWith(su, record.keys.encKey, ClientToServer, record.pool.c2s, ct) == Some(early);
  }

  /** The key schedule of the session both ends share: the AEAD key and the pool key
      are expanded from the shared secret under their own labels, salted with the
      hash of the ciphertext on the wire, and each goes where it belongs. */
  lemma HonestKeySchedule(su: Suite, ccfg: ClientConfig, scfg: ServerConfig, srcIp: Bytes16, r: Bytes, nonce: Bytes32,
                          ts: U64, early: Bytes)
    requires HonestKeys(su, ccfg, scfg)
    ensures var b := BuildPayload(su, ccfg, scfg.serverPk, srcIp, r, nonce, ts, early);
            && b.Ok?
            && var shared := su.kemDecapsulate(scfg.kemSecret, b.value.payload.ciphertext);
               && shared.Ok?
               && var salt := su.hash256(b.value.payload.ciphertext);
                  var poolKey := su.hkdf(shared.value, salt, Ascii("ORT-v1 pool-key"), 32);
                  && b.value.expectedHash == su.hash512(su.hkdf(shared.value, salt, Ascii("ORT-v1 enc-key"), 32))
                  && b.value.record.pool.c2s.state.key == poolKey && b.value.record.pool.s2c.state.key == poolKey
  {
    HonestBuild(su, ccfg, scfg, srcIp, r, nonce, ts, early);
    var e := su.kemEncapsulate(su.kemPublic(scfg.kemSecret), r);
    assert su.kemDecapsulate(scfg.kemSecret, e.value.0) == Ok(e.value.1);
  }

  /** What a server answers to an honest payload: exactly the three public
      rejections, or the client's own session. */
  lemma HonestProcess(su: Suite, ccfg: ClientConfig, scfg: ServerConfig, srcIp: Bytes16, r: Bytes, nonce: Bytes32,
                      ts: U64, early: Bytes, peerIp: Bytes16, now: U64, cache: CacheState)
    requires HonestKeys(su, ccfg, scfg)
    ensures var b := BuildPayload(su, ccfg, scfg.serverPk, srcIp, r, nonce, ts, early);
            && b.Ok?
            && ProcessPayload(su, scfg, ccfg.clientPk, b.value.payload, peerIp, now, cache).1 ==
               if srcIp != peerIp then Err(SourceIpMismatch)
               else if CheckWindow(now, ts, scfg.windowMs, scfg.skewMs).Err? then Err(StaleTimestamp)
               else if TagOf(su, b.value.payload) in Evicted(cache, now).entries then Err(Replayed)
               else Ok(Session(b.value.record, early))
  {
    HonestBuild(su, ccfg, scfg, srcIp, r, nonce, ts, early);
    HonestEstablish(su, ccfg, scfg, srcIp, r, nonce, ts, early);
  }

  // --- Sizes ---------------------------------------------------------------

  lemma PayloadSize(p: KemPayload)
    ensures |PrintVals(PAYLOAD, PayloadVals(p))| == 64 + |p.ciphertext| + |p.clientSig| + |p.encData|
  {
    PrintPayload([], p);
    var vs := PayloadVals(p);
    PrintTwo([], Prefixed(2), vs[0], Raw(16), vs[1]);
    PrintTwo([], Num(8), vs[2], Raw(32), vs[3]);
    PrintTwo([], Prefixed(2), vs[4], Prefixed(4), vs[5]);
    assert vs[..2] == [vs[0], vs[1]] && vs[2..4] == [vs[2], vs[3]] && vs[4..] == [vs[4], vs[5]];
  }

  lemma ZeroRttSize(id: U16, pk: Bytes, p: KemPayload)
    ensures |EncodeBody(ClientHelloZeroRtt(id, pk, p))| == 69 + |pk| + |p.ciphertext| + |p.clientSig| + |p.encData|
  {
    PayloadSize(p);
    PrintTwo([], Num(2), N(id), Prefixed(2), B(pk));
    PrintThen([], [Num(2), Prefixed(2)], [N(id), B(pk)], PAYLOAD, PayloadVals(p));
  }

  lemma ClientDataSize(pk: Bytes, p: KemPayload)
    ensures |EncodeBody(ClientData(pk, p))| == 67 + |pk| + |p.ciphertext| + |p.clientSig| + |p.encData|
  {
    PayloadSize(p);
    PrintOne([], Prefixed(2), B(pk));
    PrintThen([], [Prefixed(2)], [B(pk)], PAYLOAD, PayloadVals(p));
  }

  lemma ServerHelloSize(id: U16, pk: Bytes, cert: Bytes, ts: U64)
    ensures |EncodeBody(ServerHello(id, pk, cert, ts))| == 17 + |pk| + |cert|
  {
    PrintTwo([], Num(2), N(id), Prefixed(2), B(pk));
    PrintTwo([], Prefixed(4), B(cert), Num(8), N(ts));
    PrintThen([], [Num(2), Prefixed(2)], [N(id), B(pk)], [Prefixed(4), Num(8)], [B(cert), N(ts)]);
    assert [Num(2), Prefixed(2)] + [Prefixed(4), Num(8)] == Schema(4);
    assert [N(id), B(pk)] + [B(cert), N(ts)] == FrameVals(ServerHello(id, pk, cert, ts));
  }

  lemma DataRecordSize(dir: Byte, ct: Bytes)
    ensures |EncodeBody(DataRecord(dir, ct))| == 6 + |ct|
  {
    PrintTwo([], Num(1), N(dir), Prefixed(4), B(ct));
  }

  const MAX_ZERO_RTT_EARLY: nat := 1042142
  const MAX_ONE_RTT_EARLY: nat := 1042144

  /** An honest 0-RTT flight passes the peer's frame cap exactly up to 1,042,142
      bytes of early data, a 1-RTT data flight up to 1,042,144. */
  lemma FlightSizes(su: Suite, ccfg: ClientConfig, scfg: ServerConfig, srcIp: Bytes16, r: Bytes, nonce: Bytes32,
                    ts: U64, early: Bytes)
    requires HonestKeys(su, ccfg, scfg)
    ensures var b := BuildPayload(su, ccfg, scfg.serverPk, srcIp, r, nonce, ts, early);
            && b.Ok?
            && (|EncodeBody(ZeroRttFrame(ccfg, b.value.payload))| <= MAX_FRAME <==> |early| <= MAX_ZERO_RTT_EARLY)
            && (|EncodeBody(OneRttFinish(ccfg, b.value.payload))| <= MAX_FRAME <==> |early| <= MAX_ONE_RTT_EARLY)
  {
    HonestBuild(su, ccfg, scfg, srcIp, r, nonce, ts, early);
    var p := BuildPayload(su, ccfg, scfg.serverPk, srcIp, r, nonce, ts, early).value.payload;
    ZeroRttSize(SUITE_CODE, ccfg.clientPk, p);
    ClientDataSize(ccfg.clientPk, p);
  }

  // --- Through the wire ----------------------------------------------------

  /** A frame that is written, read back from the stream and decoded. */
  function Transmit(f: Frame): Result<Frame, ProtoError> {
    match NextFrame(EncodeFramed(EncodeBody(f))).0
    case Body(b) => DecodeBody(b)
    case _ => Err(Truncated)
  }

  lemma TransmitIntact(f: Frame)
    requires Encodable(f) && |EncodeBody(f)| <= MAX_FRAME
    ensures Transmit(f) == Ok(f)
  {
    NextOfFramed(EncodeBody(f), []);
    assert EncodeFramed(EncodeBody(f)) + [] == EncodeFramed(EncodeBody(f));
    RoundTrip(f);
  }

  ghost predicate Admissible(su: Suite, scfg: ServerConfig, p: KemPayload, peerIp: Bytes16, now: U64,
                             cache: CacheState)
  {
    && p.srcIp == peerIp
    && CheckWindow(now, p.tsMillis, scfg.windowMs, scfg.skewMs).Ok?
    && TagOf(su, p) !in Evicted(cache, now).entries
  }

  /** 0-RTT completeness: an honest flight within the frame cap crosses the wire
      and establishes, with the early data, the client's record layer, and an
      acknowledgement carrying the hash the client expects. */
  lemma ZeroRttCompletes(su: Suite, ccfg: ClientConfig, scfg: ServerConfig, srcIp: Bytes16, r: Bytes, nonce: Bytes32,
                         ts: U64, early: Bytes, peerIp: Bytes16, now: U64, cache: CacheState)
    requires HonestKeys(su, ccfg, scfg) && |early| <= MAX_ZERO_RTT_EARLY
    ensures var b := BuildPayload(su, ccfg, scfg.serverPk, srcIp, r, nonce, ts, early);
            && b.Ok?
            && (Admissible(su, scfg, b.value.payload, peerIp, now, cache) ==>
                  var f := Transmit(ZeroRttFrame(ccfg, b.value.payload));
                  && f.Ok?
                  && OnFirst(su, scfg, f.value, peerIp, now, cache).1
                     == Ok(ZeroRtt(ServerAck(b.value.expectedHash), Session(b.value.record, early)))
                  && Transmit(ServerAck(b.value.expectedHash)) == Ok(ServerAck(b.value.expectedHash)))
  {
    HonestBuild(su, ccfg, scfg, srcIp, r, nonce, ts, early);
    HonestEstablish(su, ccfg, scfg, srcIp, r, nonce, ts, early);
    HonestProcess(su, ccfg, scfg, srcIp, r, nonce, ts, early, peerIp, now, cache);
    FlightSizes(su, ccfg, scfg, srcIp, r, nonce, ts, early);
    var b := BuildPayload(su, ccfg, scfg.serverPk, srcIp, r, nonce, ts, early).value;
    TransmitIntact(ZeroRttFrame(ccfg, b.payload));
    AckSize(b.expectedHash);
    TransmitIntact(ServerAck(b.expectedHash));
  }

  lemma AckSize(h: Bytes)
    ensures |EncodeBody(ServerAck(h))| == 3 + |h|
  {
    PrintOne([], Prefixed(2), B(h));
  }

  /** 1-RTT completeness: the hello is answered with the server's key, and the
      second flight built against that key establishes the client's session. */
  lemma OneRttCompletes(su: Suite, ccfg: ClientConfig, scfg: ServerConfig, srcIp: Bytes16, r: Bytes, nonce: Bytes32,
                        ts: U64, early: Bytes, peerIp: Bytes16, helloNow: U64, now: U64, cache: CacheState)
    requires HonestKeys(su, ccfg, scfg) && |early| <= MAX_ONE_RTT_EARLY
    requires |scfg.certificate| <= MAX_FRAME - 17 - KEM_EK_LEN
    ensures var h := Transmit(OneRttHello(ccfg));
            && h.Ok?
            && var s := OnFirst(su, scfg, h.value, peerIp, helloNow, cache);
               && s == (cache, Ok(OneRtt(HelloFrame(scfg, helloNow))))
               && Transmit(HelloFrame(scfg, helloNow)) == Ok(HelloFrame(scfg, helloNow))
    ensures var b := BuildPayload(su, ccfg, HelloFrame(scfg, helloNow).serverPk, srcIp, r, nonce, ts, early);
            && b.Ok?
            && (Admissible(su, scfg, b.value.payload, peerIp, now, cache) ==>
                  var f := Transmit(OneRttFinish(ccfg, b.value.payload));
                  f.Ok? && OnClientData(su, scfg, f.value, peerIp, now, cache).1 == Ok(Session(b.value.record, early)))
  {
    HonestBuild(su, ccfg, scfg, srcIp, r, nonce, ts, early);
    HonestProcess(su, ccfg, scfg, srcIp, r, nonce, ts, early, peerIp, now, cache);
    FlightSizes(su, ccfg, scfg, srcIp, r, nonce, ts, early);
    TransmitIntact(OneRttFinish(ccfg, BuildPayload(su, ccfg, scfg.serverPk, srcIp, r, nonce, ts, early).value.payload));
    HelloSize(SUITE_CODE, ccfg.clientPk);
    TransmitIntact(OneRttHello(ccfg));
    ServerHelloSize(SUITE_CODE, scfg.serverPk, scfg.certificate, helloNow);
    TransmitIntact(HelloFrame(scfg, helloNow));
  }

  lemma HelloSize(id: U16, pk: Bytes)
    ensures |EncodeBody(ClientHelloOneRtt(id, pk))| == 5 + |pk|
  {
    PrintTwo([], Num(2), N(id), Prefixed(2), B(pk));
  }
}
