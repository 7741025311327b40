/** The handshake as the endpoints run it: mutable record layers and the shared
    strike cache, proved against the transforms of `Handshake`. */
module Endpoints {
  import opened ByteStrings
  import opened Messages
  import opened Suites
  import opened Pools
  import opened Records
  import opened Replay
  import opened Binding
  import H = Handshake

  datatype ClientEstablished = ClientEstablished(record: RecordLayer, expectedHash: Bytes)

  datatype ServerEstablished = ServerEstablished(record: RecordLayer, early: Bytes)

  datatype ServerReply = ZeroRttReply(ack: Frame, established: ServerEstablished) | OneRttReply(hello: Frame)

  method DeriveSessionKeys(su: Suite, shared: Bytes, ciphertext: Bytes) returns (keys: SessionKeys)
    ensures keys == DeriveKeys(su, shared, ciphertext)
  {
    var salt := su.hash256(ciphertext);
    var encKey := Zeros(32);
    encKey := su.hkdf(shared, salt, INFO_ENC_KEY, |encKey|);
    var poolKey := Zeros(32);
    poolKey := su.hkdf(shared, salt, INFO_POOL_KEY, |poolKey|);
    keys := SessionKeys(encKey, poolKey);
  }

  method BuildPayload(su: Suite, cfg: H.ClientConfig, serverPk: Bytes, srcIp: Bytes16, r: Bytes, nonce: Bytes32,
                      ts: U64, early: Bytes)
    returns (res: Result<(KemPayload, ClientEstablished), CoreError>)
    ensures match H.BuildPayload(su, cfg, serverPk, srcIp, r, nonce, ts, early)
            case Err(e) => res == Err(e)
            case Ok(flight) =>
              && res.Ok?
              && res.value.0 == flight.payload
              && res.value.1.expectedHash == flight.expectedHash
              && res.value.1.record.Valid() && res.value.1.record.Value() == flight.record
  {
    var pair :- su.kemEncapsulate(serverPk, r);
    var (ciphertext, shared) := pair;
    var keys := DeriveSessionKeys(su, shared, ciphertext);
    var record := new RecordLayer(keys, nonce);
    var expectedHash := record.EncKeyHash(su);
    var encData := record.Seal(su, ClientToServer, early);
    var msg := ClientBindingMsg(su, ConnMeta(srcIp, ts, nonce), cfg.clientPk, ciphertext, encData);
    var sig := su.sigSign(cfg.sigSecret, msg);
    var payload := KemPayload(ciphertext, srcIp, ts, nonce, sig, encData);
    return Ok((payload, ClientEstablished(record, expectedHash)));
  }

  method ProcessPayload(su: Suite, cfg: H.ServerConfig, clientPk: Bytes, p: KemPayload, peerIp: Bytes16, now: U64,
                        strike: StrikeCache)
    returns (res: Result<ServerEstablished, CoreError>)
    modifies strike
    ensures var (cache, spec) := H.ProcessPayload(su, cfg, clientPk, p, peerIp, now, old(strike.Value()));
            && strike.Value() == cache
            && match spec
               case Err(e) => res == Err(e)
               case Ok(s) =>
                 && res.Ok? && res.value.early == s.early
                 && res.value.record.Valid() && res.value.record.Value() == s.record
  {
    if p.srcIp != peerIp {
      return Err(SourceIpMismatch);
    }
    var _ :- CheckWindow(now, p.tsMillis, cfg.windowMs, cfg.skewMs);
    var msg := ClientBindingMsg(su, ConnMeta(p.srcIp, p.tsMillis, p.nonce), clientPk, p.ciphertext, p.encData);
    if !su.sigVerify(clientPk, msg, p.clientSig) {
      return Err(BadSignature);
    }
    var tag := ReplayTag(su, p.nonce, p.encData);
    var _ :- strike.CheckAndInsert(tag, now);
    var shared :- su.kemDecapsulate(cfg.kemSecret, p.ciphertext);
    var keys := DeriveSessionKeys(su, shared, p.ciphertext);
    var record := new RecordLayer(keys, p.nonce);
    var early := record.Open(su, ClientToServer, p.encData);
    if early.None? {
      return Err(AeadFailure);
    }
    return Ok(ServerEstablished(record, early.value));
  }

  method ServerOnFirst(su: Suite, cfg: H.ServerConfig, frame: Frame, peerIp: Bytes16, now: U64, strike: StrikeCache)
    returns (res: Result<ServerReply, CoreError>)
    modifies strike
    ensures var (cache, spec) := H.OnFirst(su, cfg, frame, peerIp, now, old(strike.Value()));
            && strike.Value() == cache
            && match spec
               case Err(e) => res == Err(e)
               case Ok(OneRtt(hello)) => res == Ok(OneRttReply(hello))
               case Ok(ZeroRtt(ack, s)) =>
                 && res.Ok? && res.value.ZeroRttReply? && res.value.ack == ack && res.value.established.early == s.early
                 && res.value.established.record.Valid() && res.value.established.record.Value() == s.record
  {
    match frame {
      case ClientHelloOneRtt(id, _) =>
        if id != SUITE_CODE {
          return Err(UnsupportedSuite(id));
        }
        return Ok(OneRttReply(H.HelloFrame(cfg, now)));
      case ClientHelloZeroRtt(id, clientPk, payload) =>
        if id != SUITE_CODE {
          return Err(UnsupportedSuite(id));
        }
        var est :- ProcessPayload(su, cfg, clientPk, payload, peerIp, now, strike);
        var ack := ServerAck(est.record.EncKeyHash(su));
        return Ok(ZeroRttReply(ack, est));
      case _ =>
        return Err(UnexpectedMessage);
    }
  }

  method ServerOnClientData(su: Suite, cfg: H.ServerConfig, frame: Frame, peerIp: Bytes16, now: U64,
                            strike: StrikeCache)
    returns (res: Result<ServerEstablished, CoreError>)
    modifies strike
    ensures var (cache, spec) := H.OnClientData(su, cfg, frame, peerIp, now, old(strike.Value()));
            && strike.Value() == cache
            && match spec
               case Err(e) => res == Err(e)
               case Ok(s) =>
                 && res.Ok? && res.value.early == s.early
                 && res.value.record.Valid() && res.value.record.Value() == s.record
  {
    if frame.ClientData? {
      res := ProcessPayload(su, cfg, frame.clientPk, frame.payload, peerIp, now, strike);
    } else {
      res := Err(UnexpectedMessage);
    }
  }
}
