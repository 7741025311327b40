/** The handshake in terms of its primitives: what a flight is made of, what a
    server derives and opens, whose signature it asked for, and what it refuses. */
module Primitives {
  import opened ByteStrings
  import opened Messages
  import opened Suites
  import opened Pools
  import opened Records
  import opened Replay
  import opened Binding
  import opened Handshake
  import opened ServerRuns
  import opened Resubmission

  // --- The first record of a session ---------------------------------------

  /** The two keys expanded from a shared secret and the ciphertext that carried it. */
  function EncKey(su: Suite, shared: Bytes, ciphertext: Bytes): Bytes {
    su.hkdf(shared, su.hash256(ciphertext), Ascii("ORT-v1 enc-key"), 32)
  }

  function PoolKey(su: Suite, shared: Bytes, ciphertext: Bytes): Bytes {
    su.hkdf(shared, su.hash256(ciphertext), Ascii("ORT-v1 pool-key"), 32)
  }

  function FirstHashed(nonce: Bytes): Bytes {
    Ascii("ORT-v1 pool c2s") + nonce + ToBE(8, 0)
  }

  function FirstAad(): Bytes {
    Ascii("ORT-v1 rec") + [0] + ToBE(8, 0)
  }

  /** The message a client signs. */
  function Signed(su: Suite, clientPk: Bytes, p: KemPayload): Bytes {
    Ascii("ORT-v1 connmeta") + p.srcIp + ToBE(8, p.tsMillis) + p.nonce + clientPk
    + su.hash256(p.ciphertext) + su.hash256(p.encData)
  }

  lemma SignedIsBinding(su: Suite, clientPk: Bytes, p: KemPayload)
    ensures BindingMsg(su, ConnMeta(p.srcIp, p.tsMillis, p.nonce), clientPk, p.ciphertext, p.encData)
            == Signed(su, clientPk, p)
  {
  }

  lemma FirstInputC2S(keys: SessionKeys, nonce: Bytes)
    ensures InitRecord(keys, nonce).pool.c2s.NonceInput() == FirstHashed(nonce)
    ensures InitRecord(keys, nonce).pool.c2s.state.key == keys.poolKey
    ensures Aad(ClientToServer, InitRecord(keys, nonce).pool.c2s.counter) == FirstAad()
  {
    assert [] + Ascii("ORT-v1 pool c2s") == Ascii("ORT-v1 pool c2s");
  }

  // --- The client's flight -------------------------------------------------

  /** A flight is built if and only if encapsulation with the fresh seed succeeds. Its
      ciphertext is the encapsulation, both keys are expanded from the encapsulated
      secret, the early data is the first record under them, and the client signs
      what `Signed` writes out. */
  lemma FlightFromSeed(su: Suite, cfg: ClientConfig, serverPk: Bytes, srcIp: Bytes16, r: Bytes, nonce: Bytes32, ts: U64,
                       early: Bytes)
    ensures var e := su.kemEncapsulate(serverPk, r);
            var b := BuildPayload(su, cfg, serverPk, srcIp, r, nonce, ts, early);
            && (b.Ok? <==> e.Ok?) && (b.Err? ==> b.error == e.error)
            && (e.Ok? ==>
                  var (ciphertext, shared) := e.value;
                  var encKey, poolKey := EncKey(su, shared, ciphertext), PoolKey(su, shared, ciphertext);
                  var p, record := b.value.payload, b.value.record;
                  && p.ciphertext == ciphertext && p.srcIp == srcIp && p.tsMillis == ts && p.nonce == nonce
                  && p.encData == su.aeadSeal(encKey, su.xof(poolKey, FirstHashed(nonce)), FirstAad(), early)
                  && p.clientSig == su.sigSign(cfg.sigSecret, Signed(su, cfg.clientPk, p))
                  && b.value.expectedHash == su.hash512(encKey)
                  && record.keys == SessionKeys(encKey, poolKey)
                  && record.pool.c2s.state.key == poolKey && record.pool.s2c.state.key == poolKey)
  {
    hide Aad, BindingMsg, Signed;
    var e := su.kemEncapsulate(serverPk, r);
    if e.Ok? {
      var (ciphertext, shared) := e.value;
      var p := BuildPayload(su, cfg, serverPk, srcIp, r, nonce, ts, early).value.payload;
      FirstInputC2S(DeriveKeys(su, shared, ciphertext), nonce);
      SignedIsBinding(su, cfg.clientPk, p);
    }
  }

  // --- The server's session ------------------------------------------------

  /** What the server opens: the first record under the keys of the decapsulated secret. */
  function OpenedEarly(su: Suite, p: KemPayload, shared: Bytes): Option<Bytes> {
    su.aeadOpen(EncKey(su, shared, p.ciphertext),
                su.xof(PoolKey(su, shared, p.ciphertext), FirstHashed(p.nonce)), FirstAad(), p.encData)
  }

  /** A session stands if and only if the ciphertext decapsulates and the sealed data
      opens; a failed decapsulation is reported as it is, a failed open as such, and
      the session has the keys of the decapsulated secret. */
  lemma EstablishIff(su: Suite, cfg: ServerConfig, p: KemPayload)
    ensures var shared, est := su.kemDecapsulate(cfg.kemSecret, p.ciphertext), Establish(su, cfg, p);
            && (est.Ok? <==> shared.Ok? && OpenedEarly(su, p, shared.value).Some?)
            && (shared.Err? ==> est == Err(shared.error))
            && (shared.Ok? && OpenedEarly(su, p, shared.value).None? ==> est == Err(AeadFailure))
            && (est.Ok? ==>
                  && est.value.early == OpenedEarly(su, p, shared.value).value
                  && est.value.record.keys == SessionKeys(EncKey(su, shared.value, p.ciphertext),
                                                          PoolKey(su, shared.value, p.ciphertext)))
  {
    hide Aad;
    var shared := su.kemDecapsulate(cfg.kemSecret, p.ciphertext);
    if shared.Ok? {
      FirstInputC2S(DeriveKeys(su, shared.value, p.ciphertext), p.nonce);
    }
  }

  // --- Refusals ------------------------------------------------------------

  /** No arrival is accepted without a signature, under the key it names, over its own
      address, timestamp, nonce, key and hashes. */
  lemma AcceptedIsSigned(su: Suite, cfg: ServerConfig, cache: CacheState, a: Arrival)
    requires Accepts(su, cfg, cache, a)
    ensures var o := Offered(a);
            o.Offer? && su.sigVerify(o.clientPk, Signed(su, o.clientPk, o.payload), o.payload.clientSig)
  {
    hide BindingMsg, Signed;
    SignedIsBinding(su, Offered(a).clientPk, Offered(a).payload);
  }

  /** Over any run: every session was established from a payload that its client key
      signed, came from the address it names, and decapsulated and opened. */
  lemma SessionsAreSigned(su: Suite, cfg: ServerConfig, arrivals: seq<Arrival>, i: nat, session: Session)
    requires i < |arrivals| && Gives(su, cfg, arrivals, i, session)
    ensures var o := Offered(arrivals[i]);
            && o.Offer? && o.payload.srcIp == arrivals[i].peerIp
            && su.sigVerify(o.clientPk, Signed(su, o.clientPk, o.payload), o.payload.clientSig)
            && var shared := su.kemDecapsulate(cfg.kemSecret, o.payload.ciphertext);
               shared.Ok? && OpenedEarly(su, o.payload, shared.value) == Some(session.early)
  {
    hide Establish, Signed, OpenedEarly;
    var cache := ServerRun(su, cfg, arrivals[..i]);
    Gate(su, cfg, cache, arrivals[i]);
    AcceptedIsSigned(su, cfg, cache, arrivals[i]);
    EstablishIff(su, cfg, Offered(arrivals[i]).payload);
  }

  /** The whole answer to a payload: the three refusals in front of the cache, in
      their order, leave it as it is; a tag that is present only evicts; an absent one
      is recorded, whatever becomes of the session. */
  lemma Refusals(su: Suite, cfg: ServerConfig, cache: CacheState, a: Arrival)
    requires Offered(a).Offer?
    ensures var Offer(pk, p) := Offered(a);
            var (after, out) := Handle(su, cfg, cache, a);
            if p.srcIp != a.peerIp then (after, out) == (cache, Rejected(SourceIpMismatch))
            else if a.now + cfg.skewMs < p.tsMillis || p.tsMillis + cfg.windowMs < a.now then
              (after, out) == (cache, Rejected(StaleTimestamp))
            else if !su.sigVerify(pk, Signed(su, pk, p), p.clientSig) then
              (after, out) == (cache, Rejected(BadSignature))
            else if TagOf(su, p) in Evicted(cache, a.now).entries then
              (after, out) == (Evicted(cache, a.now), Rejected(Replayed))
            else
              && after == StrikeOnce(cache, TagOf(su, p), a.now).0
              && after.entries == Evicted(cache, a.now).entries[TagOf(su, p) := a.now]
              && out == match Establish(su, cfg, p)
                        case Ok(session) => Established(session)
                        case Err(e) => Rejected(e)
  {
    hide BindingMsg, Signed, Establish;
    var Offer(pk, p) := Offered(a);
    SignedIsBinding(su, pk, p);
    WindowIsInterval(a.now, p.tsMillis, cfg.windowMs, cfg.skewMs);
  }

  /** A passed strike check never leaves the cache as it was. */
  lemma StrikeMoves(c: CacheState, tag: Bytes32, now: U64)
    requires StrikeOnce(c, tag, now).1.Ok?
    ensures StrikeOnce(c, tag, now).0.entries != c.entries
  {
    assert tag in StrikeOnce(c, tag, now).0.entries && StrikeOnce(c, tag, now).0.entries[tag] == now;
    if tag in c.entries {
      assert c.entries[tag] < SaturatingSub(now, c.window);
    }
  }

  /** The answer is a bad signature, with the cache as it was, if and only if address
      and window pass and the signature over the payload's own fields does not
      verify. */
  lemma BadSignatureIff(su: Suite, cfg: ServerConfig, cache: CacheState, a: Arrival)
    requires Offered(a).Offer?
    ensures var Offer(pk, p) := Offered(a);
            Handle(su, cfg, cache, a) == (cache, Rejected(BadSignature))
            <==> && p.srcIp == a.peerIp && p.tsMillis <= a.now + cfg.skewMs && a.now <= p.tsMillis + cfg.windowMs
                 && !su.sigVerify(pk, Signed(su, pk, p), p.clientSig)
  {
    hide Signed, Establish, Handle;
    var p := Offered(a).payload;
    Refusals(su, cfg, cache, a);
    if StrikeOnce(cache, TagOf(su, p), a.now).1.Ok? {
      StrikeMoves(cache, TagOf(su, p), a.now);
    }
  }

  /** A first frame that carries no payload for this suite: a hello for suite 0x0001
      is answered with that suite, the server's key and certificate and the clock
      reading; other suites and other frames are refused; the cache never moves. */
  lemma FirstFrameAnswer(su: Suite, cfg: ServerConfig, frame: Frame, peerIp: Bytes16, now: U64, cache: CacheState)
    requires frame.ClientHelloZeroRtt? ==> frame.suiteId != 0x0001
    ensures OnFirst(su, cfg, frame, peerIp, now, cache) ==
            (cache,
             match frame
             case ClientHelloOneRtt(id, _) =>
               if id == 0x0001 then Ok(OneRtt(ServerHello(0x0001, cfg.serverPk, cfg.certificate, now)))
               else Err(UnsupportedSuite(id))
             case ClientHelloZeroRtt(id, _, _) => Err(UnsupportedSuite(id))
             case _ => Err(UnexpectedMessage))
  {
  }

  lemma SecondFrameRefused(su: Suite, cfg: ServerConfig, frame: Frame, peerIp: Bytes16, now: U64, cache: CacheState)
    requires !frame.ClientData?
    ensures OnClientData(su, cfg, frame, peerIp, now, cache) == (cache, Err(UnexpectedMessage))
  {
  }

  /** Every acknowledgement of a 0-RTT flight carries the hash of the key that the
      server derived from the decapsulated secret. */
  lemma AckConfirmsKey(su: Suite, cfg: ServerConfig, frame: Frame, peerIp: Bytes16, now: U64, cache: CacheState)
    requires var r := OnFirst(su, cfg, frame, peerIp, now, cache).1; r.Ok? && r.value.ZeroRtt?
    ensures && frame.ClientHelloZeroRtt?
            && var shared := su.kemDecapsulate(cfg.kemSecret, frame.payload.ciphertext);
               && shared.Ok?
               && OnFirst(su, cfg, frame, peerIp, now, cache).1.value.ack
                  == ServerAck(su.hash512(EncKey(su, shared.value, frame.payload.ciphertext)))
  {
    hide EncKey;
    EstablishIff(su, cfg, frame.payload);
  }

  // --- Turned down for the same nonce and data -----------------------------

  /** The strings that two payloads are tagged by do not collide under the hash. */
  predicate NoCollision(su: Suite, p: KemPayload, q: KemPayload) {
    su.hash256(p.nonce + p.encData) == su.hash256(q.nonce + q.encData) ==> p.nonce + p.encData == q.nonce + q.encData
  }

  lemma SameTagIff(su: Suite, p: KemPayload, q: KemPayload)
    requires NoCollision(su, p, q)
    ensures TagOf(su, p) == TagOf(su, q) <==> p.nonce == q.nonce && p.encData == q.encData
  {
    TagIff(su, p.nonce, p.encData, q.nonce, q.encData);
  }

  /** Arrival `i` was accepted with this nonce and sealed data no longer than one
      window before `now`. */
  predicate SpentBy(su: Suite, cfg: ServerConfig, arrivals: seq<Arrival>, i: nat, p: KemPayload, now: U64) {
    && i < |arrivals| && AcceptedAt(su, cfg, arrivals, i) && now <= arrivals[i].now + cfg.windowMs
    && Offered(arrivals[i]).payload.nonce == p.nonce && Offered(arrivals[i]).payload.encData == p.encData
  }

  /** Unless their strings collide under the hash, an honest flight inside its window
      is turned down if and only if, no longer than one window ago, an arrival with
      the same nonce and the same sealed data was accepted; flights of other clients
      never stand in its way. */
  lemma HonestTurnedDownIff(su: Suite, ccfg: ClientConfig, scfg: ServerConfig, srcIp: Bytes16, r: Bytes, nonce: Bytes32,
                            ts: U64, early: Bytes, front: seq<Arrival>, entry: Entry, now: U64)
    requires HonestKeys(su, ccfg, scfg) && CheckWindow(now, ts, scfg.windowMs, scfg.skewMs).Ok?
    requires InClockOrder(front) && forall i :: 0 <= i < |front| ==> front[i].now <= now
    requires var b := BuildPayload(su, ccfg, scfg.serverPk, srcIp, r, nonce, ts, early);
             b.Ok? ==> forall i :: 0 <= i < |front| && Offered(front[i]).Offer? ==>
               NoCollision(su, Offered(front[i]).payload, b.value.payload)
    ensures var b := BuildPayload(su, ccfg, scfg.serverPk, srcIp, r, nonce, ts, early);
            && b.Ok?
            && Handle(su, scfg, ServerRun(su, scfg, front), HonestArrival(ccfg, b.value.payload, entry, now)).1 ==
               if exists i :: SpentBy(su, scfg, front, i, b.value.payload, now) then Rejected(Replayed)
               else Established(Session(b.value.record, early))
  {
    hide BuildPayload, Handle, HonestArrival, ServerRun, NoCollision;
    HonestReplayedIff(su, ccfg, scfg, srcIp, r, nonce, ts, early, front, entry, now);
    var p := BuildPayload(su, ccfg, scfg.serverPk, srcIp, r, nonce, ts, early).value.payload;
    forall i: nat
      ensures TakenBy(su, scfg, front, i, TagOf(su, p), now) <==> SpentBy(su, scfg, front, i, p, now)
    {
      if i < |front| && AcceptedAt(su, scfg, front, i) {
        SameTagIff(su, Offered(front[i]).payload, p);
      }
    }
  }
}
