/** What single steps of the tunnel must answer, over every run: whom a client
    trusts, how a server answers, and what a halted peer looks like. */
module TunnelSteps {
  import opened ByteStrings
  import opened Messages
  import opened Suites
  import opened Records
  import opened Replay
  import opened Handshake
  import opened Flows
  import opened Tunnel
  import opened TunnelSafety

  // --- The client's check of the server's hello ----------------------------

  /** A client opens in 0-RTT, with a flight against the cached key, exactly if it has
      one and 1-RTT is not forced; otherwise it writes its hello for suite 0x0001. */
  lemma OpeningMode(x: Setup, st: State, draw: Fresh)
    requires st.client.CStart? && st.clientErr.None?
    ensures var n := Next(x, st, ClientOpen(draw));
            if x.cached.None? || x.force1rtt then
              n == st.(client := CAwaitHello,
                       c2s := st.c2s.(queue := st.c2s.queue + [EncodeBody(ClientHelloOneRtt(0x0001, x.ccfg.clientPk))]))
            else
              match BuildPayload(x.su, x.ccfg, x.cached.value, x.srcIp, draw.r, draw.nonce, draw.ts, x.early)
              case Ok(flight) => n == st.(client := CReady(flight, draw, true))
              case Err(e) => n == st.(client := CRejected, clientErr := Some(Core(e)))
  {
    hide EncodeBody, BuildPayload;
  }

  /** The verdict of a waiting client on whatever body comes back: a flight is built
      exactly on a hello whose key and certificate verify and do not contradict the
      cached key, and against that key; every other body is refused with its own
      error. */
  lemma HelloVerdict(x: Setup, st: State, draw: Fresh)
    requires st.client.CAwaitHello? && st.clientErr.None? && st.s2c.queue != []
    ensures var n, parsed := Next(x, st, ClientFinish(draw)), Parse(st.s2c.queue[0]);
            && n.s2c.queue == st.s2c.queue[1..] && n.c2s == st.c2s && n.server == st.server
            && (parsed.Err? ==> n.client == CRejected && n.clientErr == Some(parsed.error))
            && (parsed.Ok? && !parsed.value.ServerHello? ==> n.client == CRejected && n.clientErr == Some(Unexpected))
            && (parsed.Ok? && parsed.value.ServerHello? ==>
                  var pk := parsed.value.serverPk;
                  if !x.verifies(pk, parsed.value.certificate) then n.client == CRejected && n.clientErr == Some(Cert)
                  else if x.cached.Some? && x.cached.value != pk then
                    n.client == CRejected && n.clientErr == Some(PinMismatch)
                  else
                    match BuildPayload(x.su, x.ccfg, pk, x.srcIp, draw.r, draw.nonce, draw.ts, x.early)
                    case Ok(flight) => n.client == CReady(flight, draw, false) && n.clientErr.None?
                    case Err(e) => n.client == CRejected && n.clientErr == Some(Core(e)))
  {
    hide Parse, BuildPayload;
  }

  /** The client holds or has written a flight. */
  predicate Committed(st: State) {
    st.client.CReady? || st.client.COpen?
  }

  lemma CommittedStep(x: Setup, st: State, e: Event)
    requires !e.ClientFinish? && !e.ClientOpen? && Committed(Next(x, st, e))
    ensures Committed(st)
  {
    hide Parse, TakeFrame, OpenRecord, SealRecord, OnFirst, OnClientData, EncodeBody;
  }

  lemma FinishVerifies(x: Setup, st: State, draw: Fresh)
    requires Honest(x) && Inv(x, st) && st.client.CAwaitHello? && st.clientErr.None?
    requires Next(x, st, ClientFinish(draw)).client.CReady?
    ensures x.verifies(x.scfg.serverPk, x.scfg.certificate)
  {
    hide Duplex, EncodeBody, Parse, BuildPayload;
    if st.s2c.queue != [] {
      assert HelloQueued(x, st.s2c.queue);
      var now: U64 :| st.s2c.queue[0] == EncodeBody(HelloFrame(x.scfg, now));
      ParseHello(x, now);
    }
  }

  /** Over every run: a 1-RTT client that has a flight, or forwards, has verified the
      server's key and certificate. */
  lemma {:induction false} OneRttIsVerified(x: Setup, events: seq<Event>)
    requires Honest(x) && !ZeroRttMode(x) && Committed(Execute(x, events))
    ensures x.verifies(x.scfg.serverPk, x.scfg.certificate)
  {
    hide Inv, Next, Honest;
    if events != [] {
      var front, e := events[..|events| - 1], events[|events| - 1];
      var st := Execute(x, front);
      RunKeeps(x, front);
      if Committed(st) {
        OneRttIsVerified(x, front);
      } else {
        NewlyCommitted(x, st, e);
        FinishVerifies(x, st, e.draw);
      }
    }
  }

  lemma NewlyCommitted(x: Setup, st: State, e: Event)
    requires !ZeroRttMode(x) && !Committed(st) && Committed(Next(x, st, e))
    ensures e.ClientFinish? && st.client.CAwaitHello? && st.clientErr.None?
    ensures Next(x, st, e).client.CReady?
  {
    hide Parse, BuildPayload, EncodeBody;
    if !e.ClientFinish? && !e.ClientOpen? {
      CommittedStep(x, st, e);
    }
  }

  // --- The server's answer -------------------------------------------------

  /** Over every run: the server answers an honest flight that it has read with the
      first refusal that applies, or with the client's session, and in 0-RTT with an
      acknowledgement of the client's key. */
  lemma ServerAnswers(x: Setup, events: seq<Event>, now: U64, cache: CacheState)
    requires Honest(x)
    requires var st := Execute(x, events);
             st.client.COpen? && st.serverErr.None? && (st.server.SFirst? || st.server.SSecond?)
    ensures var st := Execute(x, events);
            && st.drawn.Some?
            && var n, fl := Next(x, st, ServerProcess(now, cache)), Sent(x, st.drawn.value);
               if x.srcIp != x.peerIp then n.server == SRejected && n.serverErr == Some(Core(SourceIpMismatch))
               else if CheckWindow(now, st.drawn.value.ts, x.scfg.windowMs, x.scfg.skewMs).Err? then
                 n.server == SRejected && n.serverErr == Some(Core(StaleTimestamp))
               else if TagOf(x.su, fl.payload) in Evicted(cache, now).entries then
                 n.server == SRejected && n.serverErr == Some(Core(Replayed))
               else
                 && n.serverErr.None?
                 && n.server == if st.server.SFirst? then SAcking(ServerAck(fl.expectedHash), fl.record, x.early)
                                else SFlush(fl.record, x.early)
  {
    hide Duplex, EncodeBody, ProcessPayload, BuildPayload, Execute;
    RunKeeps(x, events);
    var draw := Execute(x, events).drawn.value;
    SentFacts(x, draw);
    HonestBuild(x.su, x.ccfg, x.scfg, x.srcIp, draw.r, draw.nonce, draw.ts, x.early);
    HonestProcess(x.su, x.ccfg, x.scfg, x.srcIp, draw.r, draw.nonce, draw.ts, x.early, x.peerIp, now, cache);
  }

  // --- Bodies and records that are refused ---------------------------------

  /** Whatever lies on the wire: a server that reads a body it cannot decode stops with
      that error, and so does a receiving loop with a body it refuses. */
  lemma RefusedBody(x: Setup, st: State, role: Role)
    requires ErrOf(st, role).None?
    ensures var q := st.c2s.queue;
            role.Server? && (st.server.SStart? || st.server.SAwaitData?) && q != [] && Parse(q[0]).Err? ==>
              Next(x, st, ServerRead).server == SRejected
              && Next(x, st, ServerRead).serverErr == Some(Parse(q[0]).error)
    ensures var q := PipeOf(st, role.RecvDir()).queue;
            Forwarding(st, role) && q != [] ==>
              var side := SideOf(st, role);
              (side.down.AwaitAck? || side.down.Draining?) && TakeFrame(side.down, q[0]).Err? ==>
                ErrOf(Next(x, st, DownRead(role)), role) == Some(TakeFrame(side.down, q[0]).error)
  {
    hide Parse, TakeFrame;
  }

  /** A record that opens goes to the plain sink, one that does not stops the end; the
      counter of the direction advances either way. */
  lemma RefusedRecord(x: Setup, st: State, role: Role)
    requires Live(st, role) && SideOf(st, role).down.Opening?
    ensures && Forwarding(Next(x, st, DownOpen(role)), role)
            && var d, side, n := role.RecvDir(), SideOf(st, role), Next(x, st, DownOpen(role));
               var plain := x.su.aeadOpen(side.record.keys.encKey, Nonce(x.su, side.record.pool.Dir(d)),
                                          Aad(d, side.record.pool.Dir(d).counter), side.down.ct);
               && (plain.None? ==> ErrOf(n, role) == Some(InvalidRecord))
               && (plain.Some? ==> ErrOf(n, role).None? && SideOf(n, role).down == Sinking(plain.value))
               && SideOf(n, role).record.pool.Dir(d).counter == (side.record.pool.Dir(d).counter + 1) % TWO_64
  {
    hide Nonce, Aad;
  }

  // --- A halted peer -------------------------------------------------------

  /** An I/O failure halts an end for good. */
  lemma HaltedStays(x: Setup, st: State, role: Role, e: Event)
    requires ErrOf(st, role).Some?
    ensures ErrOf(Next(x, st, e), role) == ErrOf(st, role)
    ensures Next(x, st, IoFailure(role.Peer())) ==
            if ErrOf(st, role.Peer()).None? then Fail(st, role.Peer(), Io) else st
  {
    hide Parse, TakeFrame, OpenRecord, SealRecord, OnFirst, OnClientData, EncodeBody, BuildPayload;
  }

  /** Once its peer has halted and the wire is empty, an end that waits reads the end
      of the stream: an early close during the handshake, a quiet end afterwards. */
  lemma PeerGone(x: Setup, st: State, role: Role)
    requires ErrOf(st, role.Peer()).Some? && ErrOf(st, role).None? && PipeOf(st, role.RecvDir()).queue == []
    ensures role.Client? && st.client.CAwaitHello? ==>
              forall draw :: Next(x, st, ClientFinish(draw)) == st.(client := CRejected, clientErr := Some(EarlyClose))
    ensures role.Server? && (st.server.SStart? || st.server.SAwaitData?) ==>
              Next(x, st, ServerRead) == st.(server := SRejected, serverErr := Some(EarlyClose))
    ensures Forwarding(st, role) && (SideOf(st, role).down.AwaitAck? || SideOf(st, role).down.Draining?) ==>
              Next(x, st, DownRead(role)) ==
              Update(st, role, SideOf(st, role).(down := DownEof), role.RecvDir(), PipeOf(st, role.RecvDir()))
  {
    hide Parse, TakeFrame, EncodeBody, BuildPayload;
  }
}
