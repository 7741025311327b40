/** From queues of bodies to bytes: in every reachable state both queues are what
    reading the length-prefixed byte stream gives back. */
module TunnelWire {
  import opened ByteStrings
  import opened Messages
  import opened Framing
  import opened Suites
  import opened Pools
  import opened Records
  import opened Handshake
  import opened Flows
  import opened Tunnel
  import opened TunnelSafety

  predicate HeldSmall(up: Up) {
    up.Holding? ==> |up.ct| <= CHUNK + TAG_LEN
  }

  predicate Capped(st: State) {
    && AllWithinCap(st.c2s.queue) && AllWithinCap(st.s2c.queue)
    && (st.client.COpen? ==> HeldSmall(st.client.side.up))
    && (st.server.SOpen? ==> HeldSmall(st.server.side.up))
  }

  lemma EnqueueCapped(p: Pipe, f: Frame)
    requires AllWithinCap(p.queue) && |EncodeBody(f)| <= MAX_FRAME
    ensures AllWithinCap(Enqueue(p, f).queue)
  {
  }

  lemma ClientOpenCapped(x: Setup, st: State, draw: Fresh)
    requires Honest(x) && Capped(st) && st.client.CStart?
    ensures Capped(DoClientOpen(x, st, draw))
  {
    hide EncodeBody;
    SentFacts(x, draw);
    HelloSize(SUITE_CODE, x.ccfg.clientPk);
    EnqueueCapped(st.c2s, OneRttHello(x.ccfg));
  }

  lemma ClientSendCapped(x: Setup, st: State)
    requires Honest(x) && Inv(x, st) && Capped(st) && st.client.CReady?
    ensures Capped(DoClientSend(x, st))
  {
    hide EncodeBody, Parse;
    SentFrames(x, st.client.draw);
    EnqueueCapped(st.c2s, FlightFrame(x, Sent(x, st.client.draw).payload, st.client.zeroRtt));
  }

  lemma ServerSendCapped(x: Setup, st: State)
    requires Honest(x) && Inv(x, st) && Capped(st) && (st.server.SGreeting? || st.server.SAcking?)
    ensures Capped(DoServerSend(st))
  {
    hide EncodeBody, Duplex;
    if st.server.SGreeting? {
      var now: U64 :| st.server.hello == HelloFrame(x.scfg, now);
      ServerHelloSize(SUITE_CODE, x.scfg.serverPk, x.scfg.certificate, now);
      EnqueueCapped(st.s2c, st.server.hello);
    } else {
      AckSize(KeyHash(x.su, st.client.side.record));
      EnqueueCapped(st.s2c, st.server.ack);
    }
  }

  /** Handshake steps that write nothing. */
  lemma HandshakeCapped(x: Setup, st: State, e: Event)
    requires Capped(st) && (e.ClientFinish? || e.ServerRead? || e.ServerProcess? || e.ServerFlush?)
    ensures Capped(Next(x, st, e))
  {
    hide EncodeBody, Parse, ProcessPayload, BuildPayload;
  }

  /** Steps of the forwarding loops that write a frame. */
  lemma WriteCapped(x: Setup, st: State, e: Event, role: Role)
    requires Capped(st) && Live(st, role) && (e == UpWrite(role) || e == UpClose(role))
    ensures Capped(Next(x, st, e))
  {
    hide EncodeBody;
    var d, side := role.SendDir(), SideOf(st, role);
    if side.up.Holding? {
      DataRecordSize(d.Code(), side.up.ct);
      EnqueueCapped(PipeOf(st, d), DataRecord(d.Code(), side.up.ct));
    }
    CloseSize();
    EnqueueCapped(PipeOf(st, d), Close);
  }

  lemma UpReadCapped(x: Setup, st: State, role: Role, chunk: Bytes)
    requires Honest(x) && Capped(st) && Live(st, role)
    ensures Capped(DoUpRead(x, st, role, chunk))
  {
    hide EncodeBody, Nonce, Aad, Advance;
  }

  lemma DownReadCapped(x: Setup, st: State, role: Role)
    requires Capped(st) && Live(st, role)
    ensures Capped(DoDownRead(x, st, role))
  {
    hide EncodeBody, TakeFrame;
  }

  lemma ForwardCapped(x: Setup, st: State, e: Event)
    requires Honest(x) && Capped(st)
    requires e.UpRead? || e.UpWrite? || e.UpClose? || e.DownRead? || e.DownOpen? || e.DownSink? || e.IoFailure?
    ensures Capped(Next(x, st, e))
  {
    hide EncodeBody, OpenRecord, Honest, AllWithinCap, DoUpRead, DoUpWrite, DoUpClose, DoDownRead;
    if Live(st, e.role) {
      if e.UpWrite? || e.UpClose? {
        WriteCapped(x, st, e, e.role);
      } else if e.UpRead? {
        UpReadCapped(x, st, e.role, e.chunk);
      } else if e.DownRead? {
        DownReadCapped(x, st, e.role);
      }
    }
  }

  lemma CloseSize()
    ensures |EncodeBody(Close)| <= MAX_FRAME
  {
  }

  lemma {:induction false} RunCapped(x: Setup, events: seq<Event>)
    requires Honest(x)
    ensures Capped(Execute(x, events))
  {
    hide Inv, Capped, Next;
    if events == [] {
      StartCapped();
    } else {
      var front, e := events[..|events| - 1], events[|events| - 1];
      RunCapped(x, front);
      RunKeeps(x, front);
      StepCapped(x, Execute(x, front), e);
    }
  }

  lemma StartCapped()
    ensures Capped(INITIAL)
  {
  }

  lemma StepCapped(x: Setup, st: State, e: Event)
    requires Honest(x) && Inv(x, st) && Capped(st)
    ensures Capped(Next(x, st, e))
  {
    hide Inv, Capped;
    match e
    case ClientOpen(draw) =>
      if st.client.CStart? {
        ClientOpenCapped(x, st, draw);
      }
    case ClientSend =>
      if st.client.CReady? {
        ClientSendCapped(x, st);
      }
    case ServerSend =>
      if st.server.SGreeting? || st.server.SAcking? {
        ServerSendCapped(x, st);
      }
    case ClientFinish(_) => HandshakeCapped(x, st, e);
    case ServerRead => HandshakeCapped(x, st, e);
    case ServerProcess(_, _) => HandshakeCapped(x, st, e);
    case ServerFlush => HandshakeCapped(x, st, e);
    case _ => ForwardCapped(x, st, e);
  }

  /** The wire loses nothing: in every run the bytes written for the frames now in
      transit read back as exactly those frames and then a clean end; if the stream
      is cut anywhere, what reads back is a prefix of them. */
  lemma WireCarriesQueues(x: Setup, events: seq<Event>, d: Direction, cut: nat)
    requires Honest(x)
    ensures var q := PipeOf(Execute(x, events), d).queue;
            && ReadAll(Stream(q)) == (q, EndOfStream)
            && (cut <= |Stream(q)| ==> ReadAll(Stream(q)[..cut]).0 <= q)
  {
    hide ReadAll, Stream, Execute;
    RunCapped(x, events);
    var q := PipeOf(Execute(x, events), d).queue;
    Reassembly(q);
    if cut <= |Stream(q)| {
      CutReassembly(q, cut);
    }
  }
}
