/** What the tunnel can still do: an admissible opening reaches forwarding at both
    ends, and from any state in which both ends forward, the receiving loop can
    bring out every byte that has gone in. */
module TunnelProgress {
  import opened ByteStrings
  import opened Messages
  import opened Suites
  import opened Pools
  import opened Records
  import opened Replay
  import opened Handshake
  import opened Flows
  import opened Tunnel
  import opened TunnelSafety

  lemma ExecuteSnoc(x: Setup, events: seq<Event>, e: Event)
    ensures Execute(x, events + [e]) == Next(x, Execute(x, events), e)
  {
    assert (events + [e])[..|events|] == events;
  }

  /** A continuation of a run. */
  function Continue(x: Setup, st: State, events: seq<Event>): State
    decreases |events|
  {
    if events == [] then st else Continue(x, Next(x, st, events[0]), events[1..])
  }

  lemma {:induction false} ExecuteContinue(x: Setup, events: seq<Event>, more: seq<Event>)
    ensures Execute(x, events + more) == Continue(x, Execute(x, events), more)
    decreases |more|
  {
    if more == [] {
      assert events + more == events;
    } else {
      ExecuteSnoc(x, events, more[0]);
      assert events + more == (events + [more[0]]) + more[1..];
      ExecuteContinue(x, events + [more[0]], more[1..]);
    }
  }

  /** Both ends forward and neither has halted. */
  predicate BothLive(st: State) {
    Live(st, Client) && Live(st, Server)
  }

  /** The direction towards `role` carries no handshake frame and nothing is held
      between the lock and the wire, nor between the wire and the plain sink. */
  predicate Smooth(st: State, role: Role) {
    && BothLive(st)
    && !SideOf(st, role.Peer()).up.Holding?
    && SideOf(st, role).down.Draining?
  }

  ghost predicate FlowTo(x: Setup, st: State, role: Role)
    requires BothLive(st)
  {
    var d, a, b := role.RecvDir(), SideOf(st, role), SideOf(st, role.Peer());
    Flow(x.su, a.record.keys.encKey, d, PipeOf(st, d), b.record.pool.Dir(d), b.up, a.record.pool.Dir(d), a.down, [])
  }

  /** While a side drains, the frames in front of its records are gone. */
  lemma InvFlowTo(x: Setup, st: State, role: Role)
    requires Honest(x) && Inv(x, st) && BothLive(st) && !SideOf(st, role).down.AwaitAck?
    ensures FlowTo(x, st, role)
  {
    hide Flow, EncodeBody;
  }

  lemma ReadsRecord(x: Setup, st: State, role: Role)
    requires Honest(x) && Inv(x, st) && Smooth(st, role) && PipeOf(st, role.RecvDir()).fly != []
    ensures var d := role.RecvDir();
            var p := PipeOf(st, d);
            && p.queue != []
            && Next(x, st, DownRead(role)) ==
               Update(st, role, SideOf(st, role).(down := Opening(p.fly[0].ct)), d, Rest(p))
  {
    hide Flow, EncodeBody, Parse, RecordBody, OpenInv;
    InvFlowTo(x, st, role);
    var d, a, b := role.RecvDir(), SideOf(st, role), SideOf(st, role.Peer());
    var p := PipeOf(st, d);
    var key, s, r := a.record.keys.encKey, b.record.pool.Dir(d), a.record.pool.Dir(d);
    FlowTake(x.su, key, d, p, s, b.up, r, a.down);
    FlowHead(x.su, key, d, p, s, b.up, r, a.down);
    ParseRecord(d, p.fly[0].ct);
  }

  lemma OpensRecord(x: Setup, st: State, role: Role)
    requires Honest(x) && Inv(x, st) && BothLive(st) && SideOf(st, role).down.Opening?
    ensures var d := role.RecvDir();
            var a, p, n := SideOf(st, role), PipeOf(st, d), Next(x, st, DownOpen(role));
            && p.fly != []
            && var record := OpenRecord(x.su, a.record, d, a.down.ct).0;
               n == Update(st, role, a.(record := record, down := Sinking(p.fly[0].pt)), d, p.(fly := p.fly[1..]))
  {
    hide Flow, EncodeBody, OpenInv;
    InvFlowTo(x, st, role);
    var d, a, b := role.RecvDir(), SideOf(st, role), SideOf(st, role.Peer());
    FlowOpen(x.su, a.record.keys.encKey, d, PipeOf(st, d), b.record.pool.Dir(d), b.up, a.record.pool.Dir(d), a.down,
             []);
  }

  /** Three steps of the receiving loop bring out the oldest record in flight. */
  lemma OneRecord(x: Setup, st: State, role: Role)
    requires Honest(x) && Inv(x, st) && Smooth(st, role) && PipeOf(st, role.RecvDir()).fly != []
    ensures var d := role.RecvDir();
            var n := Next(x, Next(x, Next(x, st, DownRead(role)), DownOpen(role)), DownSink(role));
            && Inv(x, n) && Smooth(n, role)
            && PipeOf(n, d).fly == PipeOf(st, d).fly[1..] && PipeOf(n, d).input == PipeOf(st, d).input
  {
    hide Inv, OpenRecord, Parse, TakeFrame, EncodeBody;
    ReadsRecord(x, st, role);
    StepKeeps(x, st, DownRead(role));
    var n := Next(x, st, DownRead(role));
    OpensRecord(x, n, role);
    StepKeeps(x, n, DownOpen(role));
    var m := Next(x, n, DownOpen(role));
    StepKeeps(x, m, DownSink(role));
  }

  /** With nothing in flight and nothing pending, all that went in is out. */
  lemma SmoothEmpty(x: Setup, st: State, role: Role)
    requires Honest(x) && Inv(x, st) && Smooth(st, role) && PipeOf(st, role.RecvDir()).fly == []
    ensures PipeOf(st, role.RecvDir()).output == PipeOf(st, role.RecvDir()).input
  {
    InvFlowTo(x, st, role);
    var p := PipeOf(st, role.RecvDir());
    assert p.output + [] + Flat([]) == p.output;
  }

  /** Everything is out: the loop waits with nothing in flight. */
  predicate Drained(st: State, role: Role) {
    Smooth(st, role) && PipeOf(st, role.RecvDir()).fly == []
  }

  lemma {:induction false} Drains(x: Setup, st: State, role: Role) returns (more: seq<Event>)
    requires Honest(x) && Inv(x, st) && Smooth(st, role)
    ensures var n := Continue(x, st, more);
            && Inv(x, n) && Drained(n, role)
            && PipeOf(n, role.RecvDir()).output == PipeOf(st, role.RecvDir()).input == PipeOf(n, role.RecvDir()).input
    decreases |PipeOf(st, role.RecvDir()).fly|
  {
    hide Inv, Next;
    if PipeOf(st, role.RecvDir()).fly == [] {
      more := [];
      SmoothEmpty(x, st, role);
    } else {
      OneRecord(x, st, role);
      var a, b, c := DownRead(role), DownOpen(role), DownSink(role);
      var n := Next(x, Next(x, Next(x, st, a), b), c);
      var rest := Drains(x, n, role);
      more := [a, b, c] + rest;
      assert more[1..] == [b, c] + rest && more[1..][1..] == [c] + rest && more[1..][1..][1..] == rest;
      assert Continue(x, st, more) == Continue(x, Next(x, st, a), more[1..]);
      assert Continue(x, Next(x, st, a), more[1..]) == Continue(x, Next(x, Next(x, st, a), b), more[1..][1..]);
    }
  }

  /** Steps left until the direction towards `role` is smooth. */
  function Roughness(st: State, role: Role): nat
    requires BothLive(st)
  {
    (if SideOf(st, role.Peer()).up.Holding? then 1 else 0)
    + match SideOf(st, role).down
      case Opening(_) => 2
      case Sinking(_) => 1
      case AwaitAck(_) => 1
      case _ => 0
  }

  /** The next step towards a smooth direction. */
  function SmoothingStep(st: State, role: Role): Event
    requires BothLive(st)
  {
    if SideOf(st, role.Peer()).up.Holding? then UpWrite(role.Peer())
    else
      match SideOf(st, role).down
      case Opening(_) => DownOpen(role)
      case Sinking(_) => DownSink(role)
      case _ => DownRead(role)
  }

  /** A waiting client whose server has started finds its acknowledgement. */
  lemma ReadsAck(x: Setup, st: State, role: Role)
    requires Honest(x) && Inv(x, st) && BothLive(st) && SideOf(st, role).down.AwaitAck?
    ensures var d := role.RecvDir();
            var p := PipeOf(st, d);
            && p.queue != []
            && Next(x, st, DownRead(role)) == Update(st, role, SideOf(st, role).(down := Draining), d, Rest(p))
  {
    hide Flow, EncodeBody, Parse;
    var c, s := st.client.side, st.server.side;
    assert role == Client;
    FlowPrelude(x.su, c.record.keys.encKey, ServerToClient, st.s2c, s.record.pool.s2c, s.up, c.record.pool.s2c, c.down,
                EncodeBody(ServerAck(KeyHash(x.su, c.record))));
    ClientReadAck(x, c, st.server, st.drawn.value, st.c2s, st.s2c, false);
  }

  lemma SmoothingHelps(x: Setup, st: State, role: Role)
    requires Honest(x) && Inv(x, st) && BothLive(st) && Roughness(st, role) > 0
    ensures var n := Next(x, st, SmoothingStep(st, role));
            && Inv(x, n) && BothLive(n) && Roughness(n, role) == Roughness(st, role) - 1
            && PipeOf(n, role.RecvDir()).input == PipeOf(st, role.RecvDir()).input
            && (SideOf(n, role).down.DownClosed? <==> SideOf(st, role).down.DownClosed?)
  {
    hide Inv, OpenRecord, Parse, EncodeBody;
    StepKeeps(x, st, SmoothingStep(st, role));
    if !SideOf(st, role.Peer()).up.Holding? {
      if SideOf(st, role).down.Opening? {
        OpensRecord(x, st, role);
      } else if SideOf(st, role).down.AwaitAck? {
        ReadsAck(x, st, role);
      }
    }
  }

  lemma LiveNotEof(x: Setup, st: State, role: Role)
    requires Honest(x) && Inv(x, st) && BothLive(st)
    ensures !SideOf(st, role).down.DownEof?
    ensures SideOf(st, role).down.DownClosed? ==> PipeOf(st, role.RecvDir()).output == PipeOf(st, role.RecvDir()).input
  {
    hide PhaseInv;
    InvTransparent(x, st);
  }

  lemma {:induction false} DeliversFrom(x: Setup, st: State, role: Role) returns (more: seq<Event>)
    requires Honest(x) && Inv(x, st) && BothLive(st)
    ensures var n := Continue(x, st, more);
            && Inv(x, n) && BothLive(n) && (SideOf(n, role).down.DownClosed? || Drained(n, role))
            && PipeOf(n, role.RecvDir()).output == PipeOf(st, role.RecvDir()).input == PipeOf(n, role.RecvDir()).input
    decreases Roughness(st, role)
  {
    hide Inv, Next;
    if SideOf(st, role).down.DownClosed? {
      more := [];
      LiveNotEof(x, st, role);
    } else if Roughness(st, role) > 0 {
      SmoothingHelps(x, st, role);
      var e := SmoothingStep(st, role);
      var rest := DeliversFrom(x, Next(x, st, e), role);
      more := [e] + rest;
      assert more[1..] == rest;
    } else {
      LiveNotEof(x, st, role);
      more := Drains(x, st, role);
    }
  }

  /** Delivery is always possible: whatever the run so far, as long as both ends
      forward and neither has halted, some continuation brings out, towards either
      end, every byte the other end has put in. */
  lemma Delivers(x: Setup, events: seq<Event>, role: Role) returns (more: seq<Event>)
    requires Honest(x) && BothLive(Execute(x, events))
    ensures PipeOf(Execute(x, events + more), role.RecvDir()).output == PipeOf(Execute(x, events), role.RecvDir()).input
  {
    hide Inv, Next, Execute;
    RunKeeps(x, events);
    more := DeliversFrom(x, Execute(x, events), role);
    ExecuteContinue(x, events, more);
  }

  // --- New chunks and the end of a stream ----------------------------------

  /** A sending loop that reads takes every chunk of 1 to 16384 bytes in. */
  lemma TakesChunk(x: Setup, st: State, role: Role, chunk: Bytes)
    requires Honest(x) && Inv(x, st) && BothLive(st) && SideOf(st, role.Peer()).up.Reading? && 0 < |chunk| <= 16384
    ensures var n, d := Next(x, st, UpRead(role.Peer(), chunk)), role.RecvDir();
            Inv(x, n) && BothLive(n) && PipeOf(n, d).input == PipeOf(st, d).input + chunk
  {
    hide Inv, SealRecord, EncodeBody;
    StepKeeps(x, st, UpRead(role.Peer(), chunk));
  }

  /** A sending loop that holds a record can write it and read on. */
  lemma ReadsOn(x: Setup, st: State, role: Role)
    requires Honest(x) && Inv(x, st) && BothLive(st) && SideOf(st, role.Peer()).up.Holding?
    ensures var n, d := Next(x, st, UpWrite(role.Peer())), role.RecvDir();
            Inv(x, n) && BothLive(n) && SideOf(n, role.Peer()).up.Reading? && PipeOf(n, d).input == PipeOf(st, d).input
  {
    hide Inv, EncodeBody;
    StepKeeps(x, st, UpWrite(role.Peer()));
  }

  lemma CarriesFrom(x: Setup, st: State, role: Role, chunk: Bytes) returns (more: seq<Event>)
    requires Honest(x) && Inv(x, st) && BothLive(st) && !SideOf(st, role.Peer()).up.UpDone? && 0 < |chunk| <= 16384
    ensures PipeOf(Continue(x, st, more), role.RecvDir()).output == PipeOf(st, role.RecvDir()).input + chunk
    decreases if SideOf(st, role.Peer()).up.Holding? then 1 else 0
  {
    hide Inv, Next;
    var e, rest := UpWrite(role.Peer()), [];
    if SideOf(st, role.Peer()).up.Holding? {
      ReadsOn(x, st, role);
      rest := CarriesFrom(x, Next(x, st, e), role, chunk);
    } else {
      e := UpRead(role.Peer(), chunk);
      TakesChunk(x, st, role, chunk);
      rest := DeliversFrom(x, Next(x, st, e), role);
    }
    more := [e] + rest;
    assert more[1..] == rest;
  }

  /** The tunnel carries every next chunk: whatever the run so far, as long as both
      ends are live and the sending loop is not done, a chunk of 1 to 16384 bytes can
      still be put in and comes out behind everything put in before. */
  lemma Carries(x: Setup, events: seq<Event>, role: Role, chunk: Bytes) returns (more: seq<Event>)
    requires Honest(x) && BothLive(Execute(x, events)) && 0 < |chunk| <= 16384
    requires !SideOf(Execute(x, events), role.Peer()).up.UpDone?
    ensures PipeOf(Execute(x, events + more), role.RecvDir()).output
            == PipeOf(Execute(x, events), role.RecvDir()).input + chunk
  {
    hide Inv, Next, Execute;
    RunKeeps(x, events);
    more := CarriesFrom(x, Execute(x, events), role, chunk);
    ExecuteContinue(x, events, more);
  }

  /** A drained direction whose sender is done holds nothing but Close, and reading it
      ends the receiving loop. */
  lemma ReadsClose(x: Setup, st: State, role: Role)
    requires Honest(x) && Inv(x, st) && Drained(st, role) && SideOf(st, role.Peer()).up.UpDone?
    ensures var n, d := Next(x, st, DownRead(role)), role.RecvDir();
            Closed(n, role) && PipeOf(n, d).output == PipeOf(st, d).output
  {
    hide Flow, EncodeBody, Parse, OpenInv, Expected, CloseBody;
    InvFlowTo(x, st, role);
    var d, a, b := role.RecvDir(), SideOf(st, role), SideOf(st, role.Peer());
    var p := PipeOf(st, d);
    CloseQueued(x.su, a.record.keys.encKey, d, p, b.record.pool.Dir(d), b.up, a.record.pool.Dir(d), a.down);
    FlowHead(x.su, a.record.keys.encKey, d, p, b.record.pool.Dir(d), b.up, a.record.pool.Dir(d), a.down);
    ParseClose();
  }

  lemma CloseQueued(su: Suite, key: Bytes, d: Direction, p: Pipe, s: DirState, up: Up, r: DirState, down: Down)
    requires Flow(su, key, d, p, s, up, r, down, []) && up.UpDone? && down.Draining?
    ensures p.queue != []
  {
    hide EncodeBody;
  }

  lemma EndsStream(x: Setup, st: State, role: Role)
    requires Honest(x) && Inv(x, st) && BothLive(st) && SideOf(st, role.Peer()).up.Reading?
    ensures var n, d := Next(x, st, UpClose(role.Peer())), role.RecvDir();
            && Inv(x, n) && BothLive(n) && SideOf(n, role.Peer()).up.UpDone?
            && SideOf(n, role).down == SideOf(st, role).down
            && PipeOf(n, d).input == PipeOf(st, d).input
  {
    hide Inv, EncodeBody;
    StepKeeps(x, st, UpClose(role.Peer()));
  }

  /** The tunnel ends in order: as long as both ends are live, some continuation closes
      the direction towards either end with all that was put in written out. */
  lemma Closes(x: Setup, events: seq<Event>, role: Role) returns (more: seq<Event>)
    requires Honest(x) && BothLive(Execute(x, events))
    ensures var n := Execute(x, events + more);
            && Closed(n, role)
            && PipeOf(n, role.RecvDir()).output == PipeOf(Execute(x, events), role.RecvDir()).input
  {
    hide Inv, Next, Execute;
    RunKeeps(x, events);
    more := ClosesFrom(x, Execute(x, events), role);
    ExecuteContinue(x, events, more);
  }

  lemma {:induction false} ClosesFrom(x: Setup, st: State, role: Role) returns (more: seq<Event>)
    requires Honest(x) && Inv(x, st) && BothLive(st)
    ensures var n := Continue(x, st, more);
            Closed(n, role) && PipeOf(n, role.RecvDir()).output == PipeOf(st, role.RecvDir()).input
    decreases match SideOf(st, role.Peer()).up case Holding(_) => 2 case Reading => 1 case UpDone => 0
  {
    hide Inv, Next;
    match SideOf(st, role.Peer()).up
    case Holding(_) =>
      ReadsOn(x, st, role);
      var rest := ClosesFrom(x, Next(x, st, UpWrite(role.Peer())), role);
      more := [UpWrite(role.Peer())] + rest;
      assert more[1..] == rest;
    case Reading =>
      EndsStream(x, st, role);
      var rest := ClosesFrom(x, Next(x, st, UpClose(role.Peer())), role);
      more := [UpClose(role.Peer())] + rest;
      assert more[1..] == rest;
    case UpDone =>
      var rest := DeliversFrom(x, st, role);
      DoneStays(x, st, rest, role);
      var n := Continue(x, st, rest);
      if SideOf(n, role).down.DownClosed? {
        more := rest;
      } else {
        ReadsClose(x, n, role);
        more := rest + [DownRead(role)];
        ContinueSnoc(x, st, rest, DownRead(role));
      }
  }

  lemma {:induction false} ContinueSnoc(x: Setup, st: State, events: seq<Event>, e: Event)
    ensures Continue(x, st, events + [e]) == Next(x, Continue(x, st, events), e)
    decreases |events|
  {
    hide Next;
    if events == [] {
      assert [] + [e] == [e] && [e][1..] == [];
    } else {
      ContinueSnoc(x, Next(x, st, events[0]), events[1..], e);
      assert (events + [e])[1..] == events[1..] + [e];
    }
  }

  /** A sending loop that is done stays done. */
  predicate Done(st: State, role: Role) {
    Forwarding(st, role) && SideOf(st, role).up.UpDone?
  }

  lemma DoneStep(x: Setup, st: State, e: Event, role: Role)
    requires Done(st, role)
    ensures Done(Next(x, st, e), role)
  {
    hide Parse, TakeFrame, OpenRecord, SealRecord, OnFirst, OnClientData, EncodeBody, BuildPayload;
  }

  lemma {:induction false} DoneStays(x: Setup, st: State, events: seq<Event>, role: Role)
    requires Done(st, role.Peer())
    ensures Done(Continue(x, st, events), role.Peer())
    decreases |events|
  {
    hide Next;
    if events != [] {
      DoneStep(x, st, events[0], role.Peer());
      DoneStays(x, Next(x, st, events[0]), events[1..], role);
    }
  }

  // --- Openings ------------------------------------------------------------

  /** A flight is written, read and processed, the reply written, and the early data
      flushed. Without a reply to write, `ServerSend` changes nothing. */
  function FlightEvents(now: U64, cache: CacheState): seq<Event> {
    [ClientSend, ServerRead, ServerProcess(now, cache), ServerSend, ServerFlush]
  }

  function ZeroRttEvents(draw: Fresh, now: U64, cache: CacheState): seq<Event> {
    [ClientOpen(draw)] + FlightEvents(now, cache)
  }

  function HelloEvents(hello: Fresh, helloNow: U64, helloCache: CacheState, draw: Fresh): seq<Event> {
    [ClientOpen(hello), ServerRead, ServerProcess(helloNow, helloCache), ServerSend, ClientFinish(draw)]
  }

  /** The early data has crossed and both ends forward. */
  predicate EarlyDelivered(x: Setup, st: State) {
    BothLive(st) && st.c2s.output == x.early && st.c2s.input == x.early
  }

  /** Both ends wait: the client to write its flight, the server to read it. */
  ghost predicate FlightReady(x: Setup, st: State, draw: Fresh)
    requires Honest(x)
  {
    && st.client.CReady? && st.client == CReady(Sent(x, draw), draw, ZeroRttMode(x))
    && (if st.client.zeroRtt then st.server.SStart? else st.server.SAwaitData?)
    && NoTraffic(st.c2s) && st.c2s.queue == [] && st.clientErr.None? && st.serverErr.None?
  }

  lemma FlightRead(x: Setup, st: State, draw: Fresh)
    requires Honest(x) && FlightReady(x, st, draw)
    ensures var p, zeroRtt := Sent(x, draw).payload, st.client.zeroRtt;
            var f, n := FlightFrame(x, p, zeroRtt), Next(x, Next(x, st, ClientSend), ServerRead);
            && n.server == (if zeroRtt then SFirst(f) else SSecond(f))
            && n.client.COpen? && n.clientErr.None? && n.serverErr.None?
            && n.c2s == Pipe([], [Flight(x.early, p.encData)], x.early, [])
  {
    hide EncodeBody, Parse, BuildPayload;
    SentFrames(x, draw);
    Started(x, st);
    assert [EncodeBody(FlightFrame(x, Sent(x, draw).payload, st.client.zeroRtt))][1..] == [];
  }

  lemma FlightOpens(x: Setup, st: State, draw: Fresh, now: U64, cache: CacheState)
    requires Honest(x) && Admissible(x.su, x.scfg, Sent(x, draw).payload, x.peerIp, now, cache)
    requires FlightReady(x, st, draw)
    ensures EarlyDelivered(x, Continue(x, st, FlightEvents(now, cache)))
  {
    hide EncodeBody, ProcessPayload, BuildPayload, KeyHash, Continue, DoClientSend, DoServerRead;
    FlightRead(x, st, draw);
    ProcessAdmissible(x, draw, now, cache);
    var fl, b := Sent(x, draw), Next(x, Next(x, st, ClientSend), ServerRead);
    var c := Next(x, b, ServerProcess(now, cache));
    assert c == StartServer(b, if b.server.SFirst? then SAcking(ServerAck(KeyHash(x.su, fl.record)), fl.record, x.early)
                               else SFlush(fl.record, x.early));
    assert [] + x.early == x.early;
    ContinueFive(x, st, ClientSend, ServerRead, ServerProcess(now, cache), ServerSend, ServerFlush);
  }

  /** An admissible 0-RTT opening reaches forwarding at both ends, with the early
      data already in the server's plain sink. */
  lemma ZeroRttOpens(x: Setup, draw: Fresh, now: U64, cache: CacheState)
    requires Honest(x) && ZeroRttMode(x)
    requires Admissible(x.su, x.scfg, Sent(x, draw).payload, x.peerIp, now, cache)
    ensures EarlyDelivered(x, Execute(x, ZeroRttEvents(draw, now, cache)))
  {
    hide BuildPayload, FlightEvents, EarlyDelivered;
    SentFacts(x, draw);
    var st := Next(x, INITIAL, ClientOpen(draw));
    assert FlightReady(x, st, draw);
    FlightOpens(x, st, draw, now, cache);
    assert [] + [ClientOpen(draw)] == [ClientOpen(draw)];
    ExecuteSnoc(x, [], ClientOpen(draw));
    ExecuteContinue(x, [ClientOpen(draw)], FlightEvents(now, cache));
  }

  lemma ProcessAdmissible(x: Setup, draw: Fresh, now: U64, cache: CacheState)
    requires Honest(x) && Admissible(x.su, x.scfg, Sent(x, draw).payload, x.peerIp, now, cache)
    ensures ProcessPayload(x.su, x.scfg, x.ccfg.clientPk, Sent(x, draw).payload, x.peerIp, now, cache).1
            == Ok(Session(Sent(x, draw).record, x.early))
  {
    HonestBuild(x.su, x.ccfg, x.scfg, x.srcIp, draw.r, draw.nonce, draw.ts, x.early);
    HonestProcess(x.su, x.ccfg, x.scfg, x.srcIp, draw.r, draw.nonce, draw.ts, x.early, x.peerIp, now, cache);
  }

  lemma ContinueFive(x: Setup, st: State, a: Event, b: Event, c: Event, d: Event, e: Event)
    ensures Continue(x, st, [a, b, c, d, e]) == Next(x, Next(x, Next(x, Next(x, Next(x, st, a), b), c), d), e)
  {
    hide Next;
    assert [a, b, c, d, e][1..] == [b, c, d, e] && [b, c, d, e][1..] == [c, d, e];
    assert [c, d, e][1..] == [d, e] && [d, e][1..] == [e] && [e][1..] == [];
    var m := Next(x, Next(x, st, a), b);
    assert Continue(x, st, [a, b, c, d, e]) == Continue(x, m, [c, d, e]);
    assert Continue(x, m, [c, d, e]) == Continue(x, Next(x, Next(x, m, c), d), [e]);
  }

  lemma HelloRead(x: Setup, hello: Fresh)
    requires Honest(x) && !ZeroRttMode(x)
    ensures Next(x, Next(x, INITIAL, ClientOpen(hello)), ServerRead)
            == INITIAL.(client := CAwaitHello, server := SFirst(OneRttHello(x.ccfg)))
  {
    hide EncodeBody, Parse;
    HelloSize(SUITE_CODE, x.ccfg.clientPk);
    ParseIntact(OneRttHello(x.ccfg));
    var a := Next(x, INITIAL, ClientOpen(hello));
    assert a.c2s.queue == [EncodeBody(OneRttHello(x.ccfg))] && a.c2s.queue[1..] == [];
  }

  /** The queue of a server that has answered a hello. */
  function Greeting(x: Setup, now: U64): Pipe {
    EMPTY_PIPE.(queue := [EncodeBody(HelloFrame(x.scfg, now))])
  }

  lemma HelloWritten(x: Setup, now: U64, cache: CacheState)
    ensures var read := INITIAL.(client := CAwaitHello, server := SFirst(OneRttHello(x.ccfg)));
            Next(x, Next(x, read, ServerProcess(now, cache)), ServerSend)
            == INITIAL.(client := CAwaitHello, server := SAwaitData, s2c := Greeting(x, now))
  {
    hide EncodeBody;
    assert [] + [EncodeBody(HelloFrame(x.scfg, now))] == [EncodeBody(HelloFrame(x.scfg, now))];
  }

  lemma HelloChecked(x: Setup, now: U64, draw: Fresh)
    requires Honest(x) && !ZeroRttMode(x) && x.verifies(x.scfg.serverPk, x.scfg.certificate)
    ensures var greeted := INITIAL.(client := CAwaitHello, server := SAwaitData, s2c := Greeting(x, now));
            FlightReady(x, Next(x, greeted, ClientFinish(draw)), draw)
  {
    hide EncodeBody, Parse, BuildPayload;
    ParseHello(x, now);
    SentFacts(x, draw);
  }

  /** The hello is answered with the server's key, and the client checks the answer
      and builds its flight. */
  lemma HelloAnswered(x: Setup, hello: Fresh, helloNow: U64, helloCache: CacheState, draw: Fresh)
    requires Honest(x) && !ZeroRttMode(x) && x.verifies(x.scfg.serverPk, x.scfg.certificate)
    ensures FlightReady(x, Continue(x, INITIAL, HelloEvents(hello, helloNow, helloCache, draw)), draw)
  {
    hide Next, Continue, FlightReady, Greeting;
    HelloRead(x, hello);
    HelloWritten(x, helloNow, helloCache);
    HelloChecked(x, helloNow, draw);
    ContinueFive(x, INITIAL, ClientOpen(hello), ServerRead, ServerProcess(helloNow, helloCache), ServerSend,
                 ClientFinish(draw));
  }

  /** A 1-RTT opening whose certificate verifies and whose second flight is
      admissible does the same. */
  lemma OneRttOpens(x: Setup, hello: Fresh, helloNow: U64, helloCache: CacheState, draw: Fresh, now: U64,
                    cache: CacheState)
    requires Honest(x) && !ZeroRttMode(x) && x.verifies(x.scfg.serverPk, x.scfg.certificate)
    requires Admissible(x.su, x.scfg, Sent(x, draw).payload, x.peerIp, now, cache)
    ensures EarlyDelivered(x, Execute(x, HelloEvents(hello, helloNow, helloCache, draw) + FlightEvents(now, cache)))
  {
    hide FlightReady, FlightEvents, HelloEvents, EarlyDelivered, Next;
    var events := HelloEvents(hello, helloNow, helloCache, draw);
    HelloAnswered(x, hello, helloNow, helloCache, draw);
    FlightOpens(x, Continue(x, INITIAL, events), draw, now, cache);
    assert [] + events == events;
    ExecuteContinue(x, [], events);
    ExecuteContinue(x, events, FlightEvents(now, cache));
  }

  /** The hypotheses can be met: over the toy suite there is an honest setup, in
      either mode, with a flight that a fresh server admits. */
  lemma HonestSetupExists(zeroRtt: bool, draw: Fresh) returns (x: Setup)
    ensures Honest(x) && (ZeroRttMode(x) <==> zeroRtt)
            && x.verifies(x.scfg.serverPk, x.scfg.certificate)
    ensures Admissible(x.su, x.scfg, Sent(x, draw).payload, x.peerIp, draw.ts, EmptyCache(x.scfg.windowMs))
  {
    LawsAreConsistent();
    var su := ToySuite();
    var scfg := ServerConfig([], su.kemPublic([]), [], 2000, 1000);
    x := Setup(su, ClientConfig([], su.sigPublic([])), scfg, Zeros(16), Zeros(16),
               if zeroRtt then Some(scfg.serverPk) else None, false, (pk, cert) => true, [1, 2, 3]);
    HonestBuild(x.su, x.ccfg, x.scfg, x.srcIp, draw.r, draw.nonce, draw.ts, x.early);
    WindowIsInterval(draw.ts, draw.ts, 2000, 1000);
  }
}
