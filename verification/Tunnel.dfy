/** The whole tunnel as a step protocol: a client and a server, two FIFO queues
    of frame bodies, a 0-RTT or 1-RTT opening, then an up and a down loop at each
    end. Every queue operation, every section under a lock and every write to a
    plain sink is a step of its own. */
module Tunnel {
  import opened ByteStrings
  import opened Messages
  import opened Framing
  import opened Suites
  import opened Pools
  import opened Records
  import opened Replay
  import opened Handshake
  import opened Flows

  /** What is fixed for one connection. `verifies` is the client's certificate
      policy on (server key, certificate). */
  datatype Setup = Setup(
    su: Suite, ccfg: ClientConfig, scfg: ServerConfig,
    srcIp: Bytes16, peerIp: Bytes16,
    cached: Option<Bytes>, force1rtt: bool, verifies: (Bytes, Bytes) -> bool,
    early: Bytes)

  /** A cached key opens in 0-RTT unless 1-RTT is forced. */
  predicate ZeroRttMode(x: Setup) {
    x.cached.Some? && !x.force1rtt
  }

  datatype Side = Side(record: RecordState, up: Up, down: Down)

  /** The random and timed inputs of the client's payload. */
  datatype Fresh = Fresh(r: Bytes, nonce: Bytes32, ts: U64)

  /** `CReady` holds a flight that is built and not yet written. */
  datatype ClientPhase =
    | CStart
    | CAwaitHello
    | CReady(flight: ClientFlight, draw: Fresh, zeroRtt: bool)
    | COpen(side: Side)
    | CRejected

  /** `SFirst` and `SSecond` hold a frame that is read and not yet processed,
      `SGreeting` and `SAcking` a reply that is not yet written, `SFlush` early
      data on its way to the plain sink. */
  datatype ServerPhase =
    | SStart
    | SFirst(frame: Frame)
    | SGreeting(hello: Frame)
    | SAcking(ack: Frame, record: RecordState, early: Bytes)
    | SAwaitData
    | SSecond(frame: Frame)
    | SFlush(record: RecordState, early: Bytes)
    | SOpen(side: Side)
    | SRejected

  /** An endpoint with an error has halted; its socket then reads as ended. */
  datatype State = State(
    client: ClientPhase, server: ServerPhase,
    clientErr: Option<NetError>, serverErr: Option<NetError>,
    c2s: Pipe, s2c: Pipe,
    drawn: Option<Fresh>)

  const INITIAL: State := State(CStart, SStart, None, None, EMPTY_PIPE, EMPTY_PIPE, None)

  datatype Event =
    | ClientOpen(draw: Fresh)
    | ClientFinish(draw: Fresh)
    | ClientSend
    | ServerRead
    | ServerProcess(now: U64, cache: CacheState)
    | ServerSend
    | ServerFlush
    | UpRead(role: Role, chunk: Bytes)
    | UpWrite(role: Role)
    | UpClose(role: Role)
    | DownRead(role: Role)
    | DownOpen(role: Role)
    | DownSink(role: Role)
    | IoFailure(role: Role)

  function RejectClient(st: State, e: NetError): State {
    st.(client := CRejected, clientErr := Some(e))
  }

  function RejectServer(st: State, e: NetError): State {
    st.(server := SRejected, serverErr := Some(e))
  }

  function Enqueue(p: Pipe, f: Frame): Pipe {
    p.(queue := p.queue + [EncodeBody(f)])
  }

  // --- Opening -------------------------------------------------------------

  function Flight0(x: Setup, serverPk: Bytes, draw: Fresh): Result<ClientFlight, CoreError> {
    BuildPayload(x.su, x.ccfg, serverPk, x.srcIp, draw.r, draw.nonce, draw.ts, x.early)
  }

  /** Build the 0-RTT flight, or write the 1-RTT hello. */
  function DoClientOpen(x: Setup, st: State, draw: Fresh): State
    requires st.client.CStart?
  {
    if ZeroRttMode(x) then
      match Flight0(x, x.cached.value, draw)
      case Err(e) => RejectClient(st, Core(e))
      case Ok(fl) => st.(client := CReady(fl, draw, true))
    else
      st.(client := CAwaitHello, c2s := Enqueue(st.c2s, OneRttHello(x.ccfg)))
  }

  /** Take the head off a queue. */
  function Rest(p: Pipe): Pipe
    requires p.queue != []
  {
    p.(queue := p.queue[1..])
  }

  /** Read the server's hello, check it, and build the second flight. */
  function DoClientFinish(x: Setup, st: State, draw: Fresh): State
    requires st.client.CAwaitHello?
  {
    if st.s2c.queue == [] then
      if st.serverErr.Some? then RejectClient(st, EarlyClose) else st
    else
      var next := st.(s2c := Rest(st.s2c));
      match Parse(st.s2c.queue[0])
      case Err(e) => RejectClient(next, e)
      case Ok(ServerHello(_, serverPk, certificate, _)) =>
        if !x.verifies(serverPk, certificate) then RejectClient(next, Cert)
        else if x.cached.Some? && x.cached.value != serverPk then RejectClient(next, PinMismatch)
        else
          match Flight0(x, serverPk, draw) {
            case Err(e) => RejectClient(next, Core(e))
            case Ok(fl) => next.(client := CReady(fl, draw, false))
          }
      case Ok(_) => RejectClient(next, Unexpected)
  }

  function FlightFrame(x: Setup, p: KemPayload, zeroRtt: bool): Frame {
    if zeroRtt then ZeroRttFrame(x.ccfg, p) else OneRttFinish(x.ccfg, p)
  }

  /** Write the flight; the client's loops may start. */
  function DoClientSend(x: Setup, st: State): State
    requires st.client.CReady?
  {
    var CReady(fl, draw, zeroRtt) := st.client;
    st.(client := COpen(Side(fl.record, Reading, FirstDown(fl, zeroRtt))), drawn := Some(draw),
        c2s := Enqueue(st.c2s, FlightFrame(x, fl.payload, zeroRtt))
               .(fly := st.c2s.fly + [Flight(x.early, fl.payload.encData)], input := st.c2s.input + x.early))
  }

  /** Read and decode a handshake frame. */
  function DoServerRead(x: Setup, st: State): State
    requires st.server.SStart? || st.server.SAwaitData?
  {
    if st.c2s.queue == [] then
      if st.clientErr.Some? then RejectServer(st, EarlyClose) else st
    else
      var next := st.(c2s := Rest(st.c2s));
      match Parse(st.c2s.queue[0])
      case Err(e) => RejectServer(next, e)
      case Ok(frame) => next.(server := if st.server.SStart? then SFirst(frame) else SSecond(frame))
  }

  /** The record that carried the early data has been opened. */
  function StartServer(st: State, server: ServerPhase): State {
    st.(server := server, c2s := st.c2s.(fly := if st.c2s.fly == [] then [] else st.c2s.fly[1..]))
  }

  /** Process the frame under the strike-cache lock. */
  function DoServerProcess(x: Setup, st: State, now: U64, cache: CacheState): State
    requires st.server.SFirst? || st.server.SSecond?
  {
    if st.server.SFirst? then
      match OnFirst(x.su, x.scfg, st.server.frame, x.peerIp, now, cache).1
      case Err(e) => RejectServer(st, Core(e))
      case Ok(OneRtt(hello)) => st.(server := SGreeting(hello))
      case Ok(ZeroRtt(ack, session)) => StartServer(st, SAcking(ack, session.record, session.early))
    else
      match OnClientData(x.su, x.scfg, st.server.frame, x.peerIp, now, cache).1
      case Err(e) => RejectServer(st, Core(e))
      case Ok(session) => StartServer(st, SFlush(session.record, session.early))
  }

  /** Write the reply. */
  function DoServerSend(st: State): State
    requires st.server.SGreeting? || st.server.SAcking?
  {
    if st.server.SGreeting? then st.(server := SAwaitData, s2c := Enqueue(st.s2c, st.server.hello))
    else st.(server := SFlush(st.server.record, st.server.early), s2c := Enqueue(st.s2c, st.server.ack))
  }

  // --- Forwarding, for either end ------------------------------------------

  function ErrOf(st: State, role: Role): Option<NetError> {
    if role.Client? then st.clientErr else st.serverErr
  }

  function Fail(st: State, role: Role, e: NetError): State {
    if role.Client? then st.(clientErr := Some(e)) else st.(serverErr := Some(e))
  }

  predicate Forwarding(st: State, role: Role) {
    if role.Client? then st.client.COpen? else st.server.SOpen?
  }

  function SideOf(st: State, role: Role): Side
    requires Forwarding(st, role)
  {
    if role.Client? then st.client.side else st.server.side
  }

  function PipeOf(st: State, d: Direction): Pipe {
    if d.ClientToServer? then st.c2s else st.s2c
  }

  function Update(st: State, role: Role, side: Side, d: Direction, p: Pipe): State {
    var next := if role.Client? then st.(client := COpen(side)) else st.(server := SOpen(side));
    if d.ClientToServer? then next.(c2s := p) else next.(s2c := p)
  }

  /** Read a chunk from the plain stream and seal it under the lock. */
  function DoUpRead(x: Setup, st: State, role: Role, chunk: Bytes): State
    requires Forwarding(st, role)
  {
    var side, d := SideOf(st, role), role.SendDir();
    var p := PipeOf(st, d);
    if !side.up.Reading? || !(0 < |chunk| <= CHUNK) then st
    else
      var (record, ct) := SealRecord(x.su, side.record, d, chunk);
      Update(st, role, side.(record := record, up := Holding(ct)), d,
             p.(fly := p.fly + [Flight(chunk, ct)], input := p.input + chunk))
  }

  function DoUpWrite(x: Setup, st: State, role: Role): State
    requires Forwarding(st, role)
  {
    var side, d := SideOf(st, role), role.SendDir();
    var p := PipeOf(st, d);
    if !side.up.Holding? then st
    else Update(st, role, side.(up := Reading), d, Enqueue(p, DataRecord(d.Code(), side.up.ct)))
  }

  /** The plain stream ended: write Close and shut the writer down. */
  function DoUpClose(x: Setup, st: State, role: Role): State
    requires Forwarding(st, role)
  {
    var side, d := SideOf(st, role), role.SendDir();
    if !side.up.Reading? then st
    else Update(st, role, side.(up := UpDone), d, Enqueue(PipeOf(st, d), Close))
  }

  function DoDownRead(x: Setup, st: State, role: Role): State
    requires Forwarding(st, role)
  {
    var side, d := SideOf(st, role), role.RecvDir();
    var p := PipeOf(st, d);
    if !side.down.AwaitAck? && !side.down.Draining? then st
    else if p.queue == [] then
      if ErrOf(st, role.Peer()).Some? then Update(st, role, side.(down := DownEof), d, p) else st
    else
      match TakeFrame(side.down, p.queue[0])
      case Err(e) => Fail(Update(st, role, side, d, Rest(p)), role, e)
      case Ok(down) => Update(st, role, side.(down := down), d, Rest(p))
  }

  /** Open a record under the lock. */
  function DoDownOpen(x: Setup, st: State, role: Role): State
    requires Forwarding(st, role)
  {
    var side, d := SideOf(st, role), role.RecvDir();
    var p := PipeOf(st, d);
    if !side.down.Opening? then st
    else
      var (record, pt) := OpenRecord(x.su, side.record, d, side.down.ct);
      if pt.None? then Fail(Update(st, role, side.(record := record), d, p), role, InvalidRecord)
      else Update(st, role, side.(record := record, down := Sinking(pt.value)), d,
                  p.(fly := if p.fly == [] then [] else p.fly[1..]))
  }

  function DoDownSink(x: Setup, st: State, role: Role): State
    requires Forwarding(st, role)
  {
    var side, d := SideOf(st, role), role.RecvDir();
    var p := PipeOf(st, d);
    if !side.down.Sinking? then st
    else Update(st, role, side.(down := Draining), d, p.(output := p.output + side.down.pt))
  }

  // --- Runs ----------------------------------------------------------------

  /** One event; an event that is not enabled leaves the state as it is. */
  function Next(x: Setup, st: State, e: Event): State {
    match e
    case ClientOpen(draw) => if st.client.CStart? && st.clientErr.None? then DoClientOpen(x, st, draw) else st
    case ClientFinish(draw) => if st.client.CAwaitHello? && st.clientErr.None? then DoClientFinish(x, st, draw) else st
    case ClientSend => if st.client.CReady? && st.clientErr.None? then DoClientSend(x, st) else st
    case ServerRead =>
      if (st.server.SStart? || st.server.SAwaitData?) && st.serverErr.None? then DoServerRead(x, st) else st
    case ServerProcess(now, cache) =>
      if (st.server.SFirst? || st.server.SSecond?) && st.serverErr.None? then DoServerProcess(x, st, now, cache) else st
    case ServerSend =>
      if (st.server.SGreeting? || st.server.SAcking?) && st.serverErr.None? then DoServerSend(st) else st
    case ServerFlush =>
      if st.server.SFlush? && st.serverErr.None? then
        st.(server := SOpen(Side(st.server.record, Reading, Draining)),
            c2s := st.c2s.(output := st.c2s.output + st.server.early))
      else st
    case UpRead(role, chunk) => if Live(st, role) then DoUpRead(x, st, role, chunk) else st
    case UpWrite(role) => if Live(st, role) then DoUpWrite(x, st, role) else st
    case UpClose(role) => if Live(st, role) then DoUpClose(x, st, role) else st
    case DownRead(role) => if Live(st, role) then DoDownRead(x, st, role) else st
    case DownOpen(role) => if Live(st, role) then DoDownOpen(x, st, role) else st
    case DownSink(role) => if Live(st, role) then DoDownSink(x, st, role) else st
    case IoFailure(role) => if ErrOf(st, role).None? then Fail(st, role, Io) else st
  }

  predicate Live(st: State, role: Role) {
    Forwarding(st, role) && ErrOf(st, role).None?
  }

  function Execute(x: Setup, events: seq<Event>): State {
    if events == [] then INITIAL else Next(x, Execute(x, events[..|events| - 1]), events[|events| - 1])
  }

  // --- Invariant -----------------------------------------------------------

  /** Both ends follow the protocol with matching keys, a cached key is the
      server's, and the handshake frames respect the frame cap. */
  ghost predicate Honest(x: Setup) {
    && HonestKeys(x.su, x.ccfg, x.scfg)
    && (x.cached.Some? ==> x.cached.value == x.scfg.serverPk)
    && |x.early| <= (if ZeroRttMode(x) then MAX_ZERO_RTT_EARLY else MAX_ONE_RTT_EARLY)
    && |x.scfg.certificate| <= MAX_FRAME - 17 - KEM_EK_LEN
  }

  /** The flight behind the payload on the wire. */
  ghost function Sent(x: Setup, draw: Fresh): ClientFlight
    requires Honest(x)
  {
    HonestBuild(x.su, x.ccfg, x.scfg, x.srcIp, draw.r, draw.nonce, draw.ts, x.early);
    Flight0(x, x.scfg.serverPk, draw).value
  }

  /** The server has not processed the payload yet. */
  predicate Unopened(server: ServerPhase) {
    server.SStart? || server.SFirst? || server.SAwaitData? || server.SSecond?
  }

  /** The acknowledgement of a 0-RTT flight is still to be written. */
  predicate Unacked(server: ServerPhase) {
    server.SStart? || server.SFirst? || server.SAcking?
  }

  /** Before it has processed the payload, a server stands for the receiver that is
      about to open the record inside it. */
  ghost function ServerView(x: Setup, server: ServerPhase, draw: Fresh): Side
    requires Honest(x)
  {
    match server
    case SOpen(side) => side
    case SFlush(record, early) => Side(record, Reading, Sinking(early))
    case SAcking(_, record, early) => Side(record, Reading, Sinking(early))
    case _ => Side(InitRecord(Sent(x, draw).record.keys, draw.nonce), Reading, Opening(Sent(x, draw).payload.encData))
  }

  ghost function PreludeC2S(x: Setup, server: ServerPhase, draw: Fresh): seq<Bytes>
    requires Honest(x)
  {
    match server
    case SStart => [EncodeBody(ZeroRttFrame(x.ccfg, Sent(x, draw).payload))]
    case SAwaitData => [EncodeBody(OneRttFinish(x.ccfg, Sent(x, draw).payload))]
    case _ => []
  }

  /** The acknowledgement is on the wire until the client has read it. */
  ghost function PreludeS2C(x: Setup, server: ServerPhase, c: Side): seq<Bytes> {
    if c.down.AwaitAck? && (server.SFlush? || server.SOpen?)
    then [EncodeBody(ServerAck(KeyHash(x.su, c.record)))] else []
  }

  /** Two sides that share a session: both directions are in order. */
  ghost predicate Duplex(su: Suite, a: Side, b: Side, d: Direction, ab: Pipe, ba: Pipe, preAB: seq<Bytes>,
                         preBA: seq<Bytes>)
  {
    && a.record.keys == b.record.keys
    && Flow(su, a.record.keys.encKey, d, ab, a.record.pool.Dir(d), a.up, b.record.pool.Dir(d), b.down, preAB)
    && Flow(su, a.record.keys.encKey, d.Flip(), ba, b.record.pool.Dir(d.Flip()), b.up, a.record.pool.Dir(d.Flip()),
            a.down, preBA)
  }

  ghost predicate OpenInv(x: Setup, c: Side, server: ServerPhase, draw: Fresh, c2s: Pipe, s2c: Pipe, serverGone: bool)
    requires Honest(x)
  {
    var s := ServerView(x, server, draw);
    && Duplex(x.su, c, s, ClientToServer, c2s, s2c, PreludeC2S(x, server, draw), PreludeS2C(x, server, c))
    && (c.down.AwaitAck? ==> c.down.expected == KeyHash(x.su, c.record))
    && (!server.SOpen? ==> NoTraffic(s2c) && c2s.output == [] && !c.down.Sinking?)
    && (Unacked(server) ==> c.down.AwaitAck? || serverGone)
    && (server.SAwaitData? || server.SSecond? ==> !c.down.AwaitAck?)
    && (server.SStart? ==> ZeroRttMode(x)) && (server.SAwaitData? ==> !ZeroRttMode(x))
    && !s.down.AwaitAck?
    && !server.SRejected? && !server.SGreeting?
    && HeldFrame(x, c, server, draw)
  }

  /** What a server holds between reading, processing and replying. */
  ghost predicate HeldFrame(x: Setup, c: Side, server: ServerPhase, draw: Fresh)
    requires Honest(x)
  {
    && (server.SFirst? ==> server.frame == ZeroRttFrame(x.ccfg, Sent(x, draw).payload))
    && (server.SSecond? ==> server.frame == OneRttFinish(x.ccfg, Sent(x, draw).payload))
    && (server.SAcking? ==> server.ack == ServerAck(KeyHash(x.su, c.record)))
  }

  predicate NoTraffic(p: Pipe) {
    p.fly == [] && p.input == [] && p.output == []
  }

  ghost predicate IsHello(x: Setup, f: Frame) {
    exists now: U64 :: f == HelloFrame(x.scfg, now)
  }

  /** The queue holds one hello that names the server's key. */
  ghost predicate HelloQueued(x: Setup, q: seq<Bytes>) {
    |q| == 1 && exists now: U64 :: q[0] == EncodeBody(HelloFrame(x.scfg, now))
  }

  /** The server turned the connection down; the client may still be pumping. */
  predicate OrphanInv(c: Side, c2s: Pipe, s2c: Pipe) {
    && c2s.output == []
    && NoTraffic(s2c) && s2c.queue == []
    && (c.down.AwaitAck? || c.down.Draining? || c.down.DownEof?)
  }

  /** A client that has sent nothing. */
  predicate Silent(client: ClientPhase) {
    client.CStart? || (client.CReady? && client.zeroRtt)
  }

  /** What the server has made of a 1-RTT hello so far. */
  ghost predicate Greeted(x: Setup, st: State) {
    match st.server
    case SStart => st.s2c.queue == [] && st.c2s.queue == [EncodeBody(OneRttHello(x.ccfg))]
    case SFirst(_) => st.s2c.queue == []
    case SGreeting(_) => st.s2c.queue == []
    case SAwaitData => HelloQueued(x, st.s2c.queue)
    case _ => st.server.SRejected? && (st.s2c.queue == [] || HelloQueued(x, st.s2c.queue))
  }

  /** No payload is on the wire. */
  ghost predicate QuietInv(x: Setup, st: State)
    requires Honest(x)
  {
    && NoTraffic(st.c2s) && NoTraffic(st.s2c)
    && !st.server.SAcking? && !st.server.SSecond? && !st.server.SFlush? && !st.server.SOpen?
    && (st.server.SFirst? ==> st.server.frame == OneRttHello(x.ccfg))
    && (st.server.SGreeting? ==> IsHello(x, st.server.hello))
    && (Silent(st.client) ==> (st.server.SStart? || st.server.SRejected?) && st.s2c.queue == [])
    && (Silent(st.client) && st.server.SStart? ==> st.c2s.queue == [])
    && (st.client.CAwaitHello? ==> Greeted(x, st) && !ZeroRttMode(x))
    && (st.client.CReady? ==> st.client.flight == Sent(x, st.client.draw) && st.client.zeroRtt == ZeroRttMode(x))
    && (st.client.CReady? && !st.client.zeroRtt ==>
          (st.server.SAwaitData? || st.server.SRejected?) && st.s2c.queue == [])
    && (st.server.SFirst? || st.server.SGreeting? || st.server.SAwaitData? ==> st.c2s.queue == [])
    && (st.server.SStart? ==> st.c2s.queue == [] || st.c2s.queue == [EncodeBody(OneRttHello(x.ccfg))])
  }

  ghost predicate PhaseInv(x: Setup, st: State)
    requires Honest(x)
  {
    if !st.client.COpen? then QuietInv(x, st)
    else if st.server.SRejected? then OrphanInv(st.client.side, st.c2s, st.s2c)
    else st.drawn.Some? && OpenInv(x, st.client.side, st.server, st.drawn.value, st.c2s, st.s2c, st.serverErr.Some?)
  }

  predicate ClientErrorAllowed(e: NetError) {
    e in {Io, EarlyClose, Cert}
  }

  predicate ServerErrorAllowed(x: Setup, e: NetError) {
    || e in {Io, EarlyClose, Core(StaleTimestamp), Core(Replayed)}
    || (e == Core(SourceIpMismatch) && x.srcIp != x.peerIp)
  }

  ghost predicate ErrorsAllowed(x: Setup, st: State) {
    && (st.clientErr.Some? ==> ClientErrorAllowed(st.clientErr.value))
    && (st.serverErr.Some? ==> ServerErrorAllowed(x, st.serverErr.value))
    && (st.client.CRejected? ==> st.clientErr.Some?)
    && (st.server.SRejected? ==> st.serverErr.Some?)
    && (st.client.COpen? && st.client.side.down.DownEof? ==> st.serverErr.Some?)
    && (st.server.SOpen? && st.server.side.down.DownEof? ==> st.clientErr.Some?)
  }

  ghost predicate Inv(x: Setup, st: State)
    requires Honest(x)
  {
    PhaseInv(x, st) && ErrorsAllowed(x, st)
  }
}
