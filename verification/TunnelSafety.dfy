/** Safety of the tunnel over every run: each event keeps the invariant, and the
    invariant gives transparency in both directions. */
module TunnelSafety {
  import opened ByteStrings
  import opened Messages
  import opened Framing
  import opened Suites
  import opened Pools
  import opened Records
  import opened Replay
  import opened Handshake
  import opened Flows
  import opened Tunnel

  // --- The forwarding loops, seen from the side that acts ------------------

  lemma DuplexSeal(su: Suite, a: Side, b: Side, d: Direction, ab: Pipe, ba: Pipe, preAB: seq<Bytes>,
                   preBA: seq<Bytes>, chunk: Bytes)
    requires su.AeadLaw() && Duplex(su, a, b, d, ab, ba, preAB, preBA) && a.up.Reading? && |chunk| <= CHUNK
    ensures var (record, ct) := SealRecord(su, a.record, d, chunk);
            Duplex(su, a.(record := record, up := Holding(ct)), b, d,
                   ab.(fly := ab.fly + [Flight(chunk, ct)], input := ab.input + chunk), ba, preAB, preBA)
  {
    hide Flow;
    FlowSeal(su, a.record.keys.encKey, d, ab, a.record.pool.Dir(d), a.up, b.record.pool.Dir(d), b.down, preAB, chunk);
  }

  lemma DuplexWrite(su: Suite, a: Side, b: Side, d: Direction, ab: Pipe, ba: Pipe, preAB: seq<Bytes>, preBA: seq<Bytes>)
    requires Duplex(su, a, b, d, ab, ba, preAB, preBA) && a.up.Holding?
    ensures Duplex(su, a.(up := Reading), b, d, Enqueue(ab, DataRecord(d.Code(), a.up.ct)), ba, preAB, preBA)
  {
    hide Flow;
    FlowWrite(su, a.record.keys.encKey, d, ab, a.record.pool.Dir(d), a.up, b.record.pool.Dir(d), b.down, preAB);
  }

  lemma DuplexClose(su: Suite, a: Side, b: Side, d: Direction, ab: Pipe, ba: Pipe, preAB: seq<Bytes>, preBA: seq<Bytes>)
    requires Duplex(su, a, b, d, ab, ba, preAB, preBA) && a.up.Reading?
    ensures Duplex(su, a.(up := UpDone), b, d, Enqueue(ab, Close), ba, preAB, preBA)
  {
    hide Flow;
    FlowClose(su, a.record.keys.encKey, d, ab, a.record.pool.Dir(d), a.up, b.record.pool.Dir(d), b.down, preAB);
  }

  lemma FlowRead(su: Suite, key: Bytes, d: Direction, p: Pipe, s: DirState, up: Up, r: DirState)
    requires Flow(su, key, d, p, s, up, r, Draining, []) && p.queue != []
    ensures var down := TakeFrame(Draining, p.queue[0]);
            down.Ok? && !down.value.AwaitAck? && Flow(su, key, d, Rest(p), s, up, r, down.value, [])
  {
    hide Flow, RecordBody, CloseBody, Parse;
    FlowHead(su, key, d, p, s, up, r, Draining);
    if |p.fly| > Held(up) {
      ParseRecord(d, p.fly[0].ct);
      FlowTake(su, key, d, p, s, up, r, Draining);
    } else {
      ParseClose();
      FlowFinish(su, key, d, p, s, up, r, Draining);
    }
  }

  lemma DuplexRead(su: Suite, a: Side, b: Side, d: Direction, ab: Pipe, ba: Pipe, preAB: seq<Bytes>)
    requires Duplex(su, a, b, d, ab, ba, preAB, []) && a.down.Draining? && ba.queue != []
    ensures var down := TakeFrame(a.down, ba.queue[0]);
            && down.Ok? && !down.value.AwaitAck?
            && Duplex(su, a.(down := down.value), b, d, ab, Rest(ba), preAB, [])
  {
    hide Flow;
    FlowRead(su, a.record.keys.encKey, d.Flip(), ba, b.record.pool.Dir(d.Flip()), b.up, a.record.pool.Dir(d.Flip()));
  }

  lemma DuplexOpen(su: Suite, a: Side, b: Side, d: Direction, ab: Pipe, ba: Pipe, preAB: seq<Bytes>, preBA: seq<Bytes>)
    requires su.AeadLaw() && Duplex(su, a, b, d, ab, ba, preAB, preBA) && a.down.Opening?
    ensures var (record, pt) := OpenRecord(su, a.record, d.Flip(), a.down.ct);
            && pt.Some? && ba.fly != [] && pt.value == ba.fly[0].pt
            && Duplex(su, a.(record := record, down := Sinking(pt.value)), b, d, ab, ba.(fly := ba.fly[1..]), preAB,
                      preBA)
  {
    hide Flow;
    FlowOpen(su, a.record.keys.encKey, d.Flip(), ba, b.record.pool.Dir(d.Flip()), b.up, a.record.pool.Dir(d.Flip()),
             a.down, preBA);
  }

  lemma DuplexSink(su: Suite, a: Side, b: Side, d: Direction, ab: Pipe, ba: Pipe, preAB: seq<Bytes>, preBA: seq<Bytes>)
    requires Duplex(su, a, b, d, ab, ba, preAB, preBA) && a.down.Sinking?
    ensures Duplex(su, a.(down := Draining), b, d, ab, ba.(output := ba.output + a.down.pt), preAB, preBA)
  {
    hide Flow;
    FlowSink(su, a.record.keys.encKey, d.Flip(), ba, b.record.pool.Dir(d.Flip()), b.up, a.record.pool.Dir(d.Flip()),
             a.down, preBA);
  }

  lemma DuplexSwap(su: Suite, a: Side, b: Side, d: Direction, ab: Pipe, ba: Pipe, preAB: seq<Bytes>, preBA: seq<Bytes>)
    ensures Duplex(su, a, b, d, ab, ba, preAB, preBA) <==> Duplex(su, b, a, d.Flip(), ba, ab, preBA, preAB)
  {
    hide Flow;
  }

  // --- Client events while both ends share a session -----------------------

  /** The client's next side keeps the session's invariant if both directions stay
      in order and it does not start waiting for an acknowledgement. */
  lemma ClientMoves(x: Setup, c: Side, c': Side, server: ServerPhase, draw: Fresh, c2s: Pipe, c2s': Pipe, s2c: Pipe,
                    s2c': Pipe, gone: bool)
    requires Honest(x) && OpenInv(x, c, server, draw, c2s, s2c, gone)
    requires c'.record.keys == c.record.keys
             && (c'.down == c.down || (!c'.down.AwaitAck? && (Unacked(server) ==> gone)))
    requires c2s'.output == c2s.output && (!server.SOpen? ==> NoTraffic(s2c') && !c'.down.Sinking?)
    requires Duplex(x.su, c', ServerView(x, server, draw), ClientToServer, c2s', s2c',
                    PreludeC2S(x, server, draw), PreludeS2C(x, server, c'))
    ensures OpenInv(x, c', server, draw, c2s', s2c', gone)
  {
    hide Duplex, EncodeBody, Parse;
  }

  lemma ClientUpRead(x: Setup, st: State, chunk: Bytes)
    requires Honest(x) && Inv(x, st) && Live(st, Client)
    ensures Inv(x, DoUpRead(x, st, Client, chunk))
  {
    hide Duplex, EncodeBody, Parse;
    if !st.server.SRejected? && st.client.side.up.Reading? && 0 < |chunk| <= CHUNK {
      var c, draw := st.client.side, st.drawn.value;
      var s := ServerView(x, st.server, draw);
      DuplexSeal(x.su, c, s, ClientToServer, st.c2s, st.s2c, PreludeC2S(x, st.server, draw),
                 PreludeS2C(x, st.server, c), chunk);
      var n := DoUpRead(x, st, Client, chunk);
      ClientMoves(x, c, n.client.side, st.server, draw, st.c2s, n.c2s, st.s2c, n.s2c, st.serverErr.Some?);
    }
  }

  lemma ClientUpWrite(x: Setup, st: State)
    requires Honest(x) && Inv(x, st) && Live(st, Client)
    ensures Inv(x, DoUpWrite(x, st, Client))
  {
    hide Duplex, EncodeBody, Parse;
    if !st.server.SRejected? && st.client.side.up.Holding? {
      var c, draw := st.client.side, st.drawn.value;
      var s := ServerView(x, st.server, draw);
      DuplexWrite(x.su, c, s, ClientToServer, st.c2s, st.s2c, PreludeC2S(x, st.server, draw),
                  PreludeS2C(x, st.server, c));
      var n := DoUpWrite(x, st, Client);
      ClientMoves(x, c, n.client.side, st.server, draw, st.c2s, n.c2s, st.s2c, n.s2c, st.serverErr.Some?);
    }
  }

  lemma ClientUpClose(x: Setup, st: State)
    requires Honest(x) && Inv(x, st) && Live(st, Client)
    ensures Inv(x, DoUpClose(x, st, Client))
  {
    hide Duplex, EncodeBody, Parse;
    if !st.server.SRejected? && st.client.side.up.Reading? {
      var c, draw := st.client.side, st.drawn.value;
      var s := ServerView(x, st.server, draw);
      DuplexClose(x.su, c, s, ClientToServer, st.c2s, st.s2c, PreludeC2S(x, st.server, draw),
                  PreludeS2C(x, st.server, c));
      var n := DoUpClose(x, st, Client);
      ClientMoves(x, c, n.client.side, st.server, draw, st.c2s, n.c2s, st.s2c, n.s2c, st.serverErr.Some?);
    }
  }

  lemma ParseAck(x: Setup, record: RecordState)
    requires Honest(x)
    ensures Parse(EncodeBody(ServerAck(KeyHash(x.su, record)))) == Ok(ServerAck(KeyHash(x.su, record)))
  {
    AckSize(KeyHash(x.su, record));
    ParseIntact(ServerAck(KeyHash(x.su, record)));
  }

  /** A client that waits for its acknowledgement finds it, or finds nothing yet. */
  lemma ClientReadAck(x: Setup, c: Side, server: ServerPhase, draw: Fresh, c2s: Pipe, s2c: Pipe, gone: bool)
    requires Honest(x) && OpenInv(x, c, server, draw, c2s, s2c, gone) && c.down.AwaitAck? && s2c.queue != []
    ensures TakeFrame(c.down, s2c.queue[0]) == Ok(Draining)
    ensures OpenInv(x, c.(down := Draining), server, draw, c2s, Rest(s2c), gone)
  {
    hide Flow, EncodeBody;
    var s := ServerView(x, server, draw);
    var key := c.record.keys.encKey;
    if server.SFlush? || server.SOpen? {
      ParseAck(x, c.record);
      FlowPrelude(x.su, key, ServerToClient, s2c, s.record.pool.s2c, s.up, c.record.pool.s2c, c.down,
                  EncodeBody(ServerAck(KeyHash(x.su, c.record))));
      FlowIdle(x.su, key, ServerToClient, Rest(s2c), s.record.pool.s2c, s.up, c.record.pool.s2c, c.down, [], Draining);
      ClientMoves(x, c, c.(down := Draining), server, draw, c2s, c2s, s2c, Rest(s2c), gone);
    } else {
      FlowQuiet(x.su, key, ServerToClient, s2c, s.record.pool.s2c, s.up, c.record.pool.s2c, c.down);
    }
  }

  lemma ClientEof(x: Setup, c: Side, server: ServerPhase, draw: Fresh, c2s: Pipe, s2c: Pipe)
    requires Honest(x) && OpenInv(x, c, server, draw, c2s, s2c, true) && s2c.queue == []
    requires c.down.AwaitAck? || c.down.Draining?
    ensures OpenInv(x, c.(down := DownEof), server, draw, c2s, s2c, true)
  {
    hide Flow, EncodeBody;
    var s := ServerView(x, server, draw);
    if PreludeS2C(x, server, c) != [] {
      FlowPrelude(x.su, c.record.keys.encKey, ServerToClient, s2c, s.record.pool.s2c, s.up, c.record.pool.s2c, c.down,
                  EncodeBody(ServerAck(KeyHash(x.su, c.record))));
    }
    FlowIdle(x.su, c.record.keys.encKey, ServerToClient, s2c, s.record.pool.s2c, s.up, c.record.pool.s2c, c.down, [],
             DownEof);
    ClientMoves(x, c, c.(down := DownEof), server, draw, c2s, c2s, s2c, s2c, true);
  }

  lemma ClientReadRecord(x: Setup, c: Side, server: ServerPhase, draw: Fresh, c2s: Pipe, s2c: Pipe, gone: bool)
    requires Honest(x) && OpenInv(x, c, server, draw, c2s, s2c, gone) && c.down.Draining? && s2c.queue != []
    ensures var down := TakeFrame(c.down, s2c.queue[0]);
            down.Ok? && OpenInv(x, c.(down := down.value), server, draw, c2s, Rest(s2c), gone)
  {
    hide Duplex, EncodeBody, Parse;
    var s := ServerView(x, server, draw);
    DuplexRead(x.su, c, s, ClientToServer, c2s, s2c, PreludeC2S(x, server, draw));
    ClientMoves(x, c, c.(down := TakeFrame(c.down, s2c.queue[0]).value), server, draw, c2s, c2s, s2c, Rest(s2c), gone);
  }

  lemma ClientDownReadAck(x: Setup, st: State)
    requires Honest(x) && Inv(x, st) && Live(st, Client) && !st.server.SRejected?
    requires st.client.side.down.AwaitAck? && st.s2c.queue != []
    ensures Inv(x, DoDownRead(x, st, Client))
  {
    hide Duplex, EncodeBody, Parse;
    ClientReadAck(x, st.client.side, st.server, st.drawn.value, st.c2s, st.s2c, st.serverErr.Some?);
  }

  lemma ClientDownReadRecord(x: Setup, st: State)
    requires Honest(x) && Inv(x, st) && Live(st, Client) && !st.server.SRejected?
    requires st.client.side.down.Draining? && st.s2c.queue != []
    ensures Inv(x, DoDownRead(x, st, Client))
  {
    hide Duplex, EncodeBody, Parse;
    ClientReadRecord(x, st.client.side, st.server, st.drawn.value, st.c2s, st.s2c, st.serverErr.Some?);
  }

  lemma ClientDownReadEof(x: Setup, st: State)
    requires Honest(x) && Inv(x, st) && Live(st, Client) && st.s2c.queue == []
    ensures Inv(x, DoDownRead(x, st, Client))
  {
    hide Duplex, EncodeBody, Parse;
    var c := st.client.side;
    if (c.down.AwaitAck? || c.down.Draining?) && st.serverErr.Some? && !st.server.SRejected? {
      ClientEof(x, c, st.server, st.drawn.value, st.c2s, st.s2c);
    }
  }

  lemma ClientDownRead(x: Setup, st: State)
    requires Honest(x) && Inv(x, st) && Live(st, Client)
    ensures Inv(x, DoDownRead(x, st, Client))
  {
    hide Duplex, EncodeBody, Parse;
    var c := st.client.side;
    if st.s2c.queue == [] {
      ClientDownReadEof(x, st);
    } else if c.down.AwaitAck? {
      ClientDownReadAck(x, st);
    } else if c.down.Draining? {
      ClientDownReadRecord(x, st);
    }
  }

  lemma ClientDownOpen(x: Setup, st: State)
    requires Honest(x) && Inv(x, st) && Live(st, Client)
    ensures Inv(x, DoDownOpen(x, st, Client))
  {
    hide Duplex, EncodeBody, Parse;
    if !st.server.SRejected? && st.client.side.down.Opening? {
      var c, draw := st.client.side, st.drawn.value;
      var s := ServerView(x, st.server, draw);
      DuplexOpen(x.su, c, s, ClientToServer, st.c2s, st.s2c, PreludeC2S(x, st.server, draw),
                 PreludeS2C(x, st.server, c));
      var n := DoDownOpen(x, st, Client);
      ClientMoves(x, c, n.client.side, st.server, draw, st.c2s, n.c2s, st.s2c, n.s2c, st.serverErr.Some?);
    }
  }

  lemma ClientDownSink(x: Setup, st: State)
    requires Honest(x) && Inv(x, st) && Live(st, Client)
    ensures Inv(x, DoDownSink(x, st, Client))
  {
    hide Duplex, EncodeBody, Parse;
    if !st.server.SRejected? && st.client.side.down.Sinking? {
      var c, draw := st.client.side, st.drawn.value;
      var s := ServerView(x, st.server, draw);
      DuplexSink(x.su, c, s, ClientToServer, st.c2s, st.s2c, PreludeC2S(x, st.server, draw),
                 PreludeS2C(x, st.server, c));
      var n := DoDownSink(x, st, Client);
      ClientMoves(x, c, n.client.side, st.server, draw, st.c2s, n.c2s, st.s2c, n.s2c, st.serverErr.Some?);
    }
  }

  // --- Server events while both ends share a session -----------------------

  lemma ServerMoves(x: Setup, c: Side, s: Side, s': Side, draw: Fresh, c2s: Pipe, c2s': Pipe, s2c: Pipe, s2c': Pipe,
                    gone: bool)
    requires Honest(x) && OpenInv(x, c, SOpen(s), draw, c2s, s2c, gone) && !s'.down.AwaitAck?
    requires Duplex(x.su, s', c, ServerToClient, s2c', c2s', PreludeS2C(x, SOpen(s), c), [])
    ensures OpenInv(x, c, SOpen(s'), draw, c2s', s2c', gone)
  {
    hide Duplex, EncodeBody, Parse;
    DuplexSwap(x.su, s', c, ServerToClient, s2c', c2s', PreludeS2C(x, SOpen(s), c), []);
  }

  lemma ServerUpRead(x: Setup, st: State, chunk: Bytes)
    requires Honest(x) && Inv(x, st) && Live(st, Server)
    ensures Inv(x, DoUpRead(x, st, Server, chunk))
  {
    hide Duplex, EncodeBody, Parse;
    var c, s := st.client.side, st.server.side;
    if s.up.Reading? && 0 < |chunk| <= CHUNK {
      var pre := PreludeS2C(x, st.server, c);
      DuplexSwap(x.su, c, s, ClientToServer, st.c2s, st.s2c, [], pre);
      DuplexSeal(x.su, s, c, ServerToClient, st.s2c, st.c2s, pre, [], chunk);
      var n := DoUpRead(x, st, Server, chunk);
      ServerMoves(x, c, s, n.server.side, st.drawn.value, st.c2s, n.c2s, st.s2c, n.s2c, st.serverErr.Some?);
    }
  }

  lemma ServerUpWrite(x: Setup, st: State)
    requires Honest(x) && Inv(x, st) && Live(st, Server)
    ensures Inv(x, DoUpWrite(x, st, Server))
  {
    hide Duplex, EncodeBody, Parse;
    var c, s := st.client.side, st.server.side;
    if s.up.Holding? {
      var pre := PreludeS2C(x, st.server, c);
      DuplexSwap(x.su, c, s, ClientToServer, st.c2s, st.s2c, [], pre);
      DuplexWrite(x.su, s, c, ServerToClient, st.s2c, st.c2s, pre, []);
      var n := DoUpWrite(x, st, Server);
      ServerMoves(x, c, s, n.server.side, st.drawn.value, st.c2s, n.c2s, st.s2c, n.s2c, st.serverErr.Some?);
    }
  }

  lemma ServerUpClose(x: Setup, st: State)
    requires Honest(x) && Inv(x, st) && Live(st, Server)
    ensures Inv(x, DoUpClose(x, st, Server))
  {
    hide Duplex, EncodeBody, Parse;
    var c, s := st.client.side, st.server.side;
    if s.up.Reading? {
      var pre := PreludeS2C(x, st.server, c);
      DuplexSwap(x.su, c, s, ClientToServer, st.c2s, st.s2c, [], pre);
      DuplexClose(x.su, s, c, ServerToClient, st.s2c, st.c2s, pre, []);
      var n := DoUpClose(x, st, Server);
      ServerMoves(x, c, s, n.server.side, st.drawn.value, st.c2s, n.c2s, st.s2c, n.s2c, st.serverErr.Some?);
    }
  }

  lemma ServerDownOpen(x: Setup, st: State)
    requires Honest(x) && Inv(x, st) && Live(st, Server)
    ensures Inv(x, DoDownOpen(x, st, Server))
  {
    hide Duplex, EncodeBody, Parse;
    var c, s := st.client.side, st.server.side;
    if s.down.Opening? {
      var pre := PreludeS2C(x, st.server, c);
      DuplexSwap(x.su, c, s, ClientToServer, st.c2s, st.s2c, [], pre);
      DuplexOpen(x.su, s, c, ServerToClient, st.s2c, st.c2s, pre, []);
      var n := DoDownOpen(x, st, Server);
      ServerMoves(x, c, s, n.server.side, st.drawn.value, st.c2s, n.c2s, st.s2c, n.s2c, st.serverErr.Some?);
    }
  }

  lemma ServerDownSink(x: Setup, st: State)
    requires Honest(x) && Inv(x, st) && Live(st, Server)
    ensures Inv(x, DoDownSink(x, st, Server))
  {
    hide Duplex, EncodeBody, Parse;
    var c, s := st.client.side, st.server.side;
    if s.down.Sinking? {
      var pre := PreludeS2C(x, st.server, c);
      DuplexSwap(x.su, c, s, ClientToServer, st.c2s, st.s2c, [], pre);
      DuplexSink(x.su, s, c, ServerToClient, st.s2c, st.c2s, pre, []);
      var n := DoDownSink(x, st, Server);
      ServerMoves(x, c, s, n.server.side, st.drawn.value, st.c2s, n.c2s, st.s2c, n.s2c, st.serverErr.Some?);
    }
  }

  lemma ServerDownReadEof(x: Setup, st: State)
    requires Honest(x) && Inv(x, st) && Live(st, Server) && st.c2s.queue == []
    ensures Inv(x, DoDownRead(x, st, Server))
  {
    hide Flow, EncodeBody;
    var c, s := st.client.side, st.server.side;
    if s.down.Draining? && st.clientErr.Some? {
      var pre := PreludeS2C(x, st.server, c);
      FlowIdle(x.su, c.record.keys.encKey, ClientToServer, st.c2s, c.record.pool.c2s, c.up, s.record.pool.c2s, s.down,
               [], DownEof);
      DuplexSwap(x.su, c, s.(down := DownEof), ClientToServer, st.c2s, st.s2c, [], pre);
      ServerMoves(x, c, s, s.(down := DownEof), st.drawn.value, st.c2s, st.c2s, st.s2c, st.s2c, st.serverErr.Some?);
    }
  }

  lemma ServerDownReadRecord(x: Setup, st: State)
    requires Honest(x) && Inv(x, st) && Live(st, Server) && st.server.side.down.Draining? && st.c2s.queue != []
    ensures Inv(x, DoDownRead(x, st, Server))
  {
    hide Duplex, EncodeBody, Parse;
    var c, s := st.client.side, st.server.side;
    var pre := PreludeS2C(x, st.server, c);
    DuplexSwap(x.su, c, s, ClientToServer, st.c2s, st.s2c, [], pre);
    DuplexRead(x.su, s, c, ServerToClient, st.s2c, st.c2s, pre);
    var s' := s.(down := TakeFrame(s.down, st.c2s.queue[0]).value);
    ServerMoves(x, c, s, s', st.drawn.value, st.c2s, Rest(st.c2s), st.s2c, st.s2c, st.serverErr.Some?);
  }

  lemma ServerDownRead(x: Setup, st: State)
    requires Honest(x) && Inv(x, st) && Live(st, Server)
    ensures Inv(x, DoDownRead(x, st, Server))
  {
    hide Duplex, EncodeBody, Parse;
    if st.c2s.queue == [] {
      ServerDownReadEof(x, st);
    } else if st.server.side.down.Draining? {
      ServerDownReadRecord(x, st);
    }
  }

  // --- Opening -------------------------------------------------------------

  /** The flight an honest client sends: the first record of a fresh session. */
  lemma SentFacts(x: Setup, draw: Fresh)
    requires Honest(x)
    ensures var fl := Sent(x, draw);
            var start := InitRecord(fl.record.keys, draw.nonce);
            && Flight0(x, x.scfg.serverPk, draw) == Ok(fl)
            && fl.payload.encData == SealWith(x.su, fl.record.keys.encKey, ClientToServer, start.pool.c2s, x.early)
            && fl.record.pool.c2s == Advance(start.pool.c2s, fl.payload.encData)
            && fl.record.pool.s2c == start.pool.s2c
            && fl.expectedHash == KeyHash(x.su, fl.record)
  {
    HonestBuild(x.su, x.ccfg, x.scfg, x.srcIp, draw.r, draw.nonce, draw.ts, x.early);
  }

  lemma SentFrames(x: Setup, draw: Fresh)
    requires Honest(x)
    ensures var f := FlightFrame(x, Sent(x, draw).payload, ZeroRttMode(x));
            |EncodeBody(f)| <= MAX_FRAME && Parse(EncodeBody(f)) == Ok(f)
  {
    HonestBuild(x.su, x.ccfg, x.scfg, x.srcIp, draw.r, draw.nonce, draw.ts, x.early);
    FlightSizes(x.su, x.ccfg, x.scfg, x.srcIp, draw.r, draw.nonce, draw.ts, x.early);
    ParseIntact(FlightFrame(x, Sent(x, draw).payload, ZeroRttMode(x)));
  }

  lemma FirstFlow(su: Suite, key: Bytes, s: DirState, pt: Bytes, hello: Bytes)
    ensures var ct := SealWith(su, key, ClientToServer, s, pt);
            Flow(su, key, ClientToServer, Pipe([hello], [Flight(pt, ct)], pt, []), Advance(s, ct), Reading, s,
                 Opening(ct), [hello])
  {
    var ct := SealWith(su, key, ClientToServer, s, pt);
    var fly := [Flight(pt, ct)];
    assert Linked(su, key, ClientToServer, Advance(s, ct), Advance(s, ct), fly[1..]);
    assert Flat(fly) == pt + Flat(fly[1..]);
    var all := Bodies(ClientToServer, fly);
    assert [hello] + all[1..1] + [] == [hello];
  }

  lemma IdleFlow(su: Suite, key: Bytes, d: Direction, p: Pipe, s: DirState, down: Down)
    requires NoTraffic(p) && p.queue == [] && (down.AwaitAck? || down.Draining?)
    ensures Flow(su, key, d, p, s, Reading, s, down, [])
  {
    hide EncodeBody, RecordBody;
  }

  /** Both ways of opening put the two ends in a session. */
  lemma Opened(x: Setup, server: ServerPhase, draw: Fresh, s2c: Pipe, zeroRtt: bool, gone: bool)
    requires Honest(x) && NoTraffic(s2c) && s2c.queue == []
    requires zeroRtt == ZeroRttMode(x) && (if zeroRtt then server.SStart? else server.SAwaitData?)
    ensures var fl := Sent(x, draw);
            var body := EncodeBody(FlightFrame(x, fl.payload, zeroRtt));
            OpenInv(x, Side(fl.record, Reading, FirstDown(fl, zeroRtt)), server, draw,
                    Pipe([body], [Flight(x.early, fl.payload.encData)], x.early, []), s2c, gone)
  {
    hide Flow, EncodeBody, BuildPayload, Honest;
    SentFacts(x, draw);
    var fl := Sent(x, draw);
    var start := InitRecord(fl.record.keys, draw.nonce);
    FirstFlow(x.su, fl.record.keys.encKey, start.pool.c2s, x.early, PreludeC2S(x, server, draw)[0]);
    IdleFlow(x.su, fl.record.keys.encKey, ServerToClient, s2c, start.pool.s2c, FirstDown(fl, zeroRtt));
  }

  /** The client's first record on a connection that has carried none. */
  lemma Started(x: Setup, st: State)
    requires NoTraffic(st.c2s) && st.c2s.queue == [] && st.client.CReady?
    ensures var fl := st.client.flight;
            DoClientSend(x, st).c2s
            == Pipe([EncodeBody(FlightFrame(x, fl.payload, st.client.zeroRtt))],
                    [Flight(x.early, fl.payload.encData)], x.early, [])
  {
    var fl := st.client.flight;
    var body, flight := EncodeBody(FlightFrame(x, fl.payload, st.client.zeroRtt)), Flight(x.early, fl.payload.encData);
    assert [] + [body] == [body] && [] + [flight] == [flight] && [] + x.early == x.early;
  }

  lemma ClientOpens(x: Setup, st: State, draw: Fresh)
    requires Honest(x) && Inv(x, st) && st.client.CStart? && st.clientErr.None?
    ensures Inv(x, DoClientOpen(x, st, draw))
  {
    hide Duplex, EncodeBody, Parse;
    SentFacts(x, draw);
    if !ZeroRttMode(x) {
      var body := EncodeBody(OneRttHello(x.ccfg));
      assert [] + [body] == [body];
    }
  }

  lemma ClientSends(x: Setup, st: State)
    requires Honest(x) && Inv(x, st) && st.client.CReady? && st.clientErr.None?
    ensures Inv(x, DoClientSend(x, st))
  {
    hide Duplex, EncodeBody, Parse;
    if !st.server.SRejected? {
      Started(x, st);
      Opened(x, st.server, st.client.draw, st.s2c, st.client.zeroRtt, st.serverErr.Some?);
    }
  }

  lemma ParseHello(x: Setup, now: U64)
    requires Honest(x)
    ensures Parse(EncodeBody(HelloFrame(x.scfg, now))) == Ok(HelloFrame(x.scfg, now))
  {
    ServerHelloSize(SUITE_CODE, x.scfg.serverPk, x.scfg.certificate, now);
    ParseIntact(HelloFrame(x.scfg, now));
  }

  lemma ClientFinishes(x: Setup, st: State, draw: Fresh)
    requires Honest(x) && Inv(x, st) && st.client.CAwaitHello? && st.clientErr.None?
    ensures Inv(x, DoClientFinish(x, st, draw))
  {
    hide Duplex, EncodeBody, Parse;
    if st.s2c.queue != [] {
      assert HelloQueued(x, st.s2c.queue);
      var now: U64 :| st.s2c.queue[0] == EncodeBody(HelloFrame(x.scfg, now));
      ParseHello(x, now);
      SentFacts(x, draw);
      assert Rest(st.s2c).queue == [];
    }
  }

  /** What the server answers to the honest payload. */
  lemma ProcessSent(x: Setup, draw: Fresh, now: U64, cache: CacheState)
    requires Honest(x)
    ensures var r := ProcessPayload(x.su, x.scfg, x.ccfg.clientPk, Sent(x, draw).payload, x.peerIp, now, cache).1;
            && (r.Err? ==> ServerErrorAllowed(x, Core(r.error)))
            && (r.Ok? ==> r.value == Session(Sent(x, draw).record, x.early))
  {
    HonestProcess(x.su, x.ccfg, x.scfg, x.srcIp, draw.r, draw.nonce, draw.ts, x.early, x.peerIp, now, cache);
  }

  /** Until the server has processed the payload, the other direction is idle. */
  lemma ClientIdle(x: Setup, c: Side, server: ServerPhase, draw: Fresh, c2s: Pipe, s2c: Pipe, gone: bool)
    requires Honest(x) && OpenInv(x, c, server, draw, c2s, s2c, gone) && Unopened(server)
    ensures OrphanInv(c, c2s, s2c)
  {
    hide Flow, EncodeBody;
    var s := ServerView(x, server, draw);
    FlowQuiet(x.su, c.record.keys.encKey, ServerToClient, s2c, s.record.pool.s2c, s.up, c.record.pool.s2c, c.down);
  }

  /** The payload's frame is taken off the wire. */
  lemma PayloadRead(x: Setup, c: Side, server: ServerPhase, draw: Fresh, c2s: Pipe, s2c: Pipe)
    requires Honest(x) && OpenInv(x, c, server, draw, c2s, s2c, false) && (server.SStart? || server.SAwaitData?)
    ensures var f := FlightFrame(x, Sent(x, draw).payload, server.SStart?);
            && c2s.queue != [] && Parse(c2s.queue[0]) == Ok(f)
            && OpenInv(x, c, if server.SStart? then SFirst(f) else SSecond(f), draw, Rest(c2s), s2c, false)
  {
    hide Flow, EncodeBody, Parse;
    SentFrames(x, draw);
    var s := ServerView(x, server, draw);
    FlowPrelude(x.su, c.record.keys.encKey, ClientToServer, c2s, c.record.pool.c2s, c.up, s.record.pool.c2s, s.down,
                PreludeC2S(x, server, draw)[0]);
  }

  /** Opening the record inside the payload starts the server's session. */
  lemma PayloadOpened(x: Setup, c: Side, server: ServerPhase, draw: Fresh, c2s: Pipe, s2c: Pipe, after: ServerPhase)
    requires Honest(x) && OpenInv(x, c, server, draw, c2s, s2c, false) && (server.SFirst? || server.SSecond?)
    requires var record := Sent(x, draw).record;
             after == if server.SFirst? then SAcking(ServerAck(KeyHash(x.su, record)), record, x.early)
                       else SFlush(record, x.early)
    ensures c2s.fly != []
    ensures OpenInv(x, c, after, draw, c2s.(fly := c2s.fly[1..]), s2c, false)
  {
    hide Flow, EncodeBody;
    SentFacts(x, draw);
    var s := ServerView(x, server, draw);
    FlowOpen(x.su, c.record.keys.encKey, ClientToServer, c2s, c.record.pool.c2s, c.up, s.record.pool.c2s, s.down, []);
  }

  lemma AckSent(su: Suite, key: Bytes, s2c: Pipe, s: DirState, r: DirState, down: Down, ack: Bytes)
    requires Flow(su, key, ServerToClient, s2c, s, Reading, r, down, []) && s2c.fly == [] && down.AwaitAck?
    ensures Flow(su, key, ServerToClient, s2c.(queue := s2c.queue + [ack]), s, Reading, r, down, [ack])
  {
    assert Bodies(ServerToClient, []) == [];
    assert s2c.queue == [] && s2c.queue + [ack] == [ack];
  }

  lemma AckWritten(x: Setup, c: Side, server: ServerPhase, draw: Fresh, c2s: Pipe, s2c: Pipe)
    requires Honest(x) && OpenInv(x, c, server, draw, c2s, s2c, false) && server.SAcking?
    ensures OpenInv(x, c, SFlush(server.record, server.early), draw, c2s, Enqueue(s2c, server.ack), false)
  {
    hide Flow, EncodeBody;
    AckSent(x.su, c.record.keys.encKey, s2c, server.record.pool.s2c, c.record.pool.s2c, c.down, EncodeBody(server.ack));
  }

  lemma ServerReads(x: Setup, st: State)
    requires Honest(x) && Inv(x, st) && (st.server.SStart? || st.server.SAwaitData?) && st.serverErr.None?
    ensures Inv(x, DoServerRead(x, st))
  {
    hide Duplex, EncodeBody, Parse;
    if st.client.COpen? {
      PayloadRead(x, st.client.side, st.server, st.drawn.value, st.c2s, st.s2c);
    } else if st.c2s.queue != [] {
      HelloSize(SUITE_CODE, x.ccfg.clientPk);
      ParseIntact(OneRttHello(x.ccfg));
    }
  }

  lemma ServerProcesses(x: Setup, st: State, now: U64, cache: CacheState)
    requires Honest(x) && Inv(x, st) && (st.server.SFirst? || st.server.SSecond?) && st.serverErr.None?
    ensures Inv(x, DoServerProcess(x, st, now, cache))
  {
    hide Duplex, EncodeBody, Parse, ProcessPayload;
    if st.client.COpen? {
      var c, draw := st.client.side, st.drawn.value;
      var record := Sent(x, draw).record;
      ClientIdle(x, c, st.server, draw, st.c2s, st.s2c, false);
      ProcessSent(x, draw, now, cache);
      PayloadOpened(x, c, st.server, draw, st.c2s, st.s2c,
                    if st.server.SFirst? then SAcking(ServerAck(KeyHash(x.su, record)), record, x.early)
                    else SFlush(record, x.early));
    }
  }

  lemma ServerSends(x: Setup, st: State)
    requires Honest(x) && Inv(x, st) && (st.server.SGreeting? || st.server.SAcking?) && st.serverErr.None?
    ensures Inv(x, DoServerSend(st))
  {
    hide Duplex, EncodeBody, Parse;
    if st.server.SAcking? {
      AckWritten(x, st.client.side, st.server, st.drawn.value, st.c2s, st.s2c);
    } else {
      var now: U64 :| st.server.hello == HelloFrame(x.scfg, now);
      assert st.s2c.queue == [] ==> HelloQueued(x, st.s2c.queue + [EncodeBody(HelloFrame(x.scfg, now))]);
    }
  }

  lemma ServerFlushes(x: Setup, st: State)
    requires Honest(x) && Inv(x, st) && st.server.SFlush? && st.serverErr.None?
    ensures Inv(x, Next(x, st, ServerFlush))
  {
    hide Duplex, EncodeBody, Parse;
    var c, draw := st.client.side, st.drawn.value;
    var s := ServerView(x, st.server, draw);
    var pre := PreludeS2C(x, st.server, c);
    DuplexSwap(x.su, c, s, ClientToServer, st.c2s, st.s2c, [], pre);
    DuplexSink(x.su, s, c, ServerToClient, st.s2c, st.c2s, pre, []);
    DuplexSwap(x.su, s.(down := Draining), c, ServerToClient, st.s2c,
               st.c2s.(output := st.c2s.output + st.server.early), pre, []);
  }

  // --- Every run -----------------------------------------------------------

  lemma ClientStep(x: Setup, st: State, e: Event)
    requires Honest(x) && Inv(x, st)
    requires e.ClientOpen? || e.ClientFinish? || e.ClientSend?
             || ((e.UpRead? || e.UpWrite? || e.UpClose? || e.DownRead? || e.DownOpen? || e.DownSink?) && e.role.Client?)
    ensures Inv(x, Next(x, st, e))
  {
    hide Duplex, EncodeBody, Parse;
    if Next(x, st, e) != st {
      match e
      case ClientOpen(draw) => ClientOpens(x, st, draw);
      case ClientFinish(draw) => ClientFinishes(x, st, draw);
      case ClientSend => ClientSends(x, st);
      case UpRead(_, chunk) => ClientUpRead(x, st, chunk);
      case UpWrite(_) => ClientUpWrite(x, st);
      case UpClose(_) => ClientUpClose(x, st);
      case DownRead(_) => ClientDownRead(x, st);
      case DownOpen(_) => ClientDownOpen(x, st);
      case DownSink(_) => ClientDownSink(x, st);
    }
  }

  lemma ServerStep(x: Setup, st: State, e: Event)
    requires Honest(x) && Inv(x, st)
    requires e.ServerRead? || e.ServerProcess? || e.ServerSend? || e.ServerFlush?
             || ((e.UpRead? || e.UpWrite? || e.UpClose? || e.DownRead? || e.DownOpen? || e.DownSink?) && e.role.Server?)
    ensures Inv(x, Next(x, st, e))
  {
    hide Duplex, EncodeBody, Parse;
    if Next(x, st, e) != st {
      match e
      case ServerRead => ServerReads(x, st);
      case ServerProcess(now, cache) => ServerProcesses(x, st, now, cache);
      case ServerSend => ServerSends(x, st);
      case ServerFlush => ServerFlushes(x, st);
      case UpRead(_, chunk) => ServerUpRead(x, st, chunk);
      case UpWrite(_) => ServerUpWrite(x, st);
      case UpClose(_) => ServerUpClose(x, st);
      case DownRead(_) => ServerDownRead(x, st);
      case DownOpen(_) => ServerDownOpen(x, st);
      case DownSink(_) => ServerDownSink(x, st);
    }
  }

  lemma Halts(x: Setup, st: State, role: Role)
    requires Honest(x) && Inv(x, st)
    ensures Inv(x, Next(x, st, IoFailure(role)))
  {
    hide OpenInv, EncodeBody, Parse;
    if st.client.COpen? && !st.server.SRejected? && role.Server? {
      ServerGone(x, st.client.side, st.server, st.drawn.value, st.c2s, st.s2c, st.serverErr.Some?);
    }
  }

  lemma ServerGone(x: Setup, c: Side, server: ServerPhase, draw: Fresh, c2s: Pipe, s2c: Pipe, gone: bool)
    requires Honest(x) && OpenInv(x, c, server, draw, c2s, s2c, gone)
    ensures OpenInv(x, c, server, draw, c2s, s2c, true)
  {
    hide Duplex, EncodeBody;
  }

  lemma StepKeeps(x: Setup, st: State, e: Event)
    requires Honest(x) && Inv(x, st)
    ensures Inv(x, Next(x, st, e))
  {
    hide Duplex, EncodeBody, Parse;
    match e
    case IoFailure(role) => Halts(x, st, role);
    case ClientOpen(_) => ClientStep(x, st, e);
    case ClientFinish(_) => ClientStep(x, st, e);
    case ClientSend => ClientStep(x, st, e);
    case ServerRead => ServerStep(x, st, e);
    case ServerProcess(_, _) => ServerStep(x, st, e);
    case ServerSend => ServerStep(x, st, e);
    case ServerFlush => ServerStep(x, st, e);
    case _ =>
      if e.role.Client? {
        ClientStep(x, st, e);
      } else {
        ServerStep(x, st, e);
      }
  }

  lemma {:induction false} RunKeeps(x: Setup, events: seq<Event>)
    requires Honest(x)
    ensures Inv(x, Execute(x, events))
  {
    hide Duplex, EncodeBody, Parse;
    if events != [] {
      var front := events[..|events| - 1];
      RunKeeps(x, front);
      StepKeeps(x, Execute(x, front), events[|events| - 1]);
    }
  }

  /** The receiving loop of a role has processed the peer's Close. */
  predicate Closed(st: State, role: Role) {
    Forwarding(st, role) && SideOf(st, role).down.DownClosed?
  }

  lemma InvTransparent(x: Setup, st: State)
    requires Honest(x) && Inv(x, st)
    ensures st.c2s.output <= st.c2s.input && st.s2c.output <= st.s2c.input
    ensures Closed(st, Server) ==> st.c2s.output == st.c2s.input
    ensures Closed(st, Client) ==> st.s2c.output == st.s2c.input
  {
    hide Flow, EncodeBody;
    if st.client.COpen? && !st.server.SRejected? {
      var c, s := st.client.side, ServerView(x, st.server, st.drawn.value);
      var key := c.record.keys.encKey;
      FlowPrefix(x.su, key, ClientToServer, st.c2s, c.record.pool.c2s, c.up, s.record.pool.c2s, s.down,
                 PreludeC2S(x, st.server, st.drawn.value));
      FlowPrefix(x.su, key, ServerToClient, st.s2c, s.record.pool.s2c, s.up, c.record.pool.s2c, c.down,
                 PreludeS2C(x, st.server, c));
    }
  }

  /** End-to-end transparency. In every interleaving of an honest client and an
      honest server, opened in 0-RTT or 1-RTT, with any server clock and strike
      cache and with I/O failures at any point: what each plain sink has received
      is a prefix of what the other side put in, all of it once Close has been
      processed; and no endpoint ever stops on an unexpected frame, a decoding
      error, an oversized frame, a failed open or a failed key confirmation. */
  lemma Transparency(x: Setup, events: seq<Event>)
    requires Honest(x)
    ensures var st := Execute(x, events);
            && st.c2s.output <= st.c2s.input && st.s2c.output <= st.s2c.input
            && (Closed(st, Server) ==> st.c2s.output == st.c2s.input)
            && (Closed(st, Client) ==> st.s2c.output == st.s2c.input)
            && (st.clientErr.Some? ==> ClientErrorAllowed(st.clientErr.value))
            && (st.serverErr.Some? ==> ServerErrorAllowed(x, st.serverErr.value))
  {
    RunKeeps(x, events);
    InvTransparent(x, Execute(x, events));
  }
}
