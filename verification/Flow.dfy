/** One direction of an established tunnel: a sending loop, a queue of frame
    bodies, a receiving loop. What each step of either loop keeps. */
module Flows {
  import opened ByteStrings
  import opened Codec
  import opened Messages
  import opened Framing
  import opened Suites
  import opened Pools
  import opened Records
  import opened Handshake

  const CHUNK: nat := 16 * 1024

  /** The failures of the networked layer. `InvalidRecord` is the I/O error of kind
      "invalid data" that a failed open turns into, `FrameCap` the one of an
      oversized length prefix. */
  datatype NetError =
    | Io
    | FrameCap
    | InvalidRecord
    | Proto(proto: ProtoError)
    | Core(core: CoreError)
    | Unexpected
    | KeyConfirmation
    | PinMismatch
    | Cert
    | EarlyClose

  /** The plain-to-tunnel loop: reading, or holding a sealed record not yet written. */
  datatype Up = Reading | Holding(ct: Bytes) | UpDone

  /** The tunnel-to-plain loop: waiting for the acknowledgement, reading frames,
      about to open, about to write, finished by Close, finished by end of stream. */
  datatype Down = AwaitAck(expected: Bytes) | Draining | Opening(ct: Bytes) | Sinking(pt: Bytes) | DownClosed | DownEof

  /** Where a client's receiving loop starts. */
  function FirstDown(fl: ClientFlight, zeroRtt: bool): Down {
    if zeroRtt then AwaitAck(fl.expectedHash) else Draining
  }

  /** Frame bodies on the wire, records sealed but not opened yet, and the bytes
      that went in at one end and came out at the other. */
  datatype Pipe = Pipe(queue: seq<Bytes>, fly: seq<Flight>, input: Bytes, output: Bytes)

  const EMPTY_PIPE: Pipe := Pipe([], [], [], [])

  /** Read one body off the wire and decode it. */
  function Parse(body: Bytes): Result<Frame, NetError> {
    if |body| > MAX_FRAME then Err(FrameCap)
    else
      match DecodeBody(body)
      case Err(e) => Err(Proto(e))
      case Ok(f) => Ok(f)
  }

  lemma ParseIntact(f: Frame)
    requires Encodable(f) && |EncodeBody(f)| <= MAX_FRAME
    ensures Parse(EncodeBody(f)) == Ok(f)
  {
    RoundTrip(f);
  }

  function RecordBody(d: Direction, ct: Bytes): Bytes {
    EncodeBody(DataRecord(d.Code(), ct))
  }

  /** Every record the forwarder writes passes the peer's frame cap and decoder. */
  lemma ParseRecord(d: Direction, ct: Bytes)
    requires |ct| <= CHUNK + TAG_LEN
    ensures |RecordBody(d, ct)| <= MAX_FRAME
    ensures Parse(RecordBody(d, ct)) == Ok(DataRecord(d.Code(), ct))
  {
    DataRecordSize(d.Code(), ct);
    ParseIntact(DataRecord(d.Code(), ct));
  }

  function CloseBody(): Bytes {
    EncodeBody(Close)
  }

  lemma ParseClose()
    ensures Parse(CloseBody()) == Ok(Close)
  {
    ParseIntact(Close);
  }

  /** What the receiving loop makes of a frame while it waits for one. */
  function OnFrame(down: Down, f: Frame): Result<Down, NetError>
    requires down.AwaitAck? || down.Draining?
  {
    match down
    case AwaitAck(expected) =>
      if !f.ServerAck? then Err(Unexpected)
      else if f.ekHash != expected then Err(KeyConfirmation)
      else Ok(Draining)
    case Draining =>
      if f.DataRecord? then Ok(Opening(f.ciphertext))
      else if f.Close? then Ok(DownClosed)
      else Err(Unexpected)
  }

  function TakeFrame(down: Down, body: Bytes): Result<Down, NetError>
    requires down.AwaitAck? || down.Draining?
  {
    match Parse(body)
    case Err(e) => Err(e)
    case Ok(f) => OnFrame(down, f)
  }

  lemma ParseIff(body: Bytes, f: Frame)
    ensures Parse(body) == Ok(f) <==> |body| <= MAX_FRAME && Encodable(f) && body == EncodeBody(f)
  {
    if Parse(body) == Ok(f) {
      Canonical(body);
    }
    if Encodable(f) {
      RoundTrip(f);
    }
  }

  /** A client that waits for its acknowledgement goes on exactly on the frame with
      the expected hash, reports a key-confirmation failure exactly on one with
      another hash, and refuses everything else. */
  lemma AckIff(expected: Bytes, body: Bytes)
    requires |expected| == 64
    ensures TakeFrame(AwaitAck(expected), body).Ok? <==> body == EncodeBody(ServerAck(expected))
    ensures TakeFrame(AwaitAck(expected), body).Ok? ==> TakeFrame(AwaitAck(expected), body).value == Draining
    ensures TakeFrame(AwaitAck(expected), body) == Err(KeyConfirmation)
            <==> exists h :: h != expected && Parse(body) == Ok(ServerAck(h))
    ensures TakeFrame(AwaitAck(expected), body) == Err(Unexpected)
            <==> Parse(body).Ok? && !Parse(body).value.ServerAck?
  {
    hide Parse, EncodeBody, Encodable;
    ParseIff(body, ServerAck(expected));
    AckSize(expected);
    AckFits(expected);
    ParseErrors(body);
  }

  lemma AckFits(h: Bytes)
    requires |h| == 64
    ensures Encodable(ServerAck(h))
  {
  }

  lemma ParseErrors(body: Bytes)
    ensures Parse(body).Err? ==> Parse(body).error.FrameCap? || Parse(body).error.Proto?
  {
  }

  /** A draining loop takes a record for opening exactly if the body carries one, ends
      on Close alone, and refuses every other frame. */
  lemma DrainIff(body: Bytes, ct: Bytes)
    ensures TakeFrame(Draining, body) == Ok(Opening(ct)) <==> exists d :: Parse(body) == Ok(DataRecord(d, ct))
    ensures TakeFrame(Draining, body) == Ok(DownClosed) <==> body == [0x07]
    ensures TakeFrame(Draining, body) == Err(Unexpected)
            <==> Parse(body).Ok? && !Parse(body).value.DataRecord? && !Parse(body).value.Close?
  {
    hide Parse, Encodable;
    ParseIff(body, Close);
    CloseBytes();
    ParseErrors(body);
    if TakeFrame(Draining, body) == Ok(Opening(ct)) {
      assert Parse(body) == Ok(DataRecord(Parse(body).value.dir, ct));
    }
  }

  lemma CloseBytes()
    ensures EncodeBody(Close) == [0x07] && Encodable(Close)
  {
  }

  // --- The invariant of one direction --------------------------------------

  function Bodies(d: Direction, fly: seq<Flight>): (bs: seq<Bytes>)
    ensures |bs| == |fly|
  {
    seq(|fly|, i requires 0 <= i < |fly| => RecordBody(d, fly[i].ct))
  }

  function Flat(fly: seq<Flight>): Bytes {
    if fly == [] then [] else fly[0].pt + Flat(fly[1..])
  }

  lemma {:induction false} FlatSnoc(fly: seq<Flight>, f: Flight)
    ensures Flat(fly + [f]) == Flat(fly) + f.pt
  {
    if fly == [] {
      assert (fly + [f])[1..] == [];
    } else {
      FlatSnoc(fly[1..], f);
      assert (fly + [f])[1..] == fly[1..] + [f];
      Associate(fly[0].pt, Flat(fly[1..]), f.pt);
    }
  }

  function Held(up: Up): nat {
    if up.Holding? then 1 else 0
  }

  function Skip(down: Down): nat {
    if down.Opening? then 1 else 0
  }

  function Pending(down: Down): Bytes {
    if down.Sinking? then down.pt else []
  }

  function Tail(up: Up, down: Down): seq<Bytes> {
    if up.UpDone? && !down.DownClosed? then [CloseBody()] else []
  }

  /** The queue: frames of the handshake, records sealed but not taken off the
      wire, and Close once the sender is done. `all` are the bodies of the records
      in flight, written or not. */
  function Expected(all: seq<Bytes>, up: Up, down: Down, prelude: seq<Bytes>): seq<Bytes>
    requires Skip(down) + Held(up) <= |all|
  {
    prelude + all[Skip(down)..|all| - Held(up)] + Tail(up, down)
  }

  predicate SmallFrom(fly: seq<Flight>, n: nat) {
    forall i :: n <= i < |fly| ==> |fly[i].ct| <= CHUNK + TAG_LEN
  }

  predicate LoopsAgree(fly: seq<Flight>, up: Up, down: Down) {
    && Skip(down) + Held(up) <= |fly|
    && (up.Holding? ==> fly[|fly| - 1].ct == up.ct)
    && (down.Opening? ==> fly[0].ct == down.ct)
    && (down.DownClosed? ==> fly == [] && up.UpDone?)
    && SmallFrom(fly, Skip(down))
  }

  /** One direction is in order: sender and receiver are linked by the records in
      flight, the queue holds just those, and every byte that went in is out,
      about to be written, or in flight, in that order. */
  ghost predicate Flow(su: Suite, key: Bytes, d: Direction, p: Pipe, s: DirState, up: Up, r: DirState, down: Down,
                       prelude: seq<Bytes>)
  {
    && LoopsAgree(p.fly, up, down)
    && Linked(su, key, d, s, r, p.fly)
    && p.queue == Expected(Bodies(d, p.fly), up, down, prelude)
    && p.output + Pending(down) + Flat(p.fly) == p.input
  }

  // --- What each step does to the queue ------------------------------------

  lemma BodiesSnoc(d: Direction, fly: seq<Flight>, f: Flight)
    ensures Bodies(d, fly + [f]) == Bodies(d, fly) + [RecordBody(d, f.ct)]
  {
  }

  lemma BodiesRest(d: Direction, fly: seq<Flight>)
    requires fly != []
    ensures Bodies(d, fly)[0] == RecordBody(d, fly[0].ct)
    ensures Bodies(d, fly)[1..] == Bodies(d, fly[1..])
  {
  }

  lemma BodiesLast(d: Direction, fly: seq<Flight>)
    requires fly != []
    ensures Bodies(d, fly)[|fly| - 1] == RecordBody(d, fly[|fly| - 1].ct)
  {
  }

  lemma ExpectedSeal(all: seq<Bytes>, body: Bytes, ct: Bytes, down: Down, prelude: seq<Bytes>)
    requires Skip(down) <= |all|
    ensures Expected(all + [body], Holding(ct), down, prelude) == Expected(all, Reading, down, prelude)
  {
    assert (all + [body])[Skip(down)..|all|] == all[Skip(down)..|all|];
  }

  lemma ExpectedWrite(all: seq<Bytes>, up: Up, down: Down, prelude: seq<Bytes>)
    requires Skip(down) + Held(up) <= |all| && up.Holding?
    ensures Expected(all, Reading, down, prelude) == Expected(all, up, down, prelude) + [all[|all| - 1]]
  {
    var k, n := Skip(down), |all|;
    assert all[k..n] == all[k..n - 1] + [all[n - 1]];
    Associate(prelude, all[k..n - 1], [all[n - 1]]);
  }

  lemma ExpectedTake(all: seq<Bytes>, up: Up, ct: Bytes)
    requires |all| > Held(up)
    ensures var q := Expected(all, up, Draining, []);
            q != [] && q[0] == all[0] && q[1..] == Expected(all, up, Opening(ct), [])
  {
    var n := |all| - Held(up);
    var tail := Tail(up, Draining);
    assert all[0..n] == [all[0]] + all[1..n];
    Associate([all[0]], all[1..n], tail);
    assert [] + all[0..n] == all[0..n] && [] + all[1..n] == all[1..n];
  }

  lemma ExpectedOpen(all: seq<Bytes>, up: Up, ct: Bytes, pt: Bytes, prelude: seq<Bytes>)
    requires 1 + Held(up) <= |all|
    ensures Expected(all[1..], up, Sinking(pt), prelude) == Expected(all, up, Opening(ct), prelude)
  {
    var n := |all|;
    assert all[1..][0..n - 1 - Held(up)] == all[1..n - Held(up)];
  }

  lemma ExpectedPrelude(all: seq<Bytes>, up: Up, down: Down, first: Bytes)
    requires Skip(down) + Held(up) <= |all|
    ensures var q := Expected(all, up, down, [first]);
            q != [] && q[0] == first && q[1..] == Expected(all, up, down, [])
  {
    var mid, tail := all[Skip(down)..|all| - Held(up)], Tail(up, down);
    Associate([first], mid, tail);
    assert [] + mid == mid;
  }

  lemma QueueWrite(d: Direction, fly: seq<Flight>, queue: seq<Bytes>, up: Up, down: Down, prelude: seq<Bytes>)
    requires LoopsAgree(fly, up, down) && up.Holding? && queue == Expected(Bodies(d, fly), up, down, prelude)
    ensures queue + [RecordBody(d, up.ct)] == Expected(Bodies(d, fly), Reading, down, prelude)
  {
    hide Expected, Bodies, RecordBody;
    BodiesLast(d, fly);
    ExpectedWrite(Bodies(d, fly), up, down, prelude);
  }

  // --- Steps of the sending loop -------------------------------------------

  lemma FlowSeal(su: Suite, key: Bytes, d: Direction, p: Pipe, s: DirState, up: Up, r: DirState, down: Down,
                 prelude: seq<Bytes>, chunk: Bytes)
    requires su.AeadLaw() && Flow(su, key, d, p, s, up, r, down, prelude) && up.Reading? && |chunk| <= CHUNK
    ensures var ct := SealWith(su, key, d, s, chunk);
            Flow(su, key, d, p.(fly := p.fly + [Flight(chunk, ct)], input := p.input + chunk),
                 Advance(s, ct), Holding(ct), r, down, prelude)
  {
    var ct := SealWith(su, key, d, s, chunk);
    LinkedSeal(su, key, d, s, r, p.fly, chunk);
    FlatSnoc(p.fly, Flight(chunk, ct));
    Associate(p.output + Pending(down), Flat(p.fly), chunk);
    BodiesSnoc(d, p.fly, Flight(chunk, ct));
    ExpectedSeal(Bodies(d, p.fly), RecordBody(d, ct), ct, down, prelude);
  }

  lemma FlowWrite(su: Suite, key: Bytes, d: Direction, p: Pipe, s: DirState, up: Up, r: DirState, down: Down,
                  prelude: seq<Bytes>)
    requires Flow(su, key, d, p, s, up, r, down, prelude) && up.Holding?
    ensures Flow(su, key, d, p.(queue := p.queue + [RecordBody(d, up.ct)]), s, Reading, r, down, prelude)
  {
    QueueWrite(d, p.fly, p.queue, up, down, prelude);
  }

  lemma FlowClose(su: Suite, key: Bytes, d: Direction, p: Pipe, s: DirState, up: Up, r: DirState, down: Down,
                  prelude: seq<Bytes>)
    requires Flow(su, key, d, p, s, up, r, down, prelude) && up.Reading?
    ensures Flow(su, key, d, p.(queue := p.queue + [CloseBody()]), s, UpDone, r, down, prelude)
  {
    assert Tail(up, down) == [];
  }

  // --- Steps of the receiving loop -----------------------------------------

  /** What a draining receiver finds at the head of a non-empty queue: the oldest
      record in flight, or Close and then nothing is in flight. */
  lemma FlowHead(su: Suite, key: Bytes, d: Direction, p: Pipe, s: DirState, up: Up, r: DirState, down: Down)
    requires Flow(su, key, d, p, s, up, r, down, []) && down.Draining? && p.queue != []
    ensures |p.fly| >= Held(up)
    ensures |p.fly| > Held(up) ==> p.queue[0] == RecordBody(d, p.fly[0].ct) && |p.fly[0].ct| <= CHUNK + TAG_LEN
    ensures |p.fly| == Held(up) ==> p.queue == [CloseBody()] && up.UpDone? && p.fly == []
  {
    if |p.fly| > Held(up) {
      ExpectedTake(Bodies(d, p.fly), up, p.fly[0].ct);
      BodiesRest(d, p.fly);
    }
  }

  lemma FlowTake(su: Suite, key: Bytes, d: Direction, p: Pipe, s: DirState, up: Up, r: DirState, down: Down)
    requires Flow(su, key, d, p, s, up, r, down, []) && down.Draining? && |p.fly| > Held(up)
    ensures p.queue != []
    ensures Flow(su, key, d, p.(queue := p.queue[1..]), s, up, r, Opening(p.fly[0].ct), [])
  {
    ExpectedTake(Bodies(d, p.fly), up, p.fly[0].ct);
  }

  lemma FlowDone(su: Suite, key: Bytes, d: Direction, p: Pipe, s: DirState, up: Up)
    requires p.fly == [] && p.queue == [] && p.output == p.input && up.UpDone?
    ensures Flow(su, key, d, p, s, up, s, DownClosed, [])
  {
    assert p.output + [] + Flat([]) == p.output;
  }

  lemma FlowFinish(su: Suite, key: Bytes, d: Direction, p: Pipe, s: DirState, up: Up, r: DirState, down: Down)
    requires Flow(su, key, d, p, s, up, r, down, []) && down.Draining? && p.queue != [] && |p.fly| == Held(up)
    ensures Flow(su, key, d, p.(queue := p.queue[1..]), s, up, r, DownClosed, [])
  {
    hide EncodeBody, Expected;
    FlowHead(su, key, d, p, s, up, r, down);
    assert p.output + [] + Flat([]) == p.output;
    FlowDone(su, key, d, p.(queue := p.queue[1..]), s, up);
  }

  /** The frame in front of the records is taken off first. */
  lemma FlowPrelude(su: Suite, key: Bytes, d: Direction, p: Pipe, s: DirState, up: Up, r: DirState, down: Down,
                    first: Bytes)
    requires Flow(su, key, d, p, s, up, r, down, [first])
    ensures p.queue != [] && p.queue[0] == first
    ensures Flow(su, key, d, p.(queue := p.queue[1..]), s, up, r, down, [])
  {
    ExpectedPrelude(Bodies(d, p.fly), up, down, first);
  }

  lemma FlowQuiet(su: Suite, key: Bytes, d: Direction, p: Pipe, s: DirState, up: Up, r: DirState, down: Down)
    requires Flow(su, key, d, p, s, up, r, down, []) && p.fly == [] && up.Reading?
    ensures p.queue == [] && !down.Opening? && !down.DownClosed?
  {
  }

  /** The receiving loop may pass between states that hold nothing. */
  lemma FlowIdle(su: Suite, key: Bytes, d: Direction, p: Pipe, s: DirState, up: Up, r: DirState, down: Down,
                 prelude: seq<Bytes>, down': Down)
    requires Flow(su, key, d, p, s, up, r, down, prelude)
    requires down.AwaitAck? || down.Draining?
    requires down'.Draining? || down'.DownEof?
    ensures Flow(su, key, d, p, s, up, r, down', prelude)
  {
  }

  lemma FlowOpen(su: Suite, key: Bytes, d: Direction, p: Pipe, s: DirState, up: Up, r: DirState, down: Down,
                 prelude: seq<Bytes>)
    requires su.AeadLaw() && Flow(su, key, d, p, s, up, r, down, prelude) && down.Opening?
    ensures p.fly != [] && OpenWith(su, key, d, r, down.ct) == Some(p.fly[0].pt)
    ensures Flow(su, key, d, p.(fly := p.fly[1..]), s, up, AfterOpen(su, key, d, r, down.ct), Sinking(p.fly[0].pt),
                 prelude)
  {
    LinkedOpen(su, key, d, s, r, p.fly);
    BodiesRest(d, p.fly);
    ExpectedOpen(Bodies(d, p.fly), up, down.ct, p.fly[0].pt, prelude);
    Associate(p.output, p.fly[0].pt, Flat(p.fly[1..]));
    assert p.output + Pending(down) == p.output;
  }

  lemma FlowSink(su: Suite, key: Bytes, d: Direction, p: Pipe, s: DirState, up: Up, r: DirState, down: Down,
                 prelude: seq<Bytes>)
    requires Flow(su, key, d, p, s, up, r, down, prelude) && down.Sinking?
    ensures Flow(su, key, d, p.(output := p.output + down.pt), s, up, r, Draining, prelude)
  {
    assert (p.output + down.pt) + Pending(Draining) == p.output + down.pt;
  }

  /** What came out is a prefix of what went in, and all of it after Close. */
  lemma FlowPrefix(su: Suite, key: Bytes, d: Direction, p: Pipe, s: DirState, up: Up, r: DirState, down: Down,
                   prelude: seq<Bytes>)
    requires Flow(su, key, d, p, s, up, r, down, prelude)
    ensures p.output <= p.input
    ensures down.DownClosed? ==> p.output == p.input
  {
    Associate(p.output, Pending(down), Flat(p.fly));
  }
}
