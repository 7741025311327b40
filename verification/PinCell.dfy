/** The client's pin: a write-once cache of the server key, shared by concurrent
    connection tasks. Each task snapshots the pin, opens its connection against
    whatever the network answers, and then publishes its key if the pin is empty. */
module PinCell {
  import opened ByteStrings

  /** The client's certificate policy on (server key, certificate). */
  type Verifier = (Bytes, Bytes) -> bool

  /** What came back for a 1-RTT hello; the peer is not trusted. */
  datatype Answer = NoAnswer | Hello(serverPk: Bytes, certificate: Bytes)

  datatype Task =
    | Waiting
    | Snapped(cached: Option<Bytes>)
    | Opened(cached: Option<Bytes>, key: Bytes, zeroRtt: bool)
    | Published(cached: Option<Bytes>, key: Bytes, zeroRtt: bool)
    | Failed

  predicate Established(t: Task) {
    t.Opened? || t.Published?
  }

  datatype World = World(pin: Option<Bytes>, tasks: seq<Task>)

  const START: World := World(None, [])

  /** `flightOk` is false when building or writing the flight fails. */
  datatype Event =
    | Accept
    | Snap(i: nat)
    | Open(i: nat, answer: Answer, flightOk: bool)
    | Publish(i: nat)

  /** `client_open`: 0-RTT on a cached key unless 1-RTT is forced; otherwise the
      answered key, if it verifies and does not contradict the cached one. */
  function OpenTask(verifies: Verifier, force1rtt: bool, cached: Option<Bytes>, answer: Answer, flightOk: bool): Task {
    if cached.Some? && !force1rtt then
      if flightOk then Opened(cached, cached.value, true) else Failed
    else
      match answer
      case NoAnswer => Failed
      case Hello(pk, cert) =>
        if !verifies(pk, cert) then Failed
        else if cached.Some? && cached.value != pk then Failed
        else if flightOk then Opened(cached, pk, false) else Failed
  }

  function Next(verifies: Verifier, force1rtt: bool, w: World, e: Event): World {
    match e
    case Accept => w.(tasks := w.tasks + [Waiting])
    case Snap(i) =>
      if i < |w.tasks| && w.tasks[i].Waiting? then w.(tasks := w.tasks[i := Snapped(w.pin)]) else w
    case Open(i, answer, flightOk) =>
      if i < |w.tasks| && w.tasks[i].Snapped?
      then w.(tasks := w.tasks[i := OpenTask(verifies, force1rtt, w.tasks[i].cached, answer, flightOk)]) else w
    case Publish(i) =>
      if i < |w.tasks| && w.tasks[i].Opened? then
        var t := w.tasks[i];
        World(if w.pin.None? then Some(t.key) else w.pin, w.tasks[i := Published(t.cached, t.key, t.zeroRtt)])
      else w
  }

  function Run(verifies: Verifier, force1rtt: bool, events: seq<Event>): World {
    if events == [] then START
    else Next(verifies, force1rtt, Run(verifies, force1rtt, events[..|events| - 1]), events[|events| - 1])
  }

  /** Event `j` of the run received `key` with a certificate that the policy
      accepted, and opened a 1-RTT session on it. */
  ghost predicate VerifiedAt(verifies: Verifier, force1rtt: bool, events: seq<Event>, j: nat, key: Bytes) {
    && j < |events| && events[j].Open? && events[j].answer.Hello?
    && events[j].answer.serverPk == key && verifies(key, events[j].answer.certificate)
    && var tasks := Run(verifies, force1rtt, events[..j + 1]).tasks;
       && events[j].i < |tasks| && tasks[events[j].i].Opened?
       && tasks[events[j].i].key == key && !tasks[events[j].i].zeroRtt
  }

  /** The key passed the certificate check of some task of this run. */
  ghost predicate Verified(verifies: Verifier, force1rtt: bool, events: seq<Event>, key: Bytes) {
    exists j :: VerifiedAt(verifies, force1rtt, events, j, key)
  }

  lemma VerifiedStays(verifies: Verifier, force1rtt: bool, events: seq<Event>, e: Event, key: Bytes)
    requires Verified(verifies, force1rtt, events, key)
    ensures Verified(verifies, force1rtt, events + [e], key)
  {
    hide Run;
    var j :| VerifiedAt(verifies, force1rtt, events, j, key);
    assert (events + [e])[..j + 1] == events[..j + 1];
    assert VerifiedAt(verifies, force1rtt, events + [e], j, key);
  }

  ghost predicate TaskOk(verifies: Verifier, force1rtt: bool, events: seq<Event>, pin: Option<Bytes>, t: Task) {
    match t
    case Snapped(cached) => cached.Some? ==> pin == cached
    case Opened(cached, key, zeroRtt) => SessionOk(verifies, force1rtt, events, pin, cached, key, zeroRtt)
    case Published(cached, key, zeroRtt) =>
      pin.Some? && SessionOk(verifies, force1rtt, events, pin, cached, key, zeroRtt)
    case _ => true
  }

  /** A session that started from a snapshot uses the pinned key; one that started
      without a pin uses a key that verified. */
  ghost predicate SessionOk(verifies: Verifier, force1rtt: bool, events: seq<Event>,
                            pin: Option<Bytes>, cached: Option<Bytes>, key: Bytes, zeroRtt: bool)
  {
    && Verified(verifies, force1rtt, events, key)
    && (cached.Some? ==> cached == Some(key) && pin == cached)
    && (zeroRtt <==> cached.Some? && !force1rtt)
  }

  ghost predicate Inv(verifies: Verifier, force1rtt: bool, events: seq<Event>, w: World) {
    && (w.pin.Some? ==> Verified(verifies, force1rtt, events, w.pin.value))
    && forall i :: 0 <= i < |w.tasks| ==> TaskOk(verifies, force1rtt, events, w.pin, w.tasks[i])
  }

  lemma InvStays(verifies: Verifier, force1rtt: bool, events: seq<Event>, e: Event, w: World)
    requires Inv(verifies, force1rtt, events, w)
    ensures Inv(verifies, force1rtt, events + [e], w)
  {
    hide Verified;
    if w.pin.Some? {
      VerifiedStays(verifies, force1rtt, events, e, w.pin.value);
    }
    forall i | 0 <= i < |w.tasks|
      ensures TaskOk(verifies, force1rtt, events + [e], w.pin, w.tasks[i])
    {
      assert TaskOk(verifies, force1rtt, events, w.pin, w.tasks[i]);
      if Established(w.tasks[i]) {
        VerifiedStays(verifies, force1rtt, events, e, w.tasks[i].key);
      }
    }
  }

  /** A 1-RTT session is opened on a key that this very event verified. */
  lemma OpenVerifies(verifies: Verifier, force1rtt: bool, events: seq<Event>, e: Event)
    requires e.Open? && e.i < |Run(verifies, force1rtt, events).tasks|
    requires Run(verifies, force1rtt, events).tasks[e.i].Snapped?
    ensures var t := Next(verifies, force1rtt, Run(verifies, force1rtt, events), e).tasks[e.i];
            t.Opened? && !t.zeroRtt ==> Verified(verifies, force1rtt, events + [e], t.key)
  {
    var t := Next(verifies, force1rtt, Run(verifies, force1rtt, events), e).tasks[e.i];
    if t.Opened? && !t.zeroRtt {
      var all := events + [e];
      RunStep(verifies, force1rtt, events, e, all);
      assert all[..|events| + 1] == all;
      assert VerifiedAt(verifies, force1rtt, all, |events|, t.key);
    }
  }

  lemma StepKeeps(verifies: Verifier, force1rtt: bool, events: seq<Event>, e: Event)
    requires Inv(verifies, force1rtt, events, Run(verifies, force1rtt, events))
    ensures var w := Run(verifies, force1rtt, events);
            var n := Run(verifies, force1rtt, events + [e]);
            Inv(verifies, force1rtt, events + [e], n) && (w.pin.Some? ==> n.pin == w.pin)
  {
    hide Verified, Run;
    RunStep(verifies, force1rtt, events, e, events + [e]);
    var w := Run(verifies, force1rtt, events);
    var n := Next(verifies, force1rtt, w, e);
    InvStays(verifies, force1rtt, events, e, w);
    if e.Open? && e.i < |w.tasks| && w.tasks[e.i].Snapped? {
      OpenVerifies(verifies, force1rtt, events, e);
    }
    forall i | 0 <= i < |n.tasks|
      ensures TaskOk(verifies, force1rtt, events + [e], n.pin, n.tasks[i])
    {
      if i < |w.tasks| {
        assert TaskOk(verifies, force1rtt, events + [e], w.pin, w.tasks[i]);
      }
    }
  }

  lemma {:induction false} RunKeeps(verifies: Verifier, force1rtt: bool, events: seq<Event>)
    ensures Inv(verifies, force1rtt, events, Run(verifies, force1rtt, events))
  {
    hide Inv, Next;
    if events == [] {
      StartOk(verifies, force1rtt);
    } else {
      var front := events[..|events| - 1];
      RunKeeps(verifies, force1rtt, front);
      StepKeeps(verifies, force1rtt, front, events[|events| - 1]);
      assert front + [events[|events| - 1]] == events;
    }
  }

  lemma StartOk(verifies: Verifier, force1rtt: bool)
    ensures Inv(verifies, force1rtt, [], START)
  {
  }

  /** Pin stability: once set, the pin never changes, whatever the tasks do next. */
  lemma {:induction false} PinNeverChanges(verifies: Verifier, force1rtt: bool, events: seq<Event>, more: seq<Event>)
    requires Run(verifies, force1rtt, events).pin.Some?
    ensures Run(verifies, force1rtt, events + more).pin == Run(verifies, force1rtt, events).pin
  {
    if more == [] {
      assert events + more == events;
    } else {
      var front := more[..|more| - 1];
      PinNeverChanges(verifies, force1rtt, events, front);
      var e := more[|more| - 1];
      assert events + more == (events + front) + [e];
      RunKeeps(verifies, force1rtt, events + front);
      StepKeeps(verifies, force1rtt, events + front, e);
    }
  }

  /** In every interleaving: the pin and the key of every session came with a
      certificate that the policy accepted in this run, a session whose snapshot was a key uses that very key,
      and all 0-RTT sessions of a run share the pinned key. */
  lemma SessionsUsePin(verifies: Verifier, force1rtt: bool, events: seq<Event>)
    ensures var w := Run(verifies, force1rtt, events);
            && (w.pin.Some? ==> Verified(verifies, force1rtt, events, w.pin.value))
            && (forall i :: 0 <= i < |w.tasks| && Established(w.tasks[i]) ==>
                  && Verified(verifies, force1rtt, events, w.tasks[i].key)
                  && (w.tasks[i].cached.Some? ==>
                        w.tasks[i].cached == Some(w.tasks[i].key) && w.pin == w.tasks[i].cached)
                  && (w.tasks[i].zeroRtt ==> w.pin == Some(w.tasks[i].key)))
  {
    RunKeeps(verifies, force1rtt, events);
    var w := Run(verifies, force1rtt, events);
    forall i | 0 <= i < |w.tasks| && Established(w.tasks[i])
      ensures Verified(verifies, force1rtt, events, w.tasks[i].key)
      ensures w.tasks[i].cached.Some? ==> w.tasks[i].cached == Some(w.tasks[i].key) && w.pin == w.tasks[i].cached
      ensures w.tasks[i].zeroRtt ==> w.pin == Some(w.tasks[i].key)
    {
      assert TaskOk(verifies, force1rtt, events, w.pin, w.tasks[i]);
    }
  }

  // --- Tasks that come after the pin ---------------------------------------

  /** A task that snapshots a set pin opens on it: in 0-RTT whatever the peer answers
      unless 1-RTT is forced, and otherwise exactly if the peer answers with the
      pinned key and a certificate that verifies; and never without a flight. */
  lemma SnapThenOpen(verifies: Verifier, force1rtt: bool, w: World, i: nat, answer: Answer, flightOk: bool)
    requires i < |w.tasks| && w.tasks[i].Waiting? && w.pin.Some?
    ensures var n := Next(verifies, force1rtt, Next(verifies, force1rtt, w, Snap(i)), Open(i, answer, flightOk));
            && i < |n.tasks| && n.pin == w.pin
            && n.tasks[i] ==
               if !flightOk then Failed
               else if !force1rtt then Opened(w.pin, w.pin.value, true)
               else if answer.Hello? && answer.serverPk == w.pin.value && verifies(answer.serverPk, answer.certificate)
               then Opened(w.pin, w.pin.value, false)
               else Failed
  {
  }

  /** Where a task can be that has not taken its snapshot before the pin was `k`. */
  predicate AfterPin(force1rtt: bool, k: Bytes, w: World, i: nat) {
    && w.pin == Some(k)
    && (i < |w.tasks| ==>
          || w.tasks[i] in {Waiting, Failed, Snapped(Some(k))}
          || w.tasks[i] in {Opened(Some(k), k, !force1rtt), Published(Some(k), k, !force1rtt)})
  }

  lemma AfterPinStep(verifies: Verifier, force1rtt: bool, k: Bytes, w: World, i: nat, e: Event)
    requires AfterPin(force1rtt, k, w, i)
    ensures AfterPin(force1rtt, k, Next(verifies, force1rtt, w, e), i)
  {
  }

  /** Over every run: a task that takes its snapshot after the pin was set establishes
      only on the pinned key, and in 0-RTT if and only if 1-RTT is not forced. */
  lemma {:induction false} LateTasksUsePin(verifies: Verifier, force1rtt: bool, events: seq<Event>, more: seq<Event>,
                                           i: nat)
    requires var w := Run(verifies, force1rtt, events);
             w.pin.Some? && (i < |w.tasks| ==> w.tasks[i].Waiting?)
    ensures var k, n := Run(verifies, force1rtt, events).pin.value, Run(verifies, force1rtt, events + more);
            && AfterPin(force1rtt, k, n, i)
            && (i < |n.tasks| && Established(n.tasks[i]) ==>
                  n.tasks[i].key == k && n.tasks[i].cached == Some(k) && (n.tasks[i].zeroRtt <==> !force1rtt))
    decreases |more|
  {
    hide Run, Next;
    if more == [] {
      assert events + more == events;
    } else {
      var front, e := more[..|more| - 1], more[|more| - 1];
      LateTasksUsePin(verifies, force1rtt, events, front, i);
      RunStep(verifies, force1rtt, events + front, e, events + more);
      AfterPinStep(verifies, force1rtt, Run(verifies, force1rtt, events).pin.value,
                   Run(verifies, force1rtt, events + front), i, e);
    }
  }

  /** A session off the pinned key is possible, and only for a task that took its
      snapshot before the pin was set: two such tasks can end on different keys. */
  lemma RaceLeavesPin(verifies: Verifier, force1rtt: bool, k: Bytes, kc: Bytes, l: Bytes, lc: Bytes)
    requires verifies(k, kc) && verifies(l, lc) && k != l
    ensures var w := Run(verifies, force1rtt,
                         [Accept, Accept, Snap(0), Snap(1), Open(0, Hello(k, kc), true), Open(1, Hello(l, lc), true),
                          Publish(0), Publish(1)]);
            w == World(Some(k), [Published(None, k, false), Published(None, l, false)])
  {
    hide Run;
    var e5, e6 := Open(0, Hello(k, kc), true), Open(1, Hello(l, lc), true);
    RunEmpty(verifies, force1rtt);
    RunStep(verifies, force1rtt, [], Accept, [Accept]);
    RunStep(verifies, force1rtt, [Accept], Accept, [Accept, Accept]);
    RunStep(verifies, force1rtt, [Accept, Accept], Snap(0), [Accept, Accept, Snap(0)]);
    RunStep(verifies, force1rtt, [Accept, Accept, Snap(0)], Snap(1), [Accept, Accept, Snap(0), Snap(1)]);
    var w := Run(verifies, force1rtt, [Accept, Accept, Snap(0), Snap(1)]);
    assert w == World(None, [Snapped(None), Snapped(None)]);
    RunStep(verifies, force1rtt, [Accept, Accept, Snap(0), Snap(1)], e5, [Accept, Accept, Snap(0), Snap(1), e5]);
    RunStep(verifies, force1rtt, [Accept, Accept, Snap(0), Snap(1), e5], e6,
            [Accept, Accept, Snap(0), Snap(1), e5, e6]);
    RunStep(verifies, force1rtt, [Accept, Accept, Snap(0), Snap(1), e5, e6], Publish(0),
            [Accept, Accept, Snap(0), Snap(1), e5, e6, Publish(0)]);
    RunStep(verifies, force1rtt, [Accept, Accept, Snap(0), Snap(1), e5, e6, Publish(0)], Publish(1),
            [Accept, Accept, Snap(0), Snap(1), e5, e6, Publish(0), Publish(1)]);
  }

  lemma RunEmpty(verifies: Verifier, force1rtt: bool)
    ensures Run(verifies, force1rtt, []) == START
  {
  }

  lemma RunStep(verifies: Verifier, force1rtt: bool, events: seq<Event>, e: Event, all: seq<Event>)
    requires all == events + [e]
    ensures Run(verifies, force1rtt, all) == Next(verifies, force1rtt, Run(verifies, force1rtt, events), e)
  {
    assert all[..|events|] == events;
  }
}
