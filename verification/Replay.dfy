/** The strike cache and the timestamp window: a self-evicting map that answers
    like a log that never forgets, and the arithmetic of repeated acceptance. */
module Replay {
  import opened ByteStrings
  import opened Suites

  // --- Timestamp window ----------------------------------------------------

  function SaturatingSub(a: U64, b: U64): U64 {
    if a < b then 0 else a - b
  }

  function SaturatingAdd(a: U64, b: U64): U64 {
    if a + b > U64_MAX then U64_MAX else a + b
  }

  function CheckWindow(now: U64, ts: U64, window: U64, skew: U64): Result<(), CoreError> {
    if ts > SaturatingAdd(now, skew) then Err(StaleTimestamp)
    else if SaturatingSub(now, ts) > window then Err(StaleTimestamp)
    else Ok(())
  }

  /** Saturation never shows: the check is the plain interval `[ts - skew, ts + window]`. */
  lemma WindowIsInterval(now: U64, ts: U64, window: U64, skew: U64)
    ensures CheckWindow(now, ts, window, skew).Ok? <==> ts <= now + skew && now <= ts + window
    ensures CheckWindow(now, ts, window, skew).Err? ==> CheckWindow(now, ts, window, skew).error == StaleTimestamp
  {
  }

  // --- The cache -----------------------------------------------------------

  datatype CacheState = CacheState(window: U64, entries: map<Bytes32, U64>, lastEvict: U64)

  function EmptyCache(window: U64): CacheState {
    CacheState(window, map[], 0)
  }

  function Evicted(c: CacheState, now: U64): CacheState {
    var cutoff := SaturatingSub(now, c.window);
    c.(entries := map t | t in c.entries && c.entries[t] >= cutoff :: c.entries[t], lastEvict := now)
  }

  function StrikeOnce(c: CacheState, tag: Bytes32, now: U64): (CacheState, Result<(), CoreError>) {
    var e := Evicted(c, now);
    if tag in e.entries then (e, Err(Replayed)) else (e.(entries := e.entries[tag := now]), Ok(()))
  }

  /** One call of `check_and_insert`. */
  datatype Strike = Strike(tag: Bytes32, now: U64)

  function CacheRun(window: U64, calls: seq<Strike>): CacheState {
    if calls == [] then EmptyCache(window)
    else
      var c := calls[|calls| - 1];
      StrikeOnce(CacheRun(window, calls[..|calls| - 1]), c.tag, c.now).0
  }

  /** The clock does not run backwards between calls. */
  predicate Monotone(calls: seq<Strike>) {
    forall i, j :: 0 <= i <= j < |calls| ==> calls[i].now <= calls[j].now
  }

  // --- The log that never forgets ------------------------------------------

  /** The tag was inserted no longer than one window ago. */
  predicate Struck(log: seq<Strike>, window: U64, c: Strike) {
    exists i :: 0 <= i < |log| && log[i].tag == c.tag && log[i].now >= SaturatingSub(c.now, window)
  }

  /** Every insertion ever made. */
  function Log(window: U64, calls: seq<Strike>): (log: seq<Strike>)
    ensures |log| <= |calls|
  {
    if calls == [] then []
    else
      var log, c := Log(window, calls[..|calls| - 1]), calls[|calls| - 1];
      if Struck(log, window, c) then log else log + [c]
  }

  /** The cache holds exactly the insertions of the last window. */
  ghost predicate Mirrors(c: CacheState, log: seq<Strike>) {
    var cutoff := SaturatingSub(c.lastEvict, c.window);
    && (forall t :: t in c.entries ==> c.entries[t] >= cutoff && Strike(t, c.entries[t]) in log)
    && (forall i :: 0 <= i < |log| ==> log[i].now <= c.lastEvict)
    && (forall i :: 0 <= i < |log| && log[i].now >= cutoff ==>
          log[i].tag in c.entries && c.entries[log[i].tag] == log[i].now)
  }

  lemma EvictMirrors(c: CacheState, log: seq<Strike>, now: U64)
    requires Mirrors(c, log) && c.lastEvict <= now
    ensures Mirrors(Evicted(c, now), log)
    ensures forall t :: t in Evicted(c, now).entries <==> Struck(log, c.window, Strike(t, now))
  {
    var e := Evicted(c, now);
    assert SaturatingSub(now, c.window) >= SaturatingSub(c.lastEvict, c.window);
    forall t | t in e.entries
      ensures Struck(log, c.window, Strike(t, now))
    {
      var i :| 0 <= i < |log| && log[i] == Strike(t, c.entries[t]);
    }
  }

  lemma InsertMirrors(e: CacheState, log: seq<Strike>, tag: Bytes32)
    requires Mirrors(e, log) && tag !in e.entries
    ensures Mirrors(e.(entries := e.entries[tag := e.lastEvict]), log + [Strike(tag, e.lastEvict)])
  {
    var m, grown := e.(entries := e.entries[tag := e.lastEvict]), log + [Strike(tag, e.lastEvict)];
    forall t | t in m.entries
      ensures Strike(t, m.entries[t]) in grown
    {
      if t == tag {
        assert grown[|log|] == Strike(tag, e.lastEvict);
      } else {
        assert Strike(t, e.entries[t]) in log;
      }
    }
  }

  lemma {:induction false} RunMirrors(window: U64, calls: seq<Strike>)
    requires Monotone(calls)
    ensures var c := CacheRun(window, calls);
            && c.window == window && Mirrors(c, Log(window, calls))
            && c.lastEvict == if calls == [] then 0 else calls[|calls| - 1].now
  {
    if calls != [] {
      var front, call := calls[..|calls| - 1], calls[|calls| - 1];
      RunMirrors(window, front);
      var c, log := CacheRun(window, front), Log(window, front);
      assert front != [] ==> front[|front| - 1] == calls[|calls| - 2];
      EvictMirrors(c, log, call.now);
      var e := Evicted(c, call.now);
      if call.tag !in e.entries {
        InsertMirrors(e, log, call.tag);
      }
    }
  }

  /** The evicting cache answers exactly like the full log. */
  lemma CacheRefinesLog(window: U64, calls: seq<Strike>, call: Strike)
    requires Monotone(calls + [call])
    ensures var (after, answer) := StrikeOnce(CacheRun(window, calls), call.tag, call.now);
            answer == if Struck(Log(window, calls), window, call) then Err(Replayed) else Ok(())
  {
    assert Monotone(calls) by {
      assert forall i :: 0 <= i < |calls| ==> (calls + [call])[i] == calls[i];
    }
    RunMirrors(window, calls);
    var c := CacheRun(window, calls);
    assert calls != [] ==> (calls + [call])[|calls| - 1].now <= (calls + [call])[|calls|].now;
    EvictMirrors(c, Log(window, calls), call.now);
  }

  /** Equal tags in the log lie more than one window apart. */
  predicate Spaced(log: seq<Strike>, window: U64) {
    forall i, j :: 0 <= i < j < |log| && log[i].tag == log[j].tag ==> log[i].now + window + 1 <= log[j].now
  }

  lemma {:induction false} LogSpaced(window: U64, calls: seq<Strike>)
    ensures Spaced(Log(window, calls), window)
  {
    if calls != [] {
      LogSpaced(window, calls[..|calls| - 1]);
    }
  }

  /** A rejected call leaves no trace: it neither adds nor refreshes an entry. */
  lemma RejectionLeavesEntries(c: CacheState, tag: Bytes32, now: U64)
    requires StrikeOnce(c, tag, now).1.Err?
    ensures StrikeOnce(c, tag, now).0 == Evicted(c, now)
    ensures tag in c.entries && StrikeOnce(c, tag, now).0.entries[tag] == c.entries[tag]
  {
  }

  // --- Size of the cache ---------------------------------------------------

  function CountSince(log: seq<Strike>, cutoff: U64): nat {
    if log == [] then 0
    else CountSince(log[..|log| - 1], cutoff) + if log[|log| - 1].now >= cutoff then 1 else 0
  }

  function TagsSince(log: seq<Strike>, cutoff: U64): set<Bytes32> {
    if log == [] then {}
    else TagsSince(log[..|log| - 1], cutoff) + if log[|log| - 1].now >= cutoff then {log[|log| - 1].tag} else {}
  }

  lemma {:induction false} TagsSinceMember(log: seq<Strike>, cutoff: U64, t: Bytes32)
    ensures t in TagsSince(log, cutoff) <==> exists i :: 0 <= i < |log| && log[i].tag == t && log[i].now >= cutoff
  {
    if log != [] {
      var front := log[..|log| - 1];
      TagsSinceMember(front, cutoff, t);
      assert forall i :: 0 <= i < |front| ==> front[i] == log[i];
      if t in TagsSince(front, cutoff) {
        var i :| 0 <= i < |front| && front[i].tag == t && front[i].now >= cutoff;
        assert log[i].tag == t;
      }
    }
  }

  lemma {:induction false} TagsCount(log: seq<Strike>, cutoff: U64)
    requires forall i, j :: 0 <= i < j < |log| && log[i].tag == log[j].tag ==> log[i].now < cutoff
    ensures |TagsSince(log, cutoff)| == CountSince(log, cutoff)
  {
    if log != [] {
      var front, last := log[..|log| - 1], log[|log| - 1];
      TagsCount(front, cutoff);
      TagsSinceMember(front, cutoff, last.tag);
    }
  }

  /** Whatever the history, every entry lies in the last window and the number of
      entries is the number of insertions made in it. */
  lemma BoundedCache(window: U64, calls: seq<Strike>)
    requires Monotone(calls)
    ensures var c := CacheRun(window, calls);
            && (forall t :: t in c.entries ==> SaturatingSub(c.lastEvict, window) <= c.entries[t] <= c.lastEvict)
            && |c.entries| == CountSince(Log(window, calls), SaturatingSub(c.lastEvict, window))
  {
    var c, log := CacheRun(window, calls), Log(window, calls);
    var cutoff := SaturatingSub(c.lastEvict, window);
    RunMirrors(window, calls);
    LogSpaced(window, calls);
    TagsCount(log, cutoff);
    assert c.entries.Keys == TagsSince(log, cutoff) by {
      forall t: Bytes32
        ensures t in c.entries <==> t in TagsSince(log, cutoff)
      {
        TagsSinceMember(log, cutoff, t);
        if t in c.entries {
          var i :| 0 <= i < |log| && log[i] == Strike(t, c.entries[t]);
        }
      }
    }
  }

  // --- How often a tag can be accepted -------------------------------------

  predicate Apart(times: seq<nat>, gap: nat) {
    forall i, j :: 0 <= i < j < |times| ==> times[i] + gap <= times[j]
  }

  lemma {:induction false} ApartGrows(times: seq<nat>, gap: nat, k: nat)
    requires Apart(times, gap) && k < |times|
    ensures times[0] + k * gap <= times[k]
  {
    if k > 0 {
      ApartGrows(times, gap, k - 1);
      assert times[k - 1] + gap <= times[k];
      assert (k - 1) * gap + gap == k * gap;
    }
  }

  /** Times more than `gap - 1` apart inside a span of length `span`. */
  lemma ApartBound(times: seq<nat>, gap: nat, lo: int, span: nat)
    requires gap > 0 && Apart(times, gap)
    requires forall i :: 0 <= i < |times| ==> lo <= times[i] <= lo + span
    ensures |times| <= 1 + span / gap
  {
    if |times| > 0 {
      var k := |times| - 1;
      ApartGrows(times, gap, k);
      assert k * gap <= span;
      QuotientBound(k, gap, span);
    }
  }

  lemma QuotientBound(k: nat, gap: nat, span: nat)
    requires gap > 0 && k * gap <= span
    ensures k <= span / gap
  {
    var q, r := span / gap, span % gap;
    assert gap * q + r == span && r < gap;
    if k > q {
      MulMonotone(gap, q + 1, k);
      assert false;
    }
  }

  /** A timestamp that was accepted at `first` can be accepted once more, at some
      later reading of the clock, exactly when it lay in the future at `first`
      (and the clock can still advance past the window). */
  lemma SecondAcceptance(first: U64, ts: U64, window: U64, skew: U64)
    requires CheckWindow(first, ts, window, skew).Ok?
    ensures (exists second: U64 :: first + window + 1 <= second && CheckWindow(second, ts, window, skew).Ok?)
            <==> first < ts && first + window + 1 <= U64_MAX
  {
    if first < ts && first + window + 1 <= U64_MAX {
      var second: U64 := first + window + 1;
      assert CheckWindow(second, ts, window, skew).Ok?;
    }
  }

  // --- The mutable cache ---------------------------------------------------

  class StrikeCache {
    var windowMs: U64
    var entries: map<Bytes32, U64>
    var lastEvict: U64

    ghost function Value(): CacheState
      reads this
    {
      CacheState(windowMs, entries, lastEvict)
    }

    constructor (window: U64)
      ensures Value() == EmptyCache(window)
    {
      windowMs := window;
      entries := map[];
      lastEvict := 0;
    }

    method Evict(now: U64)
      modifies this
      ensures Value() == Evicted(old(Value()), now)
    {
      var cutoff := SaturatingSub(now, windowMs);
      entries := map t | t in entries && entries[t] >= cutoff :: entries[t];
      lastEvict := now;
    }

    method CheckAndInsert(tag: Bytes32, now: U64) returns (r: Result<(), CoreError>)
      modifies this
      ensures (Value(), r) == StrikeOnce(old(Value()), tag, now)
    {
      Evict(now);
      if tag in entries {
        return Err(Replayed);
      }
      entries := entries[tag := now];
      return Ok(());
    }
  }
}
