/** The sliding-window crash counter and its refinement of an unbounded log. */
module CrashTracking {
  import opened Wrappers

  /** How many of the logged instants lie in the half-open interval (from, to]. */
  ghost function CountIn(log: seq<int>, from: int, to: int): nat {
    if log == [] then 0
    else
      var last := log[|log| - 1];
      CountIn(log[..|log| - 1], from, to) + (if from < last <= to then 1 else 0)
  }

  /** Crashes younger than `windowMs` at `now`. */
  ghost function InWindow(log: seq<int>, windowMs: int, now: int): nat {
    CountIn(log, now - windowMs, now)
  }

  ghost predicate Ascending(log: seq<int>) {
    forall i, j | 0 <= i < j < |log| :: log[i] <= log[j]
  }

  /** The log of a clock that has never gone backwards and now reads `now`. */
  ghost predicate LogUpTo(log: seq<int>, now: int) {
    Ascending(log) && forall i | 0 <= i < |log| :: log[i] <= now
  }

  /** The entries that pruning keeps, in order. */
  function Younger(log: seq<int>, cutoff: int): seq<int> {
    if log == [] then []
    else
      var rest := Younger(log[..|log| - 1], cutoff);
      if log[|log| - 1] > cutoff then rest + [log[|log| - 1]] else rest
  }

  /** The last `n` entries, or all of them. */
  function Tail(log: seq<int>, n: nat): seq<int> {
    if |log| > n then log[|log| - n..] else log
  }

  /**
   * `kept` is what is left of `log`: a suffix of it, and anything forgotten is
   * either too old for the window that ends at `cutoff + windowMs` or hidden
   * behind `maxSize` entries that are at least as young.
   */
  ghost predicate EndOf(kept: seq<int>, log: seq<int>) {
    |kept| <= |log| && forall i | 0 <= i < |kept| :: kept[i] == log[|log| - |kept| + i]
  }

  ghost predicate Remembers(kept: seq<int>, log: seq<int>, cutoff: int, maxSize: nat) {
    && EndOf(kept, log)
    && (|kept| == |log| || log[|log| - |kept| - 1] <= cutoff || |kept| >= maxSize)
  }

  /** Pruning an ascending log cuts a prefix: exactly the entries that are too old. */
  lemma {:induction false} YoungerIsSuffix(log: seq<int>, cutoff: int)
    requires Ascending(log)
    ensures EndOf(Younger(log, cutoff), log)
    ensures var d := |log| - |Younger(log, cutoff)|;
            && (forall i | 0 <= i < d :: log[i] <= cutoff)
            && (forall i | d <= i < |log| :: log[i] > cutoff)
  {
    if log != [] {
      var n := |log| - 1;
      YoungerIsSuffix(log[..n], cutoff);
      assert forall i | 0 <= i < n :: log[..n][i] == log[i] <= log[n];
    }
  }

  /** In an ascending log that ends by `now`, the window holds exactly the suffix above the cutoff. */
  lemma {:induction false} CountSuffix(log: seq<int>, cutoff: int, now: int, d: nat)
    requires LogUpTo(log, now) && d <= |log|
    requires forall i | 0 <= i < d :: log[i] <= cutoff
    requires forall i | d <= i < |log| :: log[i] > cutoff
    ensures CountIn(log, cutoff, now) == |log| - d
  {
    if d < |log| {
      CountSuffix(log[..|log| - 1], cutoff, now, d);
    } else if d > 0 {
      CountSuffix(log[..|log| - 1], cutoff, now, d - 1);
    }
  }

  /**
   * Pruning refines the unbounded log: the pruned and truncated list still
   * remembers the log, and its length is the true in-window count up to `maxSize`.
   */
  lemma {:induction false} PruneRefines(
    kept: seq<int>, log: seq<int>, before: int, windowMs: int, now: int, maxSize: nat)
    requires LogUpTo(log, now) && before <= now - windowMs
    requires Remembers(kept, log, before, maxSize)
    ensures var pruned := Tail(Younger(kept, now - windowMs), maxSize);
            && Remembers(pruned, log, now - windowMs, maxSize)
            && |pruned| == Min(maxSize, InWindow(log, windowMs, now))
  {
    var cutoff := now - windowMs;
    YoungerIsSuffix(kept, cutoff);
    CountOfSuffix(log, cutoff, now);
    EndOfEnd(kept, log, Younger(kept, cutoff), InWindow(log, windowMs, now), before, cutoff, maxSize);
  }

  /** Two logs that agree from the end agree on what is young and on what was forgotten. */
  lemma EndOfEnd(kept: seq<int>, log: seq<int>, young: seq<int>, n: nat, before: int, cutoff: int, maxSize: nat)
    requires EndOf(young, kept) && n <= |log| && before <= cutoff
    requires Remembers(kept, log, before, maxSize)
    requires forall i | 0 <= i < |kept| - |young| :: kept[i] <= cutoff
    requires forall i | |kept| - |young| <= i < |kept| :: kept[i] > cutoff
    requires forall i | 0 <= i < |log| - n :: log[i] <= cutoff
    requires forall i | |log| - n <= i < |log| :: log[i] > cutoff
    ensures Remembers(Tail(young, maxSize), log, cutoff, maxSize)
    ensures |Tail(young, maxSize)| == Min(maxSize, n)
  {
    var d := |log| - |kept|;
    var y := |young|;
    var oldest := |kept| - y;
    assert n >= y by {
      if y > 0 { assert kept[oldest] == log[d + oldest]; }
    }
    assert oldest > 0 ==> n == y by {
      if oldest > 0 { assert kept[oldest - 1] == log[d + oldest - 1]; }
    }
    assert oldest == 0 && d > 0 && y < maxSize ==> n == y;
    TailIsEnd(young, log, maxSize);
  }

  lemma TailIsEnd(young: seq<int>, log: seq<int>, maxSize: nat)
    requires |young| <= |log| && forall i | 0 <= i < |young| :: young[i] == log[|log| - |young| + i]
    ensures EndOf(Tail(young, maxSize), log)
  {
  }

  lemma CountOfSuffix(log: seq<int>, cutoff: int, now: int)
    requires LogUpTo(log, now)
    ensures var n := CountIn(log, cutoff, now);
            && n <= |log|
            && (forall i | 0 <= i < |log| - n :: log[i] <= cutoff)
            && (forall i | |log| - n <= i < |log| :: log[i] > cutoff)
  {
    YoungerIsSuffix(log, cutoff);
    CountSuffix(log, cutoff, now, |log| - |Younger(log, cutoff)|);
  }

  /** Counting fewer instants, or in a smaller interval, never counts more. */
  lemma {:induction false} CountMonotone(log: seq<int>, from: int, to: int, from': int, to': int)
    requires from' <= from && to <= to'
    ensures CountIn(log, from, to) <= CountIn(log, from', to')
  {
    if log != [] {
      CountMonotone(log[..|log| - 1], from, to, from', to');
    }
  }

  /** Time alone can only take crashes out of the window. */
  lemma {:induction false} WindowShrinks(log: seq<int>, windowMs: int, now: int, later: int)
    requires now <= later && forall i | 0 <= i < |log| :: log[i] <= now
    ensures InWindow(log, windowMs, later) <= InWindow(log, windowMs, now)
  {
    if log != [] {
      WindowShrinks(log[..|log| - 1], windowMs, now, later);
    }
  }

  class CrashTracker {
    const threshold: int
    const windowMs: int
    const maxSize: nat
    var timestamps: seq<int>

    /** Every crash since the last reset, and the last instant the clock was read. */
    ghost var log: seq<int>
    ghost var clock: int

    ghost predicate Valid()
      reads this
    {
      && threshold >= 1
      && windowMs > 0
      && maxSize == Max(threshold * 2, 100)
      && LogUpTo(log, clock)
      && |timestamps| <= maxSize
      && Remembers(timestamps, log, clock - windowMs, maxSize)
    }

    constructor (threshold: int, windowMs: int, ghost now: int)
      requires threshold >= 1 && windowMs > 0
      ensures Valid() && log == [] && clock == now
      ensures this.threshold == threshold && this.windowMs == windowMs
    {
      this.threshold := threshold;
      this.windowMs := windowMs;
      maxSize := Max(threshold * 2, 100);
      timestamps := [];
      log := [];
      clock := now;
    }

    method Record(now: int)
      requires Valid() && clock <= now
      modifies this
      ensures Valid() && clock == now
      ensures log == old(log) + [now]
    {
      timestamps := timestamps + [now];
      log := log + [now];
      clock := now;
      if |timestamps| > maxSize {
        Prune(now);
      }
    }

    method IsTripped(now: int) returns (tripped: bool)
      requires Valid() && clock <= now
      modifies this
      ensures Valid() && clock == now && log == old(log)
      ensures tripped == (InWindow(log, windowMs, now) >= threshold)
    {
      Prune(now);
      tripped := |timestamps| >= threshold;
    }

    method Prune(now: int)
      requires threshold >= 1 && windowMs > 0 && maxSize == Max(threshold * 2, 100)
      requires LogUpTo(log, now) && clock <= now
      requires Remembers(timestamps, log, clock - windowMs, maxSize)
      modifies this
      ensures Valid() && clock == now && log == old(log)
      ensures |timestamps| == Min(maxSize, InWindow(log, windowMs, now))
    {
      PruneRefines(timestamps, log, clock - windowMs, windowMs, now, maxSize);
      var cutoff := now - windowMs;
      timestamps := Younger(timestamps, cutoff);
      if |timestamps| > maxSize {
        timestamps := timestamps[|timestamps| - maxSize..];
      }
      clock := now;
    }

    method Reset()
      requires Valid()
      modifies this
      ensures Valid() && log == [] && clock == old(clock)
    {
      timestamps := [];
      log := [];
    }

    method Count(now: int) returns (count: int)
      requires Valid() && clock <= now
      modifies this
      ensures Valid() && clock == now && log == old(log)
      ensures count == Min(maxSize, InWindow(log, windowMs, now))
    {
      Prune(now);
      count := |timestamps|;
    }
  }
}
