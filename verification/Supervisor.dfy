/**
 * The supervisor's objects. Each method is one synchronous stretch of code and
 * is proved to make exactly the transition that FleetModel gives it. Timers and
 * promises are the environment's: it calls the continuation when they fire.
 * `now` is what Date.now() returns, `forkOk` whether a fork would succeed.
 */
module Supervisor {
  import opened Wrappers
  import opened Config
  import opened CrashTracking
  import Drain
  import opened FleetModel
  import opened FleetCapacity

  class WorkerManager {
    var workerStartTimes: map<int, int>
    var recyclingWorkerIds: set<int>
    var pendingRecycleTimers: set<int>
    var activeWorkers: int
    var nextId: int

    function View(): Pool
      reads this
    {
      Pool(workerStartTimes, nextId, recyclingWorkerIds, pendingRecycleTimers, activeWorkers)
    }

    constructor ()
      ensures View() == Pool(map[], 1, {}, {}, 0)
    {
      workerStartTimes, recyclingWorkerIds, pendingRecycleTimers := map[], {}, {};
      activeWorkers, nextId := 0, 1;
    }

    method ForkWorker(now: int, forkOk: bool) returns (worker: Option<int>)
      modifies this
      ensures worker == if forkOk then Some(old(nextId)) else None
      ensures View() == if forkOk then Fork(old(View()), now) else old(View())
    {
      if !forkOk { return None; }
      worker := Some(nextId);
      nextId := nextId + 1;
      workerStartTimes := workerStartTimes[worker.value := now];
      activeWorkers := activeWorkers + 1;
    }

    /** Several forks in a row; the one numbered `failAt` would fail, and what it throws ends the loop. */
    method ForkWorkers(now: int, count: nat, failAt: Option<nat>) returns (threw: bool)
      modifies this
      ensures threw <==> failAt.Some? && failAt.value < count
      ensures View() == ForkMany(old(View()), now, if threw then failAt.value else count)
    {
      for i := 0 to count
        invariant failAt.Some? ==> i <= failAt.value || count <= failAt.value
        invariant View() == ForkMany(old(View()), now, i)
      {
        var worker := ForkWorker(now, failAt != Some(i));
        if worker.None? { return true; }
      }
      return false;
    }

    method RecycleWorkerNow(w: int, now: int, isShuttingDown: bool, forkOk: bool) returns (replacement: Option<int>)
      modifies this
      ensures var p := old(View());
              var accepted := !isShuttingDown && w !in p.marks && w in p.started && forkOk;
              && replacement == (if accepted then Some(p.nextId) else None)
              && View() == if accepted then Fork(Mark(p, w), now) else p
    {
      if isShuttingDown || w in recyclingWorkerIds || w !in workerStartTimes { return None; }
      recyclingWorkerIds := recyclingWorkerIds + {w};
      replacement := ForkWorker(now, forkOk);
      if replacement.None? {
        recyclingWorkerIds := recyclingWorkerIds - {w};
        assert recyclingWorkerIds == old(recyclingWorkerIds);
      }
    }

    /** One tick of the recycling interval over the live workers: the aged, unmarked ones are marked and staggered. */
    method Sweep(workers: seq<int>, now: int, maxAgeMs: int)
      requires forall w :: w in workers <==> w in workerStartTimes
      modifies this
      ensures var p := old(View());
              var aged := set w | w in p.started && w !in p.marks && now - p.started[w] > maxAgeMs;
              View() == p.(marks := p.marks + aged, staged := p.staged + aged)
    {
      ghost var p := View();
      ghost var aged := set w | w in p.started && w !in p.marks && now - p.started[w] > maxAgeMs;
      ghost var seen: set<int> := {};
      for i := 0 to |workers|
        invariant seen <= aged && forall w | w in workers[..i] && w in aged :: w in seen
        invariant View() == p.(marks := p.marks + seen, staged := p.staged + seen)
      {
        var w := workers[i];
        assert workers[..i + 1] == workers[..i] + [w];
        if w !in recyclingWorkerIds && now - workerStartTimes[w] > maxAgeMs {
          recyclingWorkerIds := recyclingWorkerIds + {w};
          pendingRecycleTimers := pendingRecycleTimers + {w};
          seen := seen + {w};
        }
      }
      assert workers[..|workers|] == workers;
      forall w | w in aged
        ensures w in seen
      {
        assert w in workers;
      }
      assert seen == aged;
    }

    method StaggerTimerFires(w: int, now: int, isShuttingDown: bool, forkOk: bool)
      requires w in pendingRecycleTimers
      modifies this
      ensures var p := old(View());
              var q := p.(staged := p.staged - {w});
              View() == if w !in p.started || isShuttingDown || !forkOk then Unmark(q, w) else Fork(q, now)
    {
      pendingRecycleTimers := pendingRecycleTimers - {w};
      if w !in workerStartTimes || isShuttingDown {
        recyclingWorkerIds := recyclingWorkerIds - {w};
        return;
      }
      var replacement := ForkWorker(now, forkOk);
      if replacement.None? {
        recyclingWorkerIds := recyclingWorkerIds - {w};
      }
    }

    method MarkForRecycling(w: int)
      modifies this`recyclingWorkerIds
      ensures View() == Mark(old(View()), w)
    {
      recyclingWorkerIds := recyclingWorkerIds + {w};
    }

    method StopRecycling()
      modifies this
      ensures View() == old(View()).(marks := {}, staged := {})
    {
      pendingRecycleTimers := {};
      recyclingWorkerIds := {};
    }

    method CleanupWorker(w: int)
      modifies this
      ensures View() == Cleanup(old(View()), w)
    {
      workerStartTimes := workerStartTimes - {w};
      recyclingWorkerIds := recyclingWorkerIds - {w};
      pendingRecycleTimers := pendingRecycleTimers - {w};
      activeWorkers := Max(0, activeWorkers - 1);
    }
  }

  /** Settling one more entry of a prefix settles the longer prefix. */
  lemma SettleNext(b: Books, queue: seq<Entry>, i: nat, o: Outcome)
    requires i < |queue|
    ensures Settle(Settle(b, queue[..i], o), [queue[i]], o) == Settle(b, queue[..i + 1], o)
  {
    assert queue[..i + 1] == queue[..i] + [queue[i]];
    TicketsConcat(queue[..i], [queue[i]]);
    SettleTwice(b, queue[..i], [queue[i]], o);
  }

  lemma SettleTwice(b: Books, first: seq<Entry>, second: seq<Entry>, o: Outcome)
    requires Tickets(first + second) == Tickets(first) + Tickets(second)
    ensures Settle(Settle(b, first, o), second, o) == Settle(b, first + second, o)
  {
    hide Tickets;
    var l := b.ledger + (map t | t in Tickets(first) :: o) + (map t | t in Tickets(second) :: o);
    var r := b.ledger + map t | t in Tickets(first + second) :: o;
    assert l == r;
  }

  lemma SettleNothing(b: Books, o: Outcome)
    ensures Settle(b, [], o) == b
  {
    assert Tickets([]) == {};
  }

  /** A restart sets the loop's suspension point itself, so where the loop was does not matter. */
  lemma RunnerIrrelevant(c: Config, k: Core, r: Core, e: Entry, forkOk: bool)
    requires r == k.(engine := k.engine.(runner := r.engine.runner))
    ensures BeginRestart(c, k, e, forkOk) == BeginRestart(c, r, e, forkOk)
  {
    hide Settle, InWindow;
  }

  lemma RefillIsKick(c: Config, k: Core, forkOk: bool)
    ensures RequestRefill(c, k, forkOk) == Kick(c, EnqueueRefills(k, Max(0, c.workers.count - k.pool.active)), forkOk)
  {
    hide Kick, EnqueueRefills;
  }

  class RestartCoordinator {
    const cfg: Config
    const wm: WorkerManager
    const crashTracker: CrashTracker

    var pendingRestartQueue: seq<Entry>
    var restartLoopRunning: bool
    /** The backoff wait the loop is suspended in, if any: its entry and captured delay. */
    var backoffWait: Option<(Entry, real)>
    var restartBackoffDelay: real
    var backoffResetTimer: Option<int>
    var consecutiveForkFailures: nat
    var consecutiveBootFailures: nat
    var quarantinedSlots: nat
    /** Object identity of the next queue entry. */
    var nextTicket: nat
    ghost var books: Books

    ghost predicate Valid(now: int)
      reads this, crashTracker
    {
      && ValidConfig(cfg)
      && crashTracker.Valid() && crashTracker.clock <= now
      && crashTracker.threshold == cfg.restart.crashThreshold
      && crashTracker.windowMs == cfg.restart.crashWindowMs
      && (backoffWait.Some? ==> restartLoopRunning)
      && nextTicket == books.issued
    }

    function Runner(): Runner
      reads this
    {
      if !restartLoopRunning then Idle
      else if backoffWait.Some? then Parked(backoffWait.value.0, backoffWait.value.1)
      else Looping
    }

    function Engine(): Engine
      reads this
    {
      FleetModel.Engine(pendingRestartQueue, Runner(), restartBackoffDelay, backoffResetTimer,
                        consecutiveForkFailures, consecutiveBootFailures, quarantinedSlots)
    }

    ghost function View(now: int, isShuttingDown: bool): Core
      reads this, wm, crashTracker
    {
      Core(now, isShuttingDown, wm.View(), crashTracker.log, Engine(), books)
    }

    constructor (cfg: Config, wm: WorkerManager, crashTracker: CrashTracker, ghost now: int)
      requires ValidConfig(cfg) && crashTracker.Valid() && crashTracker.clock <= now
      requires crashTracker.threshold == cfg.restart.crashThreshold
      requires crashTracker.windowMs == cfg.restart.crashWindowMs
      ensures Valid(now) && this.cfg == cfg && this.wm == wm && this.crashTracker == crashTracker
      ensures Engine() == FleetModel.Engine([], Idle, 0.0, None, 0, 0, 0) && books == NO_BOOKS
    {
      this.cfg, this.wm, this.crashTracker := cfg, wm, crashTracker;
      pendingRestartQueue, restartLoopRunning, backoffWait := [], false, None;
      restartBackoffDelay, backoffResetTimer := 0.0, None;
      consecutiveForkFailures, consecutiveBootFailures, quarantinedSlots := 0, 0, 0;
      nextTicket, books := 0, NO_BOOKS;
    }

    /** The loop body from its guard until it suspends or ends. */
    method ProcessRestartQueue(now: int, isShuttingDown: bool, forkOk: bool)
      requires Valid(now) && backoffWait.None?
      modifies this, wm, crashTracker
      ensures Valid(now)
      ensures View(now, isShuttingDown) == Loop(cfg, old(View(now, isShuttingDown)), forkOk)
    {
      hide Settle, InWindow, BeginRestart;
      restartLoopRunning := true;
      ghost var queue := pendingRestartQueue;
      ghost var before := books;
      ghost var i := 0;
      SettleNothing(before, AtCapacity);
      while |pendingRestartQueue| > 0
        invariant 0 <= i <= |queue| && pendingRestartQueue == queue[i..]
        invariant books == Settle(before, queue[..i], AtCapacity)
        invariant Valid(now) && restartLoopRunning && backoffWait.None?
        invariant Engine() == old(Engine()).(queue := queue[i..], runner := Looping)
        invariant wm.View() == old(wm.View()) && crashTracker.log == old(crashTracker.log)
        invariant i > 0 ==> !isShuttingDown && !Tripped(cfg, old(View(now, isShuttingDown)))
                            && Settled(wm.View()) >= cfg.workers.count
      {
        if isShuttingDown {
          books := Settle(books, pendingRestartQueue, ByShutdown);
          pendingRestartQueue := [];
          restartLoopRunning := false;
          return;
        }
        var tripped := crashTracker.IsTripped(now);
        if tripped {
          books := Settle(books, pendingRestartQueue, ByBreaker);
          pendingRestartQueue := [];
          restartLoopRunning := false;
          return;
        }
        var entry := pendingRestartQueue[0];
        pendingRestartQueue := pendingRestartQueue[1..];
        var settledWorkers := wm.activeWorkers - |wm.recyclingWorkerIds|;
        var missingWorkers := Max(0, cfg.workers.count - settledWorkers);
        if missingWorkers == 0 {
          SettleNext(before, queue, i, AtCapacity);
          books := Settle(books, [entry], AtCapacity);
          i := i + 1;
        } else {
          assert i == 0 && queue[..0] == [];
          RunnerIrrelevant(cfg, old(View(now, isShuttingDown)).(engine := old(Engine()).(queue := queue[1..])),
                           View(now, isShuttingDown), entry, forkOk);
          RestartWorkerWithBackoff(entry, now, isShuttingDown, forkOk);
          return;
        }
      }
      assert queue[..i] == queue;
      restartLoopRunning := false;
    }

    /** Up to the backoff wait, or straight through when there is none. */
    method RestartWorkerWithBackoff(entry: Entry, now: int, isShuttingDown: bool, forkOk: bool)
      requires Valid(now) && restartLoopRunning && backoffWait.None?
      modifies this, wm, crashTracker
      ensures Valid(now)
      ensures View(now, isShuttingDown) == BeginRestart(cfg, old(View(now, isShuttingDown)), entry, forkOk)
    {
      var delayMs := if restartBackoffDelay > 0.0 then restartBackoffDelay else cfg.restart.backoffMs;
      if delayMs > 0.0 {
        backoffWait := Some((entry, delayMs));
        books := books.(parkedStreak := books.streak);
        return;
      }
      ForkReplacement(entry, delayMs, books.streak, now, isShuttingDown, forkOk);
    }

    /** The rest of the restart: fork-time breaker check, fork, and backoff for the next one. */
    method ForkReplacement(
      entry: Entry, delayMs: real, ghost streak: nat, now: int, ghost isShuttingDown: bool, forkOk: bool)
      requires Valid(now) && restartLoopRunning && backoffWait.None?
      modifies this, wm, crashTracker
      ensures Valid(now)
      ensures View(now, isShuttingDown) ==
              Attempt(cfg, old(View(now, isShuttingDown)), entry, delayMs, streak, forkOk)
    {
      hide Settle, InWindow, NextBackoff, Fork, NoteFailure;
      var tripped := crashTracker.IsTripped(now);
      if tripped {
        books := Settle(books, [entry], ByBreaker);
        return;
      }
      books := books.(attempts := books.attempts + 1);
      var newWorker := wm.ForkWorker(now, forkOk);
      if newWorker.None? {
        RetryOrGiveUp(entry);
        return;
      }
      consecutiveForkFailures := 0;
      books := Settle(ForgetFailures(books.(streak := streak + 1)), [entry], Restarted);
      IncreaseBackoff(delayMs);
    }

    method IncreaseBackoff(delayMs: real)
      modifies this`restartBackoffDelay
      ensures restartBackoffDelay == NextBackoff(cfg, delayMs)
    {
      var nextDelay := if delayMs > 0.0 then delayMs * cfg.restart.backoffMultiplier else cfg.restart.backoffMs;
      restartBackoffDelay := if nextDelay <= cfg.restart.maxBackoffMs then nextDelay else cfg.restart.maxBackoffMs;
    }

    /** A failed fork puts its entry back into the queue; the third in a row drops everything. */
    method RetryOrGiveUp(entry: Entry)
      requires nextTicket == books.issued
      modifies this`consecutiveForkFailures, this`books, this`pendingRestartQueue
      ensures var g, failures := old(Engine()), old(consecutiveForkFailures) + 1;
              var givesUp := failures >= MAX_CONSECUTIVE_FORK_FAILURES;
              var b := NoteFailure(old(books), entry.ticket);
              && Engine() == g.(forkFailures := failures, queue := if givesUp then [] else g.queue + [entry])
              && books == if givesUp then Settle(b, [entry] + g.queue, ByGiveUp) else b
      ensures nextTicket == books.issued
    {
      hide Settle;
      books := NoteFailure(books, entry.ticket);
      consecutiveForkFailures := consecutiveForkFailures + 1;
      if consecutiveForkFailures >= MAX_CONSECUTIVE_FORK_FAILURES {
        books := Settle(books, [entry] + pendingRestartQueue, ByGiveUp);
        pendingRestartQueue := [];
        return;
      }
      pendingRestartQueue := pendingRestartQueue + [entry];
    }

    /** The backoff timer fires. */
    method BackoffElapsed(now: int, isShuttingDown: bool, forkOk: bool)
      requires Valid(now)
      modifies this, wm, crashTracker
      ensures Valid(now)
      ensures View(now, isShuttingDown) == Wake(cfg, old(View(now, isShuttingDown)), forkOk)
    {
      if backoffWait.None? { return; }
      var entry, delayMs := backoffWait.value.0, backoffWait.value.1;
      backoffWait := None;
      if isShuttingDown {
        books := Settle(books, [entry], ByShutdown);
        return;
      }
      ForkReplacement(entry, delayMs, books.parkedStreak, now, isShuttingDown, forkOk);
    }

    /** The loop continues after a restart returned. */
    method RestartReturned(now: int, isShuttingDown: bool, forkOk: bool)
      requires Valid(now)
      modifies this, wm, crashTracker
      ensures Valid(now)
      ensures View(now, isShuttingDown) == Resume(cfg, old(View(now, isShuttingDown)), forkOk)
    {
      if restartLoopRunning && backoffWait.None? {
        ProcessRestartQueue(now, isShuttingDown, forkOk);
      }
    }

    method KickRestartQueue(now: int, isShuttingDown: bool, forkOk: bool)
      requires Valid(now)
      modifies this, wm, crashTracker
      ensures Valid(now)
      ensures View(now, isShuttingDown) == Kick(cfg, old(View(now, isShuttingDown)), forkOk)
    {
      if restartLoopRunning { return; }
      ProcessRestartQueue(now, isShuttingDown, forkOk);
    }

    method OnWorkerCrash(
      w: int, bootFailed: bool, hasOnlineWorkers: bool, now: int, isShuttingDown: bool, forkOk: bool)
      requires Valid(now)
      modifies this, wm, crashTracker
      ensures Valid(now)
      ensures View(now, isShuttingDown) ==
              FleetModel.OnWorkerCrash(cfg, old(View(now, isShuttingDown)), w, bootFailed, hasOnlineWorkers, forkOk)
    {
      hide Kick, InWindow, LogUpTo, Remembers, Quarantines, Counted, AcceptCrash;
      var quarantined := BootFailureQuarantines(bootFailed, hasOnlineWorkers);
      if quarantined { return; }
      crashTracker.Record(now);
      var tripped := crashTracker.IsTripped(now);
      if tripped {
        nextTicket, books := nextTicket + 1, Issue(books, RejectedByTrip);
        return;
      }
      QueueRestart(w, now, isShuttingDown, forkOk);
    }

    /** Counts a boot failure while the rest of the fleet serves; at the limit the slot is given up. */
    method BootFailureQuarantines(bootFailed: bool, hasOnlineWorkers: bool) returns (quarantined: bool)
      requires nextTicket == books.issued
      modifies this
      ensures var g := old(Engine());
              && quarantined == Quarantines(cfg, g, bootFailed, hasOnlineWorkers)
              && Engine() == NoteBootFailure(cfg, g, bootFailed, hasOnlineWorkers)
                             .(quarantined := if quarantined then g.quarantined + 1 else g.quarantined)
              && books == (if quarantined then Issue(old(books), Quarantined) else old(books))
      ensures nextTicket == books.issued && backoffWait == old(backoffWait)
      ensures restartLoopRunning == old(restartLoopRunning)
    {
      var quarantine := cfg.restart.bootFailQuarantine;
      if bootFailed && quarantine > 0 && hasOnlineWorkers {
        consecutiveBootFailures := consecutiveBootFailures + 1;
        if consecutiveBootFailures >= quarantine {
          quarantinedSlots := quarantinedSlots + 1;
          nextTicket, books := nextTicket + 1, Issue(books, Quarantined);
          return true;
        }
      }
      return false;
    }

    method QueueRestart(w: int, now: int, isShuttingDown: bool, forkOk: bool)
      requires Valid(now)
      modifies this, wm, crashTracker
      ensures Valid(now)
      ensures var k := old(View(now, isShuttingDown));
              View(now, isShuttingDown) == Kick(cfg, AcceptCrash(k, w), forkOk)
    {
      hide Kick;
      books := books.(accepted := books.accepted + [now]);
      pendingRestartQueue := pendingRestartQueue + [Crash(nextTicket, w)];
      nextTicket, books := nextTicket + 1, books.(issued := books.issued + 1);
      KickRestartQueue(now, isShuttingDown, forkOk);
    }

    method OnWorkerOnline(now: int, ghost isShuttingDown: bool)
      requires Valid(now)
      modifies this
      ensures Valid(now)
      ensures View(now, isShuttingDown) == FleetModel.OnWorkerOnline(cfg, old(View(now, isShuttingDown)))
    {
      consecutiveBootFailures := 0;
      if restartBackoffDelay > 0.0 {
        if cfg.restart.stabilityWindowMs == 0 {
          restartBackoffDelay := 0.0;
          books := books.(streak := 0);
        } else {
          backoffResetTimer := Some(now + cfg.restart.stabilityWindowMs);
        }
      }
    }

    /** The stability timer fires. */
    method BackoffResetFires(now: int, isShuttingDown: bool)
      requires Valid(now)
      modifies this
      ensures Valid(now)
      ensures View(now, isShuttingDown) == OnStable(old(View(now, isShuttingDown)))
    {
      if backoffResetTimer.None? || now < backoffResetTimer.value { return; }
      backoffResetTimer := None;
      if isShuttingDown || restartBackoffDelay == 0.0 { return; }
      restartBackoffDelay := 0.0;
      books := books.(streak := 0);
    }

    method CancelBackoffReset()
      modifies this
      ensures Engine() == old(Engine()).(resetAt := None) && books == old(books)
      ensures backoffWait == old(backoffWait) && restartLoopRunning == old(restartLoopRunning)
      ensures nextTicket == old(nextTicket)
    {
      backoffResetTimer := None;
    }

    method Reset(ghost now: int, ghost isShuttingDown: bool)
      requires Valid(now)
      modifies this, crashTracker
      ensures Valid(now)
      ensures View(now, isShuttingDown) == ResetEngine(old(View(now, isShuttingDown)))
    {
      crashTracker.Reset();
      restartBackoffDelay := 0.0;
      consecutiveForkFailures := 0;
      books := ForgetFailures(books.(streak := 0, accepted := []));
    }

    /** Another fork failed; the result is the number of failures in a row. */
    method NoteForkFailure() returns (failures: nat)
      modifies this`consecutiveForkFailures
      ensures failures == old(consecutiveForkFailures) + 1
      ensures Engine() == old(Engine()).(forkFailures := failures)
    {
      consecutiveForkFailures := consecutiveForkFailures + 1;
      failures := consecutiveForkFailures;
    }

    method NoteForkSuccess()
      modifies this`consecutiveForkFailures, this`books
      ensures Engine() == old(Engine()).(forkFailures := 0) && books == ForgetFailures(old(books))
    {
      consecutiveForkFailures := 0;
      books := ForgetFailures(books);
    }

    predicate IsForkEnvUnrecoverable()
      reads this
    {
      consecutiveForkFailures >= MAX_CONSECUTIVE_FORK_FAILURES
    }

    method ResetQuarantine(ghost now: int, ghost isShuttingDown: bool)
      requires Valid(now)
      modifies this
      ensures Valid(now)
      ensures View(now, isShuttingDown) == FleetModel.ResetQuarantine(old(View(now, isShuttingDown)))
    {
      books := books.(forgotten := books.forgotten + quarantinedSlots);
      quarantinedSlots := 0;
      consecutiveBootFailures := 0;
    }

    method RequestCapacityRefill(count: nat, now: int, isShuttingDown: bool, forkOk: bool)
      requires Valid(now)
      modifies this, wm, crashTracker
      ensures Valid(now)
      ensures View(now, isShuttingDown) == Kick(cfg, EnqueueRefills(old(View(now, isShuttingDown)), count), forkOk)
    {
      hide Kick;
      for i := 0 to count
        invariant Valid(now)
        invariant View(now, isShuttingDown) == EnqueueRefills(old(View(now, isShuttingDown)), i)
      {
        pendingRestartQueue := pendingRestartQueue + [Refill(nextTicket)];
        nextTicket, books := nextTicket + 1, books.(issued := books.issued + 1);
      }
      KickRestartQueue(now, isShuttingDown, forkOk);
    }
  }

  class Orchestrator {
    const cfg: Config
    const wm: WorkerManager
    const crashTracker: CrashTracker
    const rc: RestartCoordinator

    var onlineWorkerIds: set<int>
    var isShuttingDown: bool
    var forcedKills: int
    /** restartInProgress, with the local state of the suspended restartWorkers call. */
    var roll: Roll
    ghost var killList: set<int>
    ghost var surplus: nat
    ghost var lostExits: nat

    ghost predicate Valid(now: int)
      reads this, rc, crashTracker
    {
      rc.wm == wm && rc.crashTracker == crashTracker && rc.cfg == cfg && rc.Valid(now)
    }

    ghost function View(now: int): Fleet
      reads this, rc, rc.wm, rc.crashTracker
    {
      Fleet(rc.View(now, isShuttingDown), onlineWorkerIds, killList, roll, forcedKills, surplus, lostExits)
    }

    /** Construction and startPrimary: the initial forks. */
    constructor (cfg: Config, now: int)
      requires ValidConfig(cfg)
      ensures Valid(now) && this.cfg == cfg
      ensures View(now) == Started(cfg, now)
    {
      this.cfg := cfg;
      var w := new WorkerManager();
      var t := new CrashTracker(cfg.restart.crashThreshold, cfg.restart.crashWindowMs, now);
      wm, crashTracker := w, t;
      rc := new RestartCoordinator(cfg, w, t, now);
      onlineWorkerIds, isShuttingDown, forcedKills, roll := {}, false, 0, NoRoll;
      killList, surplus, lostExits := {}, 0, 0;
      new;
      var threw := wm.ForkWorkers(now, cfg.workers.count, None);
    }

    method HandleWorkerOnline(w: int, now: int)
      requires Valid(now)
      modifies this, rc
      ensures Valid(now) && View(now) == Step(cfg, old(View(now)), Online(w))
    {
      if w !in wm.workerStartTimes || w in onlineWorkerIds { return; }
      onlineWorkerIds := onlineWorkerIds + {w};
      rc.OnWorkerOnline(now, isShuttingDown);
    }

    method HandleWorkerExit(w: int, exitedAfterDisconnect: bool, now: int, forkOk: bool)
      requires Valid(now)
      modifies this, rc, wm, crashTracker
      ensures Valid(now) && View(now) == Step(cfg, old(View(now)), Exit(w, exitedAfterDisconnect, forkOk))
    {
      hide FleetModel.OnWorkerCrash;
      if w !in wm.workerStartTimes { return; }
      ghost var replaced := w in wm.recyclingWorkerIds && w !in wm.pendingRecycleTimers;
      wm.CleanupWorker(w);
      if isShuttingDown {
        onlineWorkerIds := onlineWorkerIds - {w};
        lostExits := lostExits + 1;
        return;
      }
      if exitedAfterDisconnect {
        onlineWorkerIds := onlineWorkerIds - {w};
        if !replaced { lostExits := lostExits + 1; }
        return;
      }
      rc.CancelBackoffReset();
      var bootFailed := w !in onlineWorkerIds;
      onlineWorkerIds := onlineWorkerIds - {w};
      rc.OnWorkerCrash(w, bootFailed, onlineWorkerIds != {}, now, isShuttingDown, forkOk);
    }

    method TriggerWorkerRecycle(w: int, now: int, forkOk: bool)
      requires Valid(now)
      modifies this, wm
      ensures Valid(now) && View(now) == Step(cfg, old(View(now)), Recycle(w, forkOk))
    {
      if w in wm.recyclingWorkerIds { return; }
      var replacement := wm.RecycleWorkerNow(w, now, isShuttingDown, forkOk);
    }

    method RecycleSweep(workers: seq<int>, now: int)
      requires Valid(now) && forall w :: w in workers <==> w in wm.workerStartTimes
      modifies wm
      ensures Valid(now) && View(now) == Step(cfg, old(View(now)), FleetModel.Sweep)
    {
      if isShuttingDown || cfg.workers.maxAgeMs <= 0 { return; }
      wm.Sweep(workers, now, cfg.workers.maxAgeMs);
    }

    method StaggerTimerFires(w: int, now: int, forkOk: bool)
      requires Valid(now)
      modifies this, wm
      ensures Valid(now) && View(now) == Step(cfg, old(View(now)), StaggerFires(w, forkOk))
    {
      if w !in wm.pendingRecycleTimers { return; }
      ghost var after := SurplusAfter(cfg, View(now));
      wm.StaggerTimerFires(w, now, isShuttingDown, forkOk);
      surplus := after;
    }

    method ResetCircuitBreaker(now: int, forkOk: bool)
      requires Valid(now)
      modifies this, rc, wm, crashTracker
      ensures Valid(now) && View(now) == Step(cfg, old(View(now)), ResetBreaker(forkOk))
    {
      hide RequestRefill, Kick, EnqueueRefills;
      rc.Reset(now, isShuttingDown);
      if !isShuttingDown {
        RefillIsKick(cfg, rc.View(now, isShuttingDown), forkOk);
        var missing := Max(0, cfg.workers.count - wm.activeWorkers);
        rc.RequestCapacityRefill(missing, now, isShuttingDown, forkOk);
      }
    }

    /** restartWorkers up to its first turn; `targeted` is the filtered snapshot of live workers. */
    method RestartWorkers(targeted: seq<int>, staggerMs: int, now: int)
      requires Valid(now) && LegalTargets(View(now), targeted)
      modifies this, rc
      ensures Valid(now) && View(now) == Step(cfg, old(View(now)), FleetModel.RestartWorkers(targeted, staggerMs))
    {
      if isShuttingDown || roll.Rolling? { return; }
      rc.ResetQuarantine(now, isShuttingDown);
      roll := Rolling(targeted, [], [], AtTop, staggerMs, now);
    }

    /** The next turn of rollWorkers, or the end of the roll. */
    method RollTurn(now: int, forkOk: bool)
      requires Valid(now) && roll.Rolling? && roll.phase.AtTop?
      modifies this, rc, wm, crashTracker
      ensures Valid(now) && View(now) == FleetModel.RollTurn(cfg, old(View(now)), forkOk)
    {
      hide RequestRefill, Kick, EnqueueRefills;
      if |roll.turns| >= |roll.targets| {
        RefillIsKick(cfg, rc.View(now, isShuttingDown), forkOk);
        var missing := Max(0, cfg.workers.count - wm.activeWorkers);
        rc.RequestCapacityRefill(missing, now, isShuttingDown, forkOk);
        roll := NoRoll;
        return;
      }
      if isShuttingDown {
        roll := NoRoll;
        return;
      }
      var oldWorker := roll.targets[|roll.turns|];
      if oldWorker !in wm.workerStartTimes {
        roll := roll.(turns := roll.turns + [Skipped(oldWorker)]);
        return;
      }
      ReplaceWorker(oldWorker, now, forkOk);
    }

    /** Fork the replacement, mark the old worker and wait for its exit; or note the failure. */
    method ReplaceWorker(oldWorker: int, now: int, forkOk: bool)
      requires Valid(now) && roll.Rolling? && roll.phase.AtTop? && |roll.turns| < |roll.targets| && !isShuttingDown
      requires oldWorker == roll.targets[|roll.turns|] && oldWorker in wm.workerStartTimes
      modifies this, rc, wm
      ensures Valid(now) && View(now) == FleetModel.RollTurn(cfg, old(View(now)), forkOk)
    {
      hide RequestRefill, SurplusAfter;
      ghost var after := SurplusAfter(cfg, View(now));
      var newWorker := wm.ForkWorker(now, forkOk);
      if newWorker.None? {
        var attempt := rc.NoteForkFailure();
        if rc.IsForkEnvUnrecoverable() {
          roll := NoRoll;
        } else {
          roll := roll.(turns := roll.turns + [ForkFailed(oldWorker)]);
        }
        return;
      }
      rc.NoteForkSuccess();
      if oldWorker in wm.recyclingWorkerIds { surplus := after; }
      wm.MarkForRecycling(oldWorker);
      roll := roll.(turns := roll.turns + [Replaced(oldWorker, newWorker.value)],
                    phase := AwaitingExit(now + Drain.DrainBudget(cfg)));
    }

    /** A suspended roll is given the chance to move. */
    method AdvanceRoll(now: int, forkOk: bool)
      requires Valid(now)
      modifies this, rc, wm, crashTracker
      ensures Valid(now) && View(now) == Step(cfg, old(View(now)), FleetModel.AdvanceRoll(forkOk))
    {
      hide FleetModel.RollTurn;
      if roll.NoRoll? { return; }
      match roll.phase
      case AtTop =>
        RollTurn(now, forkOk);
      case Staggering(until) =>
        if now >= until { roll := roll.(phase := AtTop); }
      case AwaitingExit(killAt) =>
        if roll.turns == [] { return; }
        var oldWorker := roll.turns[|roll.turns| - 1].worker;
        if oldWorker !in wm.workerStartTimes {
          ExitSettled(oldWorker, now);
        } else if now >= killAt {
          forcedKills := forcedKills + 1;
          roll := roll.(phase := Killed(now + KILL_GRACE_MS));
        }
      case Killed(until) =>
        if roll.turns == [] { return; }
        var oldWorker := roll.turns[|roll.turns| - 1].worker;
        if oldWorker !in wm.workerStartTimes || now >= until {
          ExitSettled(oldWorker, now);
        }
    }

    method ExitSettled(oldWorker: int, now: int)
      requires roll.Rolling?
      modifies this`roll
      ensures roll == old(roll).(
                restarted := old(roll).restarted + [oldWorker],
                phase := if old(roll).staggerMs > 0 then Staggering(now + old(roll).staggerMs) else AtTop)
    {
      roll := roll.(restarted := roll.restarted + [oldWorker]);
      roll := roll.(phase := if roll.staggerMs > 0 then Staggering(now + roll.staggerMs) else AtTop);
    }

    /** shutdownPrimary up to and including the latch; the kill list goes to the shutdown coordinator. */
    method ShutdownPrimary(now: int) returns (workers: set<int>)
      requires Valid(now)
      modifies this, rc, wm
      ensures Valid(now) && View(now) == Step(cfg, old(View(now)), BeginShutdown)
      ensures !old(isShuttingDown) ==> workers == Live(old(View(now)))
    {
      workers := {};
      if isShuttingDown { return; }
      rc.CancelBackoffReset();
      wm.StopRecycling();
      workers := wm.workerStartTimes.Keys;
      killList := workers;
      isShuttingDown := true;
    }
  }
}
