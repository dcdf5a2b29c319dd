/**
 * Safety of the fleet over every run: no over-fork, no lost wake-up, and no
 * worker forked once shutdown has begun.
 */
module FleetSafety {
  import opened Wrappers
  import opened Config
  import opened FleetModel

  /** S: workers that count towards capacity, those not marked for recycling. */
  function Serving(p: Pool): int {
    |p.started| - |p.marks|
  }

  ghost predicate PoolOk(p: Pool) {
    && p.active == |p.started|
    && p.marks <= p.started.Keys
    && p.staged <= p.marks
    && forall w | w in p.started :: w < p.nextId
  }

  /** A fork adds one serving worker under a fresh id. */
  lemma ForkServes(p: Pool, now: int)
    requires PoolOk(p)
    ensures var q := Fork(p, now);
            && PoolOk(q) && Serving(q) == Serving(p) + 1
            && q.started.Keys == p.started.Keys + {p.nextId} && q.marks == p.marks && q.staged == p.staged
  {
    var q := Fork(p, now);
    assert q.started.Keys == p.started.Keys + {p.nextId};
    assert |q.started.Keys| == |p.started.Keys| + 1;
  }

  lemma OneLess(s: set<int>, w: int)
    ensures |s - {w}| == |s| - (if w in s then 1 else 0)
  {
    if w !in s {
      assert s - {w} == s;
    }
  }

  /** An exit costs a serving worker unless the worker was marked. */
  lemma CleanupServes(p: Pool, w: int)
    requires PoolOk(p) && w in p.started
    ensures var q := Cleanup(p, w);
            && PoolOk(q)
            && Serving(q) == Serving(p) - (if w in p.marks then 0 else 1)
            && |q.staged| == |p.staged| - (if w in p.staged then 1 else 0)
            && q.started.Keys == p.started.Keys - {w}
  {
    assert Cleanup(p, w).started.Keys == p.started.Keys - {w};
    OneLess(p.started.Keys, w);
    OneLess(p.marks, w);
    OneLess(p.staged, w);
  }

  /** Marking takes a serving worker out; unmarking one that was marked puts it back. */
  lemma MarkServes(p: Pool, w: int)
    requires PoolOk(p) && w in p.started
    ensures PoolOk(Mark(p, w)) && Serving(Mark(p, w)) == Serving(p) - (if w in p.marks then 0 else 1)
  {
    if w in p.marks {
      assert Mark(p, w).marks == p.marks;
    }
  }

  lemma UnmarkServes(p: Pool, w: int)
    requires PoolOk(p) && w in p.marks && w !in p.staged
    ensures PoolOk(Unmark(p, w)) && Serving(Unmark(p, w)) == Serving(p) + 1
  {
  }

  // ---------------------------------------------------------- restart engine

  /** The engine's part of the safety invariant, with `bound` in place of the target. */
  ghost predicate EngineSafe(k: Core, bound: int) {
    && PoolOk(k.pool)
    && (k.engine.queue != [] ==> !k.engine.runner.Idle?)
    && (!k.shuttingDown ==>
          && Serving(k.pool) <= bound
          && (k.engine.runner.Parked? ==> Serving(k.pool) < bound))
  }

  lemma AttemptSafe(c: Config, k: Core, e: Entry, delayMs: real, streak: nat, forkOk: bool, bound: int)
    requires PoolOk(k.pool) && (!k.shuttingDown ==> Serving(k.pool) < bound)
    ensures EngineSafe(Attempt(c, k, e, delayMs, streak, forkOk), bound)
  {
    ForkServes(k.pool, k.now);
  }

  lemma LoopSafe(c: Config, k: Core, forkOk: bool, bound: int)
    requires PoolOk(k.pool) && c.workers.count <= bound
    requires !k.shuttingDown ==> Serving(k.pool) <= bound
    ensures EngineSafe(Loop(c, k, forkOk), bound)
  {
    var queue := k.engine.queue;
    if queue != [] && !k.shuttingDown && Settled(k.pool) < c.workers.count {
      var rest := k.(engine := k.engine.(queue := queue[1..]));
      AttemptSafe(c, rest, queue[0], Wait(c, rest.engine), rest.books.streak, forkOk, bound);
    }
  }

  lemma {:induction false} EnqueueRefillsKeeps(k: Core, count: nat)
    ensures var r := EnqueueRefills(k, count);
            && r.pool == k.pool && r.shuttingDown == k.shuttingDown && r.now == k.now && r.crashes == k.crashes
            && r.engine == k.engine.(queue := r.engine.queue)
            && |r.engine.queue| == |k.engine.queue| + count
            && r.books == k.books.(issued := k.books.issued + count)
  {
    if count > 0 {
      EnqueueRefillsKeeps(k, count - 1);
    }
  }

  /** Queued work with the loop kicked afterwards, as every producer does. */
  lemma KickSafe(c: Config, k: Core, forkOk: bool, bound: int)
    requires PoolOk(k.pool) && c.workers.count <= bound
    requires !k.shuttingDown ==>
      Serving(k.pool) <= bound && (k.engine.runner.Parked? ==> Serving(k.pool) < bound)
    ensures EngineSafe(Kick(c, k, forkOk), bound)
  {
    if k.engine.runner.Idle? {
      LoopSafe(c, k, forkOk, bound);
    }
  }

  lemma CrashSafe(c: Config, k: Core, w: int, bootFailed: bool, hasOnline: bool, forkOk: bool, bound: int)
    requires EngineSafe(k, bound) && c.workers.count <= bound
    ensures EngineSafe(OnWorkerCrash(c, k, w, bootFailed, hasOnline, forkOk), bound)
  {
    var q := AcceptCrash(RecordCrash(c, k, bootFailed, hasOnline), w);
    KickSafe(c, q, forkOk, bound);
  }

  lemma RefillSafe(c: Config, k: Core, forkOk: bool, bound: int)
    requires EngineSafe(k, bound) && c.workers.count <= bound
    ensures EngineSafe(RequestRefill(c, k, forkOk), bound)
  {
    var count := Max(0, c.workers.count - k.pool.active);
    EnqueueRefillsKeeps(k, count);
    KickSafe(c, EnqueueRefills(k, count), forkOk, bound);
  }

  lemma RunnerSafe(c: Config, k: Core, forkOk: bool, bound: int)
    requires EngineSafe(k, bound) && c.workers.count <= bound
    ensures EngineSafe(Wake(c, k, forkOk), bound)
    ensures EngineSafe(Resume(c, k, forkOk), bound)
  {
    if k.engine.runner.Parked? && !k.shuttingDown {
      AttemptSafe(c, k, k.engine.runner.entry, k.engine.runner.delayMs, k.books.parkedStreak, forkOk, bound);
    }
    if k.engine.runner.Looping? {
      LoopSafe(c, k, forkOk, bound);
    }
  }

  /** The engine touches the workers only by forking one, and never once shutdown has begun. */
  ghost predicate ForksAtMostOne(k: Core, r: Core) {
    && r.shuttingDown == k.shuttingDown
    && (r.pool == k.pool || (!k.shuttingDown && r.pool == Fork(k.pool, k.now)))
  }

  lemma LoopForks(c: Config, k: Core, forkOk: bool)
    ensures ForksAtMostOne(k, Loop(c, k, forkOk))
    ensures ForksAtMostOne(k, Kick(c, k, forkOk))
  {
  }

  lemma RunnerForks(c: Config, k: Core, forkOk: bool)
    ensures ForksAtMostOne(k, Wake(c, k, forkOk))
    ensures ForksAtMostOne(k, Resume(c, k, forkOk))
  {
    LoopForks(c, k, forkOk);
  }

  lemma RefillForks(c: Config, k: Core, forkOk: bool)
    ensures ForksAtMostOne(k, RequestRefill(c, k, forkOk))
  {
    var count := Max(0, c.workers.count - k.pool.active);
    EnqueueRefillsKeeps(k, count);
    LoopForks(c, EnqueueRefills(k, count), forkOk);
  }

  lemma CrashForks(c: Config, k: Core, w: int, bootFailed: bool, hasOnline: bool, forkOk: bool)
    ensures ForksAtMostOne(k, OnWorkerCrash(c, k, w, bootFailed, hasOnline, forkOk))
  {
    var q := AcceptCrash(RecordCrash(c, k, bootFailed, hasOnline), w);
    LoopForks(c, q, forkOk);
  }

  // ------------------------------------------------------------ whole fleet

  /**
   * Only roll turns on a marked worker and staggered recycles coming due can
   * raise `surplus`, and only when no slot was free for them.
   */
  ghost predicate Safe(c: Config, f: Fleet) {
    && EngineSafe(f.core, c.workers.count + f.surplus)
    && f.online <= Live(f)
  }

  lemma RollEndSafe(c: Config, f: Fleet, forkOk: bool)
    requires Safe(c, f)
    ensures Safe(c, f.(roll := NoRoll, core := RequestRefill(c, f.core, forkOk)))
  {
    RefillSafe(c, f.core, forkOk, c.workers.count + f.surplus);
    RefillForks(c, f.core, forkOk);
    hide RequestRefill, Serving;
  }

  lemma RollSafe(c: Config, f: Fleet, forkOk: bool)
    requires Safe(c, f)
    ensures Safe(c, RollStep(c, f, forkOk))
  {
    hide RequestRefill;
    if f.roll.Rolling? && f.roll.phase.AtTop? {
      var r := f.roll;
      if |r.turns| >= |r.targets| {
        RollEndSafe(c, f, forkOk);
      } else {
        var w := r.targets[|r.turns|];
        if w in Live(f) {
          ForkServes(f.core.pool, f.core.now);
          MarkServes(Fork(f.core.pool, f.core.now), w);
        }
      }
    }
  }

  lemma RecycleSafe(c: Config, f: Fleet, w: int, forkOk: bool)
    requires Safe(c, f)
    ensures Safe(c, OnRecycle(f, w, forkOk))
  {
    var p := f.core.pool;
    if w in p.started {
      MarkServes(p, w);
      ForkServes(Mark(p, w), f.core.now);
    }
  }

  lemma StaggerSafe(c: Config, f: Fleet, w: int, forkOk: bool)
    requires Safe(c, f)
    ensures Safe(c, OnStaggerFires(c, f, w, forkOk))
  {
    var p := f.core.pool;
    if w in p.staged {
      var q := p.(staged := p.staged - {w});
      assert q.staged <= q.marks;
      ForkServes(q, f.core.now);
      UnmarkServes(q, w);
    }
  }

  lemma SweepSafe(c: Config, f: Fleet)
    requires Safe(c, f)
    ensures Safe(c, OnSweep(c, f))
  {
    var aged := Aged(c, f.core);
    CardinalityMonotone(f.core.pool.marks, f.core.pool.marks + aged);
  }

  lemma {:induction false} CardinalityMonotone(a: set<int>, b: set<int>)
    requires a <= b
    ensures |a| <= |b|
  {
    assert b == a + (b - a);
    assert |b| == |a| + |b - a|;
  }

  lemma CrashExitSafe(c: Config, f: Fleet, k: Core, w: int, bootFailed: bool, forkOk: bool)
    requires Safe(c, f) && EngineSafe(k, c.workers.count + f.surplus)
    requires k.pool.started.Keys == Live(f) - {w}
    ensures var online := f.online - {w};
            Safe(c, f.(core := OnWorkerCrash(c, k, w, bootFailed, online != {}, forkOk), online := online))
  {
    var online := f.online - {w};
    CrashSafe(c, k, w, bootFailed, online != {}, forkOk, c.workers.count + f.surplus);
    CrashForks(c, k, w, bootFailed, online != {}, forkOk);
  }

  lemma ExitSafe(c: Config, f: Fleet, w: int, graceful: bool, forkOk: bool)
    requires Safe(c, f)
    ensures Safe(c, OnExit(c, f, w, graceful, forkOk))
  {
    if w in Live(f) {
      CleanupServes(f.core.pool, w);
      var k := f.core.(pool := Cleanup(f.core.pool, w));
      var r := k.(engine := k.engine.(resetAt := None));
      assert EngineSafe(r, c.workers.count + f.surplus);
      if !f.core.shuttingDown && !graceful {
        CrashExitSafe(c, f, r, w, w !in f.online, forkOk);
      }
    }
  }

  lemma StepSafe(c: Config, f: Fleet, e: Event)
    requires Safe(c, f)
    ensures Safe(c, Step(c, f, e))
  {
    hide Serving, Wake, Resume, RequestRefill, OnExit, RollStep, OnRecycle, OnSweep, OnStaggerFires;
    match e
    case Exit(w, graceful, forkOk) => ExitSafe(c, f, w, graceful, forkOk);
    case WakeRunner(forkOk) =>
      RunnerSafe(c, f.core, forkOk, c.workers.count + f.surplus);
      RunnerForks(c, f.core, forkOk);
    case ResumeRunner(forkOk) =>
      RunnerSafe(c, f.core, forkOk, c.workers.count + f.surplus);
      RunnerForks(c, f.core, forkOk);
    case Recycle(w, forkOk) => RecycleSafe(c, f, w, forkOk);
    case Sweep => SweepSafe(c, f);
    case StaggerFires(w, forkOk) => StaggerSafe(c, f, w, forkOk);
    case ResetBreaker(forkOk) =>
      RefillSafe(c, ResetEngine(f.core), forkOk, c.workers.count + f.surplus);
      RefillForks(c, ResetEngine(f.core), forkOk);
    case AdvanceRoll(forkOk) => RollSafe(c, f, forkOk);
    case _ =>
  }

  lemma {:induction false} ForkManyServes(p: Pool, now: int, count: nat)
    requires PoolOk(p)
    ensures PoolOk(ForkMany(p, now, count)) && Serving(ForkMany(p, now, count)) == Serving(p) + count
    ensures ForkMany(p, now, count).marks == p.marks && ForkMany(p, now, count).staged == p.staged
  {
    if count > 0 {
      ForkManyServes(p, now, count - 1);
      ForkServes(ForkMany(p, now, count - 1), now);
    }
  }

  lemma {:induction false} RunSafe(c: Config, now: int, events: seq<Event>)
    requires ValidConfig(c)
    ensures Safe(c, Run(c, Started(c, now), events))
  {
    if events == [] {
      ForkManyServes(Pool(map[], 1, {}, {}, 0), now, c.workers.count);
    } else {
      RunSafe(c, now, events[..|events| - 1]);
      StepSafe(c, Run(c, Started(c, now), events[..|events| - 1]), events[|events| - 1]);
    }
  }

  /**
   * No over-fork, whatever the order of crashes, recycles, rolls and operator
   * calls: outside shutdown the serving workers exceed the target by at most
   * the surplus, and stay strictly below that bound while a restart waits.
   */
  lemma NoOverFork(c: Config, now: int, events: seq<Event>)
    requires ValidConfig(c)
    ensures var f := Run(c, Started(c, now), events);
            && f.core.pool.marks <= Live(f)
            && f.core.pool.active == |Live(f)|
            && (!f.core.shuttingDown ==>
                  && Serving(f.core.pool) <= c.workers.count + f.surplus
                  && (f.core.engine.runner.Parked? ==> Serving(f.core.pool) < c.workers.count + f.surplus))
  {
    RunSafe(c, now, events);
  }

  /** Only a step that fills a slot while none is free raises the surplus, and then exactly to what is filled. */
  lemma SurplusStep(c: Config, f: Fleet, e: Event)
    requires Safe(c, f) && !f.core.shuttingDown
    ensures var r := Step(c, f, e);
            r.surplus == f.surplus
            || (r.surplus == f.surplus + 1 && Filled(r.core) == c.workers.count + r.surplus && !r.core.shuttingDown)
  {
    hide Wake, Resume, RequestRefill, OnExit, OnRecycle, OnSweep, Loop, Filled, OnStaggerFires, RollStep;
    match e
    case StaggerFires(w, forkOk) => StaggerSurplus(c, f, w, forkOk);
    case AdvanceRoll(forkOk) => RollSurplus(c, f, forkOk);
    case Exit(w, graceful, forkOk) => ExitSurplus(c, f, w, graceful, forkOk);
    case Recycle(w, forkOk) => RecycleSurplus(f, w, forkOk);
    case Sweep => SweepSurplus(c, f);
    case _ =>
  }

  lemma StaggerSurplus(c: Config, f: Fleet, w: int, forkOk: bool)
    requires Safe(c, f) && !f.core.shuttingDown
    ensures var r := OnStaggerFires(c, f, w, forkOk);
            r.surplus == f.surplus
            || (r.surplus == f.surplus + 1 && Filled(r.core) == c.workers.count + r.surplus && !r.core.shuttingDown)
  {
    if w in f.core.pool.staged {
      var q := f.core.pool.(staged := f.core.pool.staged - {w});
      ForkServes(q, f.core.now);
      UnmarkServes(q, w);
    }
  }

  lemma RollSurplus(c: Config, f: Fleet, forkOk: bool)
    requires Safe(c, f) && !f.core.shuttingDown
    ensures var r := RollStep(c, f, forkOk);
            r.surplus == f.surplus
            || (r.surplus == f.surplus + 1 && Filled(r.core) == c.workers.count + r.surplus && !r.core.shuttingDown)
  {
    hide RequestRefill;
    if f.roll.Rolling? && f.roll.phase.AtTop? && |f.roll.turns| < |f.roll.targets| {
      var w := f.roll.targets[|f.roll.turns|];
      if w in Live(f) {
        ForkServes(f.core.pool, f.core.now);
        MarkServes(Fork(f.core.pool, f.core.now), w);
      }
    }
  }

  lemma ExitSurplus(c: Config, f: Fleet, w: int, graceful: bool, forkOk: bool)
    ensures OnExit(c, f, w, graceful, forkOk).surplus == f.surplus
  {
  }

  lemma RecycleSurplus(f: Fleet, w: int, forkOk: bool)
    ensures OnRecycle(f, w, forkOk).surplus == f.surplus
  {
  }

  lemma SweepSurplus(c: Config, f: Fleet)
    ensures OnSweep(c, f).surplus == f.surplus
  {
  }

  /** In shutdown no slot is filled any more. */
  lemma SurplusSettled(c: Config, f: Fleet, e: Event)
    requires f.core.shuttingDown && f.core.pool.staged == {}
    ensures var r := Step(c, f, e); r.surplus == f.surplus && r.core.shuttingDown && r.core.pool.staged == {}
  {
    hide Wake, Resume, RequestRefill, OnWorkerCrash;
    match e
    case WakeRunner(forkOk) => RunnerForks(c, f.core, forkOk);
    case ResumeRunner(forkOk) => RunnerForks(c, f.core, forkOk);
    case AdvanceRoll(forkOk) => RefillForks(c, f.core, forkOk);
    case _ =>
  }

  lemma {:induction false} NothingStagedInShutdown(c: Config, now: int, events: seq<Event>)
    ensures var f := Run(c, Started(c, now), events); f.core.shuttingDown ==> f.core.pool.staged == {}
  {
    hide Step;
    if events != [] {
      var n := |events| - 1;
      NothingStagedInShutdown(c, now, events[..n]);
      var f := Run(c, Started(c, now), events[..n]);
      if f.core.shuttingDown {
        SurplusSettled(c, f, events[n]);
      } else if events[n] != BeginShutdown {
        ShutdownOnlyByRequest(c, f, events[n]);
      } else {
        StopClears(c, f);
      }
    }
  }

  lemma StopClears(c: Config, f: Fleet)
    requires !f.core.shuttingDown
    ensures Step(c, f, BeginShutdown).core.pool == f.core.pool.(marks := {}, staged := {})
  {
  }

  /** After `i` events of the run, before any shutdown, so many slots are filled. */
  ghost predicate FilledAt(c: Config, f: Fleet, events: seq<Event>, i: int, slots: int) {
    && 0 <= i <= |events|
    && !Run(c, f, events[..i]).core.shuttingDown && Filled(Run(c, f, events[..i]).core) == slots
  }

  /** At some point of the run so many slots were filled. */
  ghost predicate Reached(c: Config, f: Fleet, events: seq<Event>, slots: int) {
    exists i :: FilledAt(c, f, events, i, slots)
  }

  /** The bound of NoOverFork is exact: any surplus is an excess that the run did reach. */
  lemma {:induction false} SurplusIsReached(c: Config, now: int, events: seq<Event>)
    requires ValidConfig(c)
    ensures var f := Run(c, Started(c, now), events);
            f.surplus > 0 ==> Reached(c, Started(c, now), events, c.workers.count + f.surplus)
  {
    hide Step, Safe;
    if events != [] {
      var n, start := |events| - 1, Started(c, now);
      var init := events[..n];
      SurplusIsReached(c, now, init);
      RunSafe(c, now, init);
      var f := Run(c, start, init);
      if f.core.shuttingDown {
        NothingStagedInShutdown(c, now, init);
        SurplusSettled(c, f, events[n]);
      } else {
        SurplusStep(c, f, events[n]);
      }
      var r := Run(c, start, events);
      if r.surplus == f.surplus > 0 {
        ReachedEarlier(c, start, init, events[n], c.workers.count + f.surplus);
        assert init + [events[n]] == events;
      } else if r.surplus > 0 {
        assert events[..|events|] == events;
        assert FilledAt(c, start, events, |events|, c.workers.count + r.surplus);
      }
    }
  }

  lemma ReachedEarlier(c: Config, f: Fleet, events: seq<Event>, e: Event, slots: int)
    requires Reached(c, f, events, slots)
    ensures Reached(c, f, events + [e], slots)
  {
    hide Run, Filled;
    var i :| FilledAt(c, f, events, i, slots);
    assert (events + [e])[..i] == events[..i];
    assert FilledAt(c, f, events + [e], i, slots);
  }

  /** A roll turn that forks for a worker already marked for recycling. */
  ghost predicate RollsMarked(f: Fleet, e: Event) {
    && e.AdvanceRoll? && e.forkOk && !f.core.shuttingDown
    && f.roll.Rolling? && f.roll.phase.AtTop? && |f.roll.turns| < |f.roll.targets|
    && var w := f.roll.targets[|f.roll.turns|]; w in Live(f) && w in f.core.pool.marks
  }

  /** Every roll turn of the run takes an unmarked worker. */
  ghost predicate CleanRolls(c: Config, f: Fleet, events: seq<Event>) {
    forall i | 0 <= i < |events| :: !RollsMarked(Run(c, f, events[..i]), events[i])
  }

  /** Without age-based recycling and with clean rolls there is no surplus at all. */
  lemma {:induction false} CleanRunHasNoSurplus(c: Config, now: int, events: seq<Event>)
    requires ValidConfig(c) && c.workers.maxAgeMs == 0
    requires CleanRolls(c, Started(c, now), events)
    ensures var f := Run(c, Started(c, now), events);
            f.surplus == 0 && f.core.pool.staged == {}
  {
    if events == [] {
      ForkManyServes(Pool(map[], 1, {}, {}, 0), now, c.workers.count);
    } else {
      var n := |events| - 1;
      var f := Started(c, now);
      forall i | 0 <= i < n
        ensures !RollsMarked(Run(c, f, events[..n][..i]), events[..n][i])
      {
        assert events[..n][..i] == events[..i];
      }
      CleanRunHasNoSurplus(c, now, events[..n]);
      assert !RollsMarked(Run(c, f, events[..n]), events[n]);
      NoSurplusStep(c, Run(c, f, events[..n]), events[n]);
    }
  }

  lemma NoSurplusStep(c: Config, f: Fleet, e: Event)
    requires c.workers.maxAgeMs == 0 && f.core.pool.staged == {} && !RollsMarked(f, e)
    ensures Step(c, f, e).surplus == f.surplus && Step(c, f, e).core.pool.staged == {}
  {
    match e
    case Exit(w, graceful, forkOk) =>
      if w in Live(f) {
        var k := f.core.(pool := Cleanup(f.core.pool, w), engine := f.core.engine.(resetAt := None));
        CrashForks(c, k, w, w !in f.online, f.online - {w} != {}, forkOk);
      }
    case WakeRunner(forkOk) => RunnerForks(c, f.core, forkOk);
    case ResumeRunner(forkOk) => RunnerForks(c, f.core, forkOk);
    case ResetBreaker(forkOk) => RefillForks(c, ResetEngine(f.core), forkOk);
    case AdvanceRoll(forkOk) => RefillForks(c, f.core, forkOk);
    case _ =>
  }

  /** The bound of the supervisor: never more serving workers than the target. */
  lemma {:induction false} NeverAboveTarget(c: Config, now: int, events: seq<Event>)
    requires ValidConfig(c) && c.workers.maxAgeMs == 0
    requires CleanRolls(c, Started(c, now), events)
    ensures var f := Run(c, Started(c, now), events);
            !f.core.shuttingDown ==>
              && Serving(f.core.pool) <= c.workers.count
              && (f.core.engine.runner.Parked? ==> Serving(f.core.pool) < c.workers.count)
  {
    NoOverFork(c, now, events);
    CleanRunHasNoSurplus(c, now, events);
  }

  /** A staggered recycle coming due always fills a slot, so it keeps the target exactly when one was free. */
  lemma StaggerOverForksIffFull(c: Config, f: Fleet, w: int, forkOk: bool)
    requires Safe(c, f) && w in f.core.pool.staged
    ensures var r := Step(c, f, StaggerFires(w, forkOk));
            && Serving(r.core.pool) == Serving(f.core.pool) + 1
            && Filled(r.core) == Filled(f.core) + 1
            && (Filled(r.core) <= c.workers.count <==> Filled(f.core) < c.workers.count)
  {
    var q := f.core.pool.(staged := f.core.pool.staged - {w});
    ForkServes(q, f.core.now);
    UnmarkServes(q, w);
  }

  /**
   * A roll turn that forks fills a slot only if its worker is marked already,
   * so it keeps the target exactly when the worker is not or a slot was free.
   */
  lemma RollTurnOverForksIffMarked(c: Config, f: Fleet)
    requires Safe(c, f) && !f.core.shuttingDown && Filled(f.core) <= c.workers.count
    requires f.roll.Rolling? && f.roll.phase.AtTop? && |f.roll.turns| < |f.roll.targets|
    requires f.roll.targets[|f.roll.turns|] in Live(f)
    ensures var marked := f.roll.targets[|f.roll.turns|] in f.core.pool.marks;
            var r := Step(c, f, AdvanceRoll(true));
            && Filled(r.core) == Filled(f.core) + (if marked then 1 else 0)
            && (Filled(r.core) <= c.workers.count <==> !marked || Filled(f.core) < c.workers.count)
  {
    ForkServes(f.core.pool, f.core.now);
    MarkServes(Fork(f.core.pool, f.core.now), f.roll.targets[|f.roll.turns|]);
  }

  /** The step fills a slot without looking: a staggered recycle, or a roll turn that forks for a marked worker. */
  ghost predicate FillsBlindly(f: Fleet, e: Event) {
    !f.core.shuttingDown && ((e.StaggerFires? && e.w in f.core.pool.staged) || RollsMarked(f, e))
  }

  /** Such a step with no slot free is one over the target, any other step keeps it. */
  lemma BlindStep(c: Config, f: Fleet, e: Event)
    requires Safe(c, f) && !f.core.shuttingDown && f.surplus == 0
    ensures var r := Step(c, f, e);
            && (FillsBlindly(f, e) ==> Filled(r.core) == Filled(f.core) + 1 && !r.core.shuttingDown)
            && (!(FillsBlindly(f, e) && Filled(f.core) >= c.workers.count) ==> r.surplus == 0)
  {
    hide Filled, OnStaggerFires, RollStep, Wake, Resume, RequestRefill, OnExit, OnRecycle, OnSweep, SurplusAfter;
    match e
    case StaggerFires(w, forkOk) => BlindStagger(c, f, w, forkOk);
    case AdvanceRoll(forkOk) => BlindRoll(c, f, forkOk);
    case Exit(w, graceful, forkOk) => ExitSurplus(c, f, w, graceful, forkOk);
    case Recycle(w, forkOk) => RecycleSurplus(f, w, forkOk);
    case Sweep => SweepSurplus(c, f);
    case _ =>
  }

  lemma BlindStagger(c: Config, f: Fleet, w: int, forkOk: bool)
    requires Safe(c, f) && !f.core.shuttingDown && f.surplus == 0
    ensures var r := OnStaggerFires(c, f, w, forkOk);
            && (w in f.core.pool.staged ==> Filled(r.core) == Filled(f.core) + 1 && !r.core.shuttingDown)
            && (!(w in f.core.pool.staged && Filled(f.core) >= c.workers.count) ==> r.surplus == 0)
  {
    if w in f.core.pool.staged { StaggerOverForksIffFull(c, f, w, forkOk); }
  }

  lemma BlindRoll(c: Config, f: Fleet, forkOk: bool)
    requires Safe(c, f) && !f.core.shuttingDown && f.surplus == 0
    ensures var r := RollStep(c, f, forkOk); var blind := RollsMarked(f, AdvanceRoll(forkOk));
            && (blind ==> Filled(r.core) == Filled(f.core) + 1 && !r.core.shuttingDown)
            && (!(blind && Filled(f.core) >= c.workers.count) ==> r.surplus == 0)
  {
    hide RequestRefill;
    if RollsMarked(f, AdvanceRoll(forkOk)) {
      ForkServes(f.core.pool, f.core.now);
      MarkServes(Fork(f.core.pool, f.core.now), f.roll.targets[|f.roll.turns|]);
    }
  }

  /** Up to shutdown, no more slots are ever filled than the target has. */
  ghost predicate KeepsTarget(c: Config, f: Fleet, events: seq<Event>) {
    forall i | 0 <= i <= |events| ::
      var r := Run(c, f, events[..i]); !r.core.shuttingDown ==> Filled(r.core) <= c.workers.count
  }

  /** No slot is filled blindly while none is free. */
  ghost predicate FillsWithCare(c: Config, f: Fleet, events: seq<Event>) {
    forall i | 0 <= i < |events| ::
      var r := Run(c, f, events[..i]); FillsBlindly(r, events[i]) ==> Filled(r.core) < c.workers.count
  }

  /**
   * The exact condition of the target, over runs: a run of a started fleet
   * never fills more slots than the target has if and only if every staggered
   * recycle coming due, and every roll turn that forks for a marked worker,
   * finds a slot that neither a serving worker nor a waiting restart has.
   */
  lemma {:induction false} TargetKeptIff(c: Config, now: int, events: seq<Event>)
    requires ValidConfig(c)
    ensures KeepsTarget(c, Started(c, now), events) <==> FillsWithCare(c, Started(c, now), events)
  {
    hide Step, Filled, FillsBlindly, Started;
    var start := Started(c, now);
    if KeepsTarget(c, start, events) {
      forall i | 0 <= i < |events|
        ensures FillsBlindly(Run(c, start, events[..i]), events[i]) ==>
                  Filled(Run(c, start, events[..i]).core) < c.workers.count
      {
        KeptSoFar(c, now, events, i);
      }
    }
    if FillsWithCare(c, start, events) {
      forall i | 0 <= i <= |events|
        ensures var r := Run(c, start, events[..i]); !r.core.shuttingDown ==> Filled(r.core) <= c.workers.count
      {
        CarefulSoFar(c, now, events, i);
      }
    }
  }

  /** If the target is kept up to after event `i`, that event did not fill a slot that was taken. */
  lemma KeptSoFar(c: Config, now: int, events: seq<Event>, i: nat)
    requires ValidConfig(c) && i < |events| && KeepsTarget(c, Started(c, now), events)
    ensures var f := Run(c, Started(c, now), events[..i]);
            FillsBlindly(f, events[i]) ==> Filled(f.core) < c.workers.count
  {
    hide Step, Started, Filled, Run;
    var start := Started(c, now);
    var f := Run(c, start, events[..i]);
    RunPrefix(c, start, events, i);
    RunSafe(c, now, events[..i]);
    if FillsBlindly(f, events[i]) {
      NoSurplusWhileKept(c, now, events, i);
      BlindStep(c, f, events[i]);
      assert Filled(Run(c, start, events[..i + 1]).core) <= c.workers.count;
    }
  }

  lemma {:induction false} NoSurplusWhileKept(c: Config, now: int, events: seq<Event>, i: nat)
    requires ValidConfig(c) && i <= |events| && KeepsTarget(c, Started(c, now), events)
    ensures Run(c, Started(c, now), events[..i]).surplus == 0
  {
    hide Step, Filled, Run, KeepsTarget;
    SurplusIsReached(c, now, events[..i]);
    var f := Run(c, Started(c, now), events[..i]);
    if f.surplus > 0 {
      ReachedKept(c, Started(c, now), events, i, c.workers.count + f.surplus);
    }
  }

  lemma ReachedKept(c: Config, f: Fleet, events: seq<Event>, i: nat, slots: int)
    requires i <= |events| && KeepsTarget(c, f, events) && Reached(c, f, events[..i], slots)
    ensures slots <= c.workers.count
  {
    hide Step, Filled, Run;
    var j :| FilledAt(c, f, events[..i], j, slots);
    assert events[..i][..j] == events[..j];
  }

  lemma {:induction false} CarefulSoFar(c: Config, now: int, events: seq<Event>, i: nat)
    requires ValidConfig(c) && i <= |events| && FillsWithCare(c, Started(c, now), events)
    ensures var r := Run(c, Started(c, now), events[..i]);
            r.surplus == 0 && (!r.core.shuttingDown ==> Filled(r.core) <= c.workers.count)
  {
    hide Step, FillsBlindly;
    var start := Started(c, now);
    if i > 0 {
      CarefulSoFar(c, now, events, i - 1);
      RunPrefix(c, start, events, i - 1);
      var f := Run(c, start, events[..i - 1]);
      RunSafe(c, now, events[..i - 1]);
      if f.core.shuttingDown {
        NothingStagedInShutdown(c, now, events[..i - 1]);
        SurplusSettled(c, f, events[i - 1]);
      } else {
        BlindStep(c, f, events[i - 1]);
      }
    }
    RunSafe(c, now, events[..i]);
    if !Run(c, start, events[..i]).core.shuttingDown {
      SafeFilled(c, Run(c, start, events[..i]));
    }
  }

  lemma SafeFilled(c: Config, f: Fleet)
    requires Safe(c, f) && !f.core.shuttingDown
    ensures Filled(f.core) <= c.workers.count + f.surplus
  {
  }

  /**
   * The race behind it. On any fleet at target, roll two workers; while the roll
   * waits for the first to leave, a policy recycles the second; then the first
   * replacement comes online, the first worker leaves and the roll takes its
   * next turn: one worker too many.
   */
  lemma RecycleOvertakesRoll(c: Config, f: Fleet, v: int, w: int)
    requires Safe(c, f) && !f.core.shuttingDown && f.roll.NoRoll?
    requires Serving(f.core.pool) == c.workers.count && v != w
    requires v in Live(f) && v !in f.core.pool.marks && w in Live(f) && w !in f.core.pool.marks
    ensures var events := [RestartWorkers([v, w], 0), AdvanceRoll(true), Recycle(w, true),
                           Online(f.core.pool.nextId), Exit(v, true, true), AdvanceRoll(true), AdvanceRoll(true)];
            Serving(Run(c, f, events).core.pool) == c.workers.count + 1
  {
    hide Run, Serving, Step;
    var events := [RestartWorkers([v, w], 0), AdvanceRoll(true), Recycle(w, true),
                   Online(f.core.pool.nextId), Exit(v, true, true), AdvanceRoll(true), AdvanceRoll(true)];
    RollThenRecycle(c, f, v, w, events);
    LeaveThenTurn(c, f, v, w, events);
    assert events[..7] == events;
  }

  /** Both workers marked, while the roll waits for the first. */
  ghost predicate Overtaken(f: Fleet, v: int, w: int) {
    && RollsPair(f, v, w, 1, true)
    && v in Live(f) && v in f.core.pool.marks && w in Live(f) && w in f.core.pool.marks
  }

  lemma RollThenRecycle(c: Config, f: Fleet, v: int, w: int, events: seq<Event>)
    requires Safe(c, f) && !f.core.shuttingDown && f.roll.NoRoll? && v != w
    requires v in Live(f) && v !in f.core.pool.marks && w in Live(f) && w !in f.core.pool.marks
    requires |events| >= 3 && events[0] == RestartWorkers([v, w], 0)
    requires events[1] == AdvanceRoll(true) && events[2] == Recycle(w, true)
    ensures var r := Run(c, f, events[..3]); Overtaken(r, v, w) && Serving(r.core.pool) == Serving(f.core.pool)
  {
    hide Run, Serving, RollTurn, OnRecycle, OnRestartWorkers, RollStep, LegalTargets;
    NoEvents(c, f, events);
    RunPrefix(c, f, events, 0);
    RollStarts(f, v, w);
    RunPrefix(c, f, events, 1);
    TurnSwaps(c, Run(c, f, events[..1]), v, w);
    RunPrefix(c, f, events, 2);
    RecycleSwaps(Run(c, f, events[..2]), w);
  }

  lemma LeaveThenTurn(c: Config, f: Fleet, v: int, w: int, events: seq<Event>)
    requires |events| >= 7 && Overtaken(Run(c, f, events[..3]), v, w) && v != w
    requires events[3].Online? && events[4] == Exit(v, true, true)
    requires events[5] == events[6] == AdvanceRoll(true)
    ensures Serving(Run(c, f, events[..7]).core.pool) == Serving(Run(c, f, events[..3]).core.pool) + 1
  {
    hide Run, Serving, RollTurn, RollStep, Overtaken;
    RunPrefix(c, f, events, 3);
    RunPrefix(c, f, events, 4);
    FirstLeaves(c, Run(c, f, events[..3]), v, w, events[3].w);
    RunPrefix(c, f, events, 5);
    NextTarget(c, Run(c, f, events[..5]), v, w);
    RunPrefix(c, f, events, 6);
    TurnOnMarked(c, Run(c, f, events[..6]), v, w);
  }

  lemma FirstLeaves(c: Config, f: Fleet, v: int, w: int, x: int)
    requires Overtaken(f, v, w) && v != w
    ensures var r := Step(c, Step(c, f, Online(x)), Exit(v, true, true));
            && RollsPair(r, v, w, 1, true) && v !in Live(r) && w in Live(r) && w in r.core.pool.marks
            && Serving(r.core.pool) == Serving(f.core.pool)
  {
    hide Serving, OnExit, OnOnline, PoolOk;
    OnlineKeepsPool(c, f, x);
    MarkedExitIsFree(c, OnOnline(c, f, x), v);
  }

  lemma OnlineKeepsPool(c: Config, f: Fleet, w: int)
    ensures var r := OnOnline(c, f, w);
            r.core.pool == f.core.pool && r.core.shuttingDown == f.core.shuttingDown && r.roll == f.roll
  {
  }

  lemma RunPrefix(c: Config, f: Fleet, events: seq<Event>, i: nat)
    requires i < |events|
    ensures Run(c, f, events[..i + 1]) == Step(c, Run(c, f, events[..i]), events[i])
  {
    hide Step;
    assert events[..i + 1][..i] == events[..i];
  }

  lemma NoEvents(c: Config, f: Fleet, events: seq<Event>)
    ensures Run(c, f, events[..0]) == f
  {
  }

  lemma RunNext(c: Config, f: Fleet, events: seq<Event>, e: Event)
    ensures Run(c, f, events + [e]) == Step(c, Run(c, f, events), e)
  {
    hide Step;
    assert (events + [e])[..|events|] == events;
  }

  /** A fleet outside shutdown whose roll of `v` and `w` is in the given place. */
  ghost predicate RollsPair(f: Fleet, v: int, w: int, turns: nat, waiting: bool) {
    && PoolOk(f.core.pool) && !f.core.shuttingDown
    && f.roll.Rolling? && f.roll.targets == [v, w] && f.roll.staggerMs == 0 && |f.roll.turns| == turns
    && (waiting ==> f.roll.phase.AwaitingExit? && turns > 0 && f.roll.turns[turns - 1].worker == v)
    && (!waiting ==> f.roll.phase.AtTop?)
  }

  lemma RollStarts(f: Fleet, v: int, w: int)
    requires PoolOk(f.core.pool) && !f.core.shuttingDown && f.roll.NoRoll?
    requires v != w && v in Live(f) && w in Live(f)
    ensures LegalTargets(f, [v, w])
    ensures var r := OnRestartWorkers(f, [v, w], 0); RollsPair(r, v, w, 0, false) && r.core.pool == f.core.pool
  {
  }

  lemma TurnSwaps(c: Config, f: Fleet, v: int, w: int)
    requires RollsPair(f, v, w, 0, false) && v in Live(f) && v !in f.core.pool.marks
    requires v != w && w in Live(f) && w !in f.core.pool.marks
    ensures var r := RollStep(c, f, true);
            && RollsPair(r, v, w, 1, true) && Serving(r.core.pool) == Serving(f.core.pool)
            && v in Live(r) && v in r.core.pool.marks && w in Live(r) && w !in r.core.pool.marks
  {
    hide Serving;
    ForkServes(f.core.pool, f.core.now);
    MarkServes(Fork(f.core.pool, f.core.now), v);
  }

  lemma RecycleSwaps(f: Fleet, w: int)
    requires PoolOk(f.core.pool) && !f.core.shuttingDown && w in Live(f) && w !in f.core.pool.marks
    ensures var r := OnRecycle(f, w, true);
            && r == f.(core := f.core.(pool := r.core.pool))
            && PoolOk(r.core.pool) && Serving(r.core.pool) == Serving(f.core.pool)
            && Live(f) <= Live(r) && r.core.pool.marks == f.core.pool.marks + {w}
  {
    hide Serving;
    MarkServes(f.core.pool, w);
    ForkServes(Mark(f.core.pool, w), f.core.now);
  }

  lemma MarkedExitIsFree(c: Config, f: Fleet, v: int)
    requires PoolOk(f.core.pool) && !f.core.shuttingDown && v in Live(f) && v in f.core.pool.marks
    ensures var r := OnExit(c, f, v, true, true);
            && r.roll == f.roll && r.core == f.core.(pool := r.core.pool)
            && PoolOk(r.core.pool) && Serving(r.core.pool) == Serving(f.core.pool)
            && Live(r) == Live(f) - {v} && r.core.pool.marks == f.core.pool.marks - {v}
  {
    hide Serving;
    CleanupServes(f.core.pool, v);
  }

  lemma NextTarget(c: Config, f: Fleet, v: int, w: int)
    requires RollsPair(f, v, w, 1, true) && v !in Live(f)
    ensures var r := RollStep(c, f, true); RollsPair(r, v, w, 1, false) && r.core == f.core
  {
  }

  lemma TurnOnMarked(c: Config, f: Fleet, v: int, w: int)
    requires RollsPair(f, v, w, 1, false) && w in Live(f) && w in f.core.pool.marks
    ensures Serving(RollStep(c, f, true).core.pool) == Serving(f.core.pool) + 1
  {
    ForkServes(f.core.pool, f.core.now);
    MarkServes(Fork(f.core.pool, f.core.now), w);
  }

  // -------------------------------------------------------- no lost wake-up

  /** At every step boundary, queued restarts have a loop that will take them. */
  lemma {:induction false} NoLostWakeUp(c: Config, now: int, events: seq<Event>)
    requires ValidConfig(c)
    ensures var g := Run(c, Started(c, now), events).core.engine;
            g.queue != [] ==> g.runner.Parked? || g.runner.Looping?
  {
    RunSafe(c, now, events);
  }

  // --------------------------------------------------- no orphan at shutdown

  /** Once shutdown has begun, no event forks: the living only get fewer. */
  lemma ShutdownForksNothing(c: Config, f: Fleet, e: Event)
    requires f.core.shuttingDown
    ensures var r := Step(c, f, e);
            r.core.shuttingDown && Live(r) <= Live(f) && r.core.pool.nextId == f.core.pool.nextId
            && r.killList == f.killList
  {
    match e
    case Exit(w, graceful, forkOk) =>
    case WakeRunner(forkOk) => RunnerForks(c, f.core, forkOk);
    case ResumeRunner(forkOk) => RunnerForks(c, f.core, forkOk);
    case ResetBreaker(forkOk) =>
    case AdvanceRoll(forkOk) => RefillForks(c, f.core, forkOk);
    case _ =>
  }

  /** Every worker alive after shutdown began is on the kill list captured when it began. */
  lemma {:induction false} NoOrphan(c: Config, now: int, events: seq<Event>)
    ensures var f := Run(c, Started(c, now), events);
            f.core.shuttingDown ==> Live(f) <= f.killList
  {
    if events != [] {
      var n := |events| - 1;
      NoOrphan(c, now, events[..n]);
      var f := Run(c, Started(c, now), events[..n]);
      if f.core.shuttingDown {
        ShutdownForksNothing(c, f, events[n]);
      } else if events[n] != BeginShutdown {
        ShutdownOnlyByRequest(c, f, events[n]);
      }
    }
  }

  lemma ShutdownOnlyByRequest(c: Config, f: Fleet, e: Event)
    requires !f.core.shuttingDown && e != BeginShutdown
    ensures !Step(c, f, e).core.shuttingDown
  {
    match e
    case Exit(w, graceful, forkOk) =>
      if w in Live(f) {
        var k := f.core.(pool := Cleanup(f.core.pool, w), engine := f.core.engine.(resetAt := None));
        CrashForks(c, k, w, w !in f.online, f.online - {w} != {}, forkOk);
      }
    case WakeRunner(forkOk) => RunnerForks(c, f.core, forkOk);
    case ResumeRunner(forkOk) => RunnerForks(c, f.core, forkOk);
    case ResetBreaker(forkOk) => RefillForks(c, ResetEngine(f.core), forkOk);
    case AdvanceRoll(forkOk) => RefillForks(c, f.core, forkOk);
    case _ =>
  }
}
