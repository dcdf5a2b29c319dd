/**
 * How fast the restart engine may go, on every run: the crash-loop rate limit,
 * the closed form of the backoff, and the bound on fork attempts.
 */
module FleetPacing {
  import opened Wrappers
  import opened Config
  import opened CrashTracking
  import opened FleetModel
  import opened FleetSafety
  import opened FleetCapacity

  // ------------------------------------------------------------- rate limit

  ghost predicate UpTo(log: seq<int>, now: int) {
    forall i | 0 <= i < |log| :: log[i] <= now
  }

  /** Every accepted crash is a recorded one. */
  ghost predicate Dominates(log: seq<int>, accepted: seq<int>) {
    forall a, b :: CountIn(accepted, a, b) <= CountIn(log, a, b)
  }

  /** No interval (a, b] of the window's length holds `threshold` accepted crashes. */
  ghost predicate Limited(accepted: seq<int>, windowMs: int, threshold: int) {
    forall a, b | b - a <= windowMs :: CountIn(accepted, a, b) < threshold
  }

  ghost predicate RateOk(c: Config, k: Core) {
    && UpTo(k.crashes, k.now) && UpTo(k.books.accepted, k.now)
    && Dominates(k.crashes, k.books.accepted)
    && Limited(k.books.accepted, c.restart.crashWindowMs, c.restart.crashThreshold)
  }

  lemma CountAppend(log: seq<int>, t: int, a: int, b: int)
    ensures CountIn(log + [t], a, b) == CountIn(log, a, b) + (if a < t <= b then 1 else 0)
  {
    assert (log + [t])[..|log|] == log;
  }

  /** Nothing happened after `now`, so counting stops there. */
  lemma {:induction false} CountStops(log: seq<int>, now: int, a: int, b: int)
    requires UpTo(log, now) && now <= b
    ensures CountIn(log, a, b) == CountIn(log, a, now)
  {
    if log != [] {
      CountStops(log[..|log| - 1], now, a, b);
    }
  }

  /** Recording a crash keeps the limit, and so does accepting it when the breaker has not tripped. */
  lemma RecordKeepsRate(crashes: seq<int>, accepted: seq<int>, now: int, windowMs: int, threshold: int)
    requires UpTo(crashes, now) && UpTo(accepted, now)
    requires Dominates(crashes, accepted) && Limited(accepted, windowMs, threshold)
    ensures Dominates(crashes + [now], accepted)
    ensures Dominates(crashes + [now], accepted + [now])
    ensures InWindow(crashes + [now], windowMs, now) < threshold ==>
              Limited(accepted + [now], windowMs, threshold)
  {
    forall a, b
      ensures CountIn(accepted, a, b) <= CountIn(crashes + [now], a, b)
      ensures CountIn(accepted + [now], a, b) <= CountIn(crashes + [now], a, b)
    {
      CountAppend(crashes, now, a, b);
      CountAppend(accepted, now, a, b);
    }
    if InWindow(crashes + [now], windowMs, now) < threshold {
      forall a, b | b - a <= windowMs
        ensures CountIn(accepted + [now], a, b) < threshold
      {
        CountAppend(accepted, now, a, b);
        if a < now <= b {
          CountStops(accepted + [now], now, a, b);
          CountMonotone(crashes + [now], a, now, now - windowMs, now);
        }
      }
    }
  }

  lemma CrashRate(c: Config, k: Core, w: int, bootFailed: bool, hasOnline: bool, forkOk: bool)
    requires RateOk(c, k)
    ensures RateOk(c, OnWorkerCrash(c, k, w, bootFailed, hasOnline, forkOk))
  {
    hide Dominates, Limited, Loop;
    RecordKeepsRate(k.crashes, k.books.accepted, k.now, c.restart.crashWindowMs, c.restart.crashThreshold);
    var q := AcceptCrash(RecordCrash(c, k, bootFailed, hasOnline), w);
    LoopRecordsNothing(c, q, forkOk);
  }

  /** Only crashes and resets touch the crash history. */
  ghost predicate SameHistory(k: Core, r: Core) {
    r.now == k.now && r.crashes == k.crashes && r.books.accepted == k.books.accepted
  }

  lemma LoopRecordsNothing(c: Config, k: Core, forkOk: bool)
    ensures SameHistory(k, Loop(c, k, forkOk))
  {
  }

  lemma RunnerRecordsNothing(c: Config, k: Core, forkOk: bool)
    ensures SameHistory(k, Wake(c, k, forkOk))
    ensures SameHistory(k, Resume(c, k, forkOk))
  {
    LoopRecordsNothing(c, k, forkOk);
  }

  lemma RefillRecordsNothing(c: Config, k: Core, forkOk: bool)
    ensures SameHistory(k, RequestRefill(c, k, forkOk))
  {
    var count := Max(0, c.workers.count - k.pool.active);
    EnqueueRefillsKeeps(k, count);
    LoopRecordsNothing(c, EnqueueRefills(k, count), forkOk);
  }

  lemma StepRate(c: Config, f: Fleet, e: Event)
    requires ValidConfig(c) && RateOk(c, f.core)
    ensures RateOk(c, Step(c, f, e).core)
  {
    hide Dominates, Limited, Wake, Resume, RequestRefill, OnWorkerCrash;
    match e
    case Exit(w, graceful, forkOk) =>
      if w in Live(f) && !f.core.shuttingDown && !graceful {
        var k := f.core.(pool := Cleanup(f.core.pool, w), engine := f.core.engine.(resetAt := None));
        CrashRate(c, k, w, w !in f.online, f.online - {w} != {}, forkOk);
      }
    case WakeRunner(forkOk) => RunnerRecordsNothing(c, f.core, forkOk);
    case ResumeRunner(forkOk) => RunnerRecordsNothing(c, f.core, forkOk);
    case ResetBreaker(forkOk) =>
      NothingRecorded(c);
      RefillRecordsNothing(c, ResetEngine(f.core), forkOk);
    case AdvanceRoll(forkOk) => RefillRecordsNothing(c, f.core, forkOk);
    case _ =>
  }

  lemma NothingRecorded(c: Config)
    requires c.restart.crashThreshold >= 1
    ensures Dominates([], []) && Limited([], c.restart.crashWindowMs, c.restart.crashThreshold)
  {
  }

  lemma {:induction false} RunRate(c: Config, now: int, events: seq<Event>)
    requires ValidConfig(c)
    ensures RateOk(c, Run(c, Started(c, now), events).core)
  {
    if events == [] {
      NothingRecorded(c);
    } else {
      RunRate(c, now, events[..|events| - 1]);
      StepRate(c, Run(c, Started(c, now), events[..|events| - 1]), events[|events| - 1]);
    }
  }

  /**
   * Crash-loop rate limit: since the last breaker reset, any half-open interval
   * of the window's length holds fewer accepted crashes than the threshold.
   */
  lemma CrashLoopRateLimit(c: Config, now: int, events: seq<Event>, from: int)
    requires ValidConfig(c)
    ensures var k := Run(c, Started(c, now), events).core;
            CountIn(k.books.accepted, from, from + c.restart.crashWindowMs) <= c.restart.crashThreshold - 1
  {
    RunRate(c, now, events);
  }

  // ---------------------------------------------------------------- backoff

  ghost function Pow(m: real, n: nat): real {
    if n == 0 then 1.0 else Pow(m, n - 1) * m
  }

  /** The backoff before the cap, grown one factor at a time. */
  ghost function Uncapped(c: Config, n: nat): real {
    if n == 0 then c.restart.backoffMs else Uncapped(c, n - 1) * c.restart.backoffMultiplier
  }

  /** The wait after `n` successful forks since the last effective reset. */
  ghost function BackoffAfter(c: Config, n: nat): real {
    RealMin(Uncapped(c, n), c.restart.maxBackoffMs)
  }

  lemma {:induction false} UncappedIsPower(c: Config, n: nat)
    ensures Uncapped(c, n) == c.restart.backoffMs * Pow(c.restart.backoffMultiplier, n)
  {
    if n > 0 {
      UncappedIsPower(c, n - 1);
      var b, p, m := c.restart.backoffMs, Pow(c.restart.backoffMultiplier, n - 1), c.restart.backoffMultiplier;
      assert (b * p) * m == b * (p * m);
    }
  }

  lemma MulAtLeast(x: real, m: real)
    requires m >= 1.0 && x >= 0.0
    ensures x * m >= x
  {
    assert x * (m - 1.0) >= 0.0;
  }

  lemma {:induction false} UncappedGrows(c: Config, n: nat)
    requires ValidConfig(c)
    ensures 0.0 <= c.restart.backoffMs <= Uncapped(c, n) <= Uncapped(c, n + 1)
  {
    if n > 0 {
      UncappedGrows(c, n - 1);
    }
    MulAtLeast(Uncapped(c, n), c.restart.backoffMultiplier);
  }

  /** The wait never shrinks from one successful restart to the next, nor exceeds the cap. */
  lemma BackoffGrows(c: Config, n: nat)
    requires ValidConfig(c)
    ensures 0.0 <= c.restart.backoffMs <= BackoffAfter(c, n) <= BackoffAfter(c, n + 1) <= c.restart.maxBackoffMs
  {
    hide Uncapped;
    UncappedGrows(c, n);
  }

  /** Capping before a step of growth as well changes nothing. */
  lemma CapOnceIsEnough(x: real, m: real, cap: real)
    requires x >= 0.0 && m >= 1.0 && cap > 0.0
    ensures RealMin(RealMin(x, cap) * m, cap) == RealMin(x * m, cap)
  {
    if x > cap {
      MulAtLeast(cap, m);
      MulAtLeast(x, m);
    }
  }

  /** One step of the code's recurrence is one step of the closed form. */
  lemma NextBackoffIsClosedForm(c: Config, n: nat)
    requires ValidConfig(c)
    ensures NextBackoff(c, BackoffAfter(c, n)) == BackoffAfter(c, n + 1)
  {
    var m, cap := c.restart.backoffMultiplier, c.restart.maxBackoffMs;
    UncappedGrows(c, n);
    var x := Uncapped(c, n);
    assert Uncapped(c, n + 1) == x * m;
    hide Uncapped, ValidWorkers, ValidShutdown, ValidHealth;
    CapOnceIsEnough(x, m, cap);
  }

  ghost predicate BackoffOk(c: Config, k: Core) {
    && k.engine.backoffMs >= 0.0
    && Wait(c, k.engine) == BackoffAfter(c, k.books.streak)
    && (k.engine.runner.Parked? ==>
          k.engine.runner.delayMs == BackoffAfter(c, k.books.parkedStreak) && k.engine.runner.delayMs > 0.0)
  }

  lemma AttemptBackoff(c: Config, k: Core, e: Entry, delayMs: real, streak: nat, forkOk: bool)
    requires ValidConfig(c) && k.engine.backoffMs >= 0.0 && Wait(c, k.engine) == BackoffAfter(c, k.books.streak)
    requires delayMs == BackoffAfter(c, streak)
    ensures BackoffOk(c, Attempt(c, k, e, delayMs, streak, forkOk))
  {
    hide BackoffAfter;
    NextBackoffIsClosedForm(c, streak);
    BackoffGrows(c, streak);
  }

  lemma LoopBackoff(c: Config, k: Core, forkOk: bool)
    requires ValidConfig(c) && BackoffOk(c, k)
    ensures BackoffOk(c, Loop(c, k, forkOk))
    ensures BackoffOk(c, Kick(c, k, forkOk))
  {
    hide Attempt, BackoffAfter;
    var queue := k.engine.queue;
    if queue != [] {
      var rest := k.(engine := k.engine.(queue := queue[1..]));
      AttemptBackoff(c, rest, queue[0], Wait(c, rest.engine), rest.books.streak, forkOk);
    }
  }

  lemma RunnerBackoff(c: Config, k: Core, forkOk: bool)
    requires ValidConfig(c) && BackoffOk(c, k)
    ensures BackoffOk(c, Wake(c, k, forkOk))
    ensures BackoffOk(c, Resume(c, k, forkOk))
  {
    hide Attempt, BackoffAfter, Loop;
    LoopBackoff(c, k, forkOk);
    if k.engine.runner.Parked? {
      AttemptBackoff(c, k, k.engine.runner.entry, k.engine.runner.delayMs, k.books.parkedStreak, forkOk);
    }
  }

  lemma RefillBackoff(c: Config, k: Core, forkOk: bool)
    requires ValidConfig(c) && BackoffOk(c, k)
    ensures BackoffOk(c, RequestRefill(c, k, forkOk))
  {
    hide BackoffAfter, Kick, EnqueueRefills;
    var count := Max(0, c.workers.count - k.pool.active);
    EnqueueRefillsKeeps(k, count);
    LoopBackoff(c, EnqueueRefills(k, count), forkOk);
  }

  lemma CrashBackoff(c: Config, k: Core, w: int, bootFailed: bool, hasOnline: bool, forkOk: bool)
    requires ValidConfig(c) && BackoffOk(c, k)
    ensures BackoffOk(c, OnWorkerCrash(c, k, w, bootFailed, hasOnline, forkOk))
  {
    hide BackoffAfter, Kick;
    var q := AcceptCrash(RecordCrash(c, k, bootFailed, hasOnline), w);
    LoopBackoff(c, q, forkOk);
  }

  /** A backoff of zero means: wait `backoffMs` next. */
  lemma FreshBackoff(c: Config)
    requires ValidConfig(c)
    ensures BackoffAfter(c, 0) == c.restart.backoffMs
  {
  }

  lemma StepBackoff(c: Config, f: Fleet, e: Event)
    requires ValidConfig(c) && BackoffOk(c, f.core)
    ensures BackoffOk(c, Step(c, f, e).core)
  {
    hide BackoffAfter, Wake, Resume, RequestRefill, OnWorkerCrash;
    FreshBackoff(c);
    match e
    case Exit(w, graceful, forkOk) =>
      var k := f.core.(pool := Cleanup(f.core.pool, w), engine := f.core.engine.(resetAt := None));
      CrashBackoff(c, k, w, w !in f.online, f.online - {w} != {}, forkOk);
    case WakeRunner(forkOk) => RunnerBackoff(c, f.core, forkOk);
    case ResumeRunner(forkOk) => RunnerBackoff(c, f.core, forkOk);
    case ResetBreaker(forkOk) => RefillBackoff(c, ResetEngine(f.core), forkOk);
    case AdvanceRoll(forkOk) => RefillBackoff(c, f.core, forkOk);
    case _ =>
  }

  lemma {:induction false} RunBackoff(c: Config, now: int, events: seq<Event>)
    requires ValidConfig(c)
    ensures BackoffOk(c, Run(c, Started(c, now), events).core)
  {
    if events == [] {
      FreshBackoff(c);
    } else {
      RunBackoff(c, now, events[..|events| - 1]);
      StepBackoff(c, Run(c, Started(c, now), events[..|events| - 1]), events[|events| - 1]);
    }
  }

  /**
   * On every run the wait of a parked restart is the closed form for the
   * successful forks since the last reset that took effect before it parked.
   */
  lemma BackoffClosedForm(c: Config, now: int, events: seq<Event>)
    requires ValidConfig(c)
    ensures var k := Run(c, Started(c, now), events).core;
            && (k.engine.runner.Parked? ==>
                  k.engine.runner.delayMs == BackoffAfter(c, k.books.parkedStreak) && k.engine.runner.delayMs > 0.0)
            && Wait(c, k.engine) == BackoffAfter(c, k.books.streak)
            && c.restart.backoffMs <= Wait(c, k.engine) <= c.restart.maxBackoffMs
  {
    hide Run, Started, BackoffAfter;
    RunBackoff(c, now, events);
    BackoffGrows(c, Run(c, Started(c, now), events).core.books.streak);
  }

  lemma BackoffAfterIsCappedPower(c: Config, n: nat)
    ensures BackoffAfter(c, n) ==
            RealMin(c.restart.backoffMs * Pow(c.restart.backoffMultiplier, n), c.restart.maxBackoffMs)
  {
    UncappedIsPower(c, n);
  }

  /**
   * A backoff reset while a restart waits stands exactly if that restart does
   * not fork; if it does, the backoff goes on from the captured wait as if
   * there had been no reset.
   */
  lemma ResetDuringWaitStandsIff(c: Config, k: Core, forkOk: bool)
    requires ValidConfig(c) && k.engine.runner.Parked? && k.engine.runner.delayMs > 0.0
    ensures var r := Wake(c, ResetBackoff(k), forkOk).engine;
            && (r.backoffMs == 0.0 <==> k.shuttingDown || Tripped(c, k) || !forkOk)
            && (r.backoffMs != 0.0 ==> r.backoffMs == Wake(c, k, forkOk).engine.backoffMs)
  {
    hide Settle;
    MulAtLeast(k.engine.runner.delayMs, c.restart.backoffMultiplier);
  }

  // ------------------------------------------------------------ termination

  /** Fork attempts the pending restarts can still cost. */
  function Potential(pending: int, failures: nat): int {
    if pending <= 0 then 0
    else MAX_CONSECUTIVE_FORK_FAILURES * (pending - 1) + Max(1, MAX_CONSECUTIVE_FORK_FAILURES - failures)
  }

  function Spent(k: Core): int {
    k.books.attempts + Potential(|Pending(k.engine)|, k.engine.forkFailures)
  }

  /** What was or may still be attempted beyond three forks for each restart requested. */
  function Overspent(k: Core): int {
    Spent(k) - MAX_CONSECUTIVE_FORK_FAILURES * k.books.issued
  }

  lemma AttemptSpends(c: Config, k: Core, e: Entry, delayMs: real, streak: nat, forkOk: bool)
    ensures Spent(Attempt(c, k, e, delayMs, streak, forkOk))
            <= k.books.attempts + Potential(1 + |k.engine.queue|, k.engine.forkFailures)
    ensures Attempt(c, k, e, delayMs, streak, forkOk).books.issued == k.books.issued
  {
  }

  lemma LoopSpends(c: Config, k: Core, forkOk: bool)
    requires !k.engine.runner.Parked?
    ensures var r := Loop(c, k, forkOk); Spent(r) <= Spent(k) && r.books.issued == k.books.issued
  {
    hide Attempt;
    var queue := k.engine.queue;
    if queue != [] {
      var rest := k.(engine := k.engine.(queue := queue[1..]));
      AttemptSpends(c, rest, queue[0], Wait(c, rest.engine), rest.books.streak, forkOk);
    }
  }

  lemma RunnerSpends(c: Config, k: Core, forkOk: bool)
    ensures var r := Wake(c, k, forkOk); Spent(r) <= Spent(k) && r.books.issued == k.books.issued
    ensures var r := Resume(c, k, forkOk); Spent(r) <= Spent(k) && r.books.issued == k.books.issued
    ensures Overspent(Wake(c, k, forkOk)) <= Overspent(k) && Overspent(Resume(c, k, forkOk)) <= Overspent(k)
  {
    hide Attempt, Loop;
    if k.engine.runner.Parked? {
      var r := k.engine.runner;
      AttemptSpends(c, k, r.entry, r.delayMs, k.books.parkedStreak, forkOk);
    }
    if k.engine.runner.Looping? {
      LoopSpends(c, k, forkOk);
    }
  }

  lemma KickSpends(c: Config, k: Core, forkOk: bool)
    ensures var r := Kick(c, k, forkOk); Spent(r) <= Spent(k) && r.books.issued == k.books.issued
    ensures !k.engine.runner.Idle? ==> Kick(c, k, forkOk) == k
  {
    hide Loop;
    if k.engine.runner.Idle? {
      LoopSpends(c, k, forkOk);
    }
  }

  /** Refills cost at most three attempts each, exactly that when restarts were pending already. */
  lemma RefillSpends(c: Config, k: Core, forkOk: bool)
    ensures var r := RequestRefill(c, k, forkOk);
            && Overspent(r) <= Overspent(k)
            && (!k.engine.runner.Idle? && Pending(k.engine) != [] ==> Overspent(r) == Overspent(k))
  {
    hide Kick, EnqueueRefills;
    var count := Max(0, c.workers.count - k.pool.active);
    EnqueueRefillsKeeps(k, count);
    KickSpends(c, EnqueueRefills(k, count), forkOk);
  }

  lemma AcceptSpends(k: Core, w: int)
    ensures Overspent(AcceptCrash(k, w)) <= Overspent(k)
  {
  }

  lemma CrashSpends(c: Config, k: Core, w: int, bootFailed: bool, hasOnline: bool, forkOk: bool)
    ensures var r := OnWorkerCrash(c, k, w, bootFailed, hasOnline, forkOk);
            Overspent(r) <= Overspent(k) && r.books.issued == k.books.issued + 1
  {
    hide Kick, Tripped, Potential;
    var q := AcceptCrash(RecordCrash(c, k, bootFailed, hasOnline), w);
    AcceptSpends(RecordCrash(c, k, bootFailed, hasOnline), w);
    KickSpends(c, q, forkOk);
  }

  /**
   * The step forgets fork failures of the restart loop while it still has
   * restarts pending: a breaker reset, or a roll turn whose own fork succeeds.
   */
  ghost predicate Refreshes(f: Fleet, e: Event) {
    && f.core.engine.forkFailures > 0 && Pending(f.core.engine) != []
    && (e.ResetBreaker? || (e.AdvanceRoll? && e.forkOk && TurnForks(f)))
  }

  /** The next turn of the roll has a live worker to fork for. */
  ghost predicate TurnForks(f: Fleet) {
    && f.roll.Rolling? && f.roll.phase.AtTop? && |f.roll.turns| < |f.roll.targets| && !f.core.shuttingDown
    && f.roll.targets[|f.roll.turns|] in Live(f)
  }

  lemma ExitSpends(c: Config, f: Fleet, w: int, graceful: bool, forkOk: bool)
    ensures var r := OnExit(c, f, w, graceful, forkOk).core;
            && Overspent(r) <= Overspent(f.core)
            && (w in Live(f) && !f.core.shuttingDown && !graceful ==> r.books.issued == f.core.books.issued + 1)
            && (w !in Live(f) || f.core.shuttingDown || graceful ==>
                  r.books == f.core.books && LoopRank(r) == LoopRank(f.core))
  {
    hide OnWorkerCrash, Potential;
    var k := f.core.(pool := Cleanup(f.core.pool, w), engine := f.core.engine.(resetAt := None));
    CrashSpends(c, k, w, w !in f.online, f.online - {w} != {}, forkOk);
  }

  lemma ResetSpends(c: Config, f: Fleet, forkOk: bool)
    ensures var r := OnResetBreaker(c, f, forkOk).core;
            && Overspent(r) <= Overspent(f.core) + (if Refreshes(f, ResetBreaker(forkOk)) then 2 else 0)
            && (Safe(c, f) && Refreshes(f, ResetBreaker(forkOk)) ==> Overspent(r) > Overspent(f.core))
  {
    hide RequestRefill;
    RefillSpends(c, ResetEngine(f.core), forkOk);
  }

  lemma RollSpends(c: Config, f: Fleet, forkOk: bool)
    ensures var r := RollStep(c, f, forkOk).core;
            && Overspent(r) <= Overspent(f.core) + (if Refreshes(f, AdvanceRoll(forkOk)) then 2 else 0)
            && (Refreshes(f, AdvanceRoll(forkOk)) ==> Overspent(r) > Overspent(f.core))
  {
    hide RequestRefill;
    RefillSpends(c, f.core, forkOk);
  }

  lemma StepSpends(c: Config, f: Fleet, e: Event)
    ensures Overspent(Step(c, f, e).core) <= Overspent(f.core) + (if Refreshes(f, e) then 2 else 0)
    ensures Safe(c, f) && Refreshes(f, e) ==> Overspent(Step(c, f, e).core) > Overspent(f.core)
  {
    hide Wake, Resume, OnExit, OnResetBreaker, RollStep, Overspent;
    match e
    case Exit(w, graceful, forkOk) => ExitSpends(c, f, w, graceful, forkOk);
    case WakeRunner(forkOk) => RunnerSpends(c, f.core, forkOk);
    case ResumeRunner(forkOk) => RunnerSpends(c, f.core, forkOk);
    case ResetBreaker(forkOk) => ResetSpends(c, f, forkOk);
    case AdvanceRoll(forkOk) => RollSpends(c, f, forkOk);
    case _ => SameSpent(f.core, Step(c, f, e).core);
  }

  lemma SameSpent(k: Core, r: Core)
    requires r.engine.queue == k.engine.queue && r.engine.runner == k.engine.runner
    requires r.engine.forkFailures == k.engine.forkFailures
    requires r.books.attempts == k.books.attempts && r.books.issued == k.books.issued
    ensures Overspent(r) == Overspent(k)
  {
  }

  /** Three attempts for each requested restart are exceeded by exactly the steps that refresh the failure count. */
  lemma OverspendsIffRefreshes(c: Config, f: Fleet, e: Event)
    requires Safe(c, f)
    ensures Overspent(Step(c, f, e).core) > Overspent(f.core) <==> Refreshes(f, e)
  {
    hide Step, Refreshes, Overspent;
    StepSpends(c, f, e);
  }

  ghost function Refreshments(c: Config, f: Fleet, events: seq<Event>): nat {
    if events == [] then 0
    else
      var n := |events| - 1;
      Refreshments(c, f, events[..n]) + if Refreshes(Run(c, f, events[..n]), events[n]) then 1 else 0
  }

  /**
   * From any state and in every run the restart loop attempts at most three
   * forks for each restart pending or requested, although a failed one goes
   * back into the queue, and two more whenever its failures are forgotten.
   */
  lemma {:induction false} AttemptsAreBounded(c: Config, f: Fleet, events: seq<Event>)
    ensures var r := Run(c, f, events);
            && Overspent(r.core) <= Overspent(f.core) + 2 * Refreshments(c, f, events)
            && r.core.books.attempts - f.core.books.attempts
               <= 3 * |Pending(f.core.engine)| + 3 * (r.core.books.issued - f.core.books.issued)
                  + 2 * Refreshments(c, f, events)
  {
    hide Step, Refreshes;
    if events != [] {
      AttemptsAreBounded(c, f, events[..|events| - 1]);
      StepSpends(c, Run(c, f, events[..|events| - 1]), events[|events| - 1]);
    }
  }

  /** On every run of a started fleet, with what pending restarts may still cost. */
  lemma {:induction false} AttemptsPerRequest(c: Config, now: int, events: seq<Event>)
    ensures var f := Started(c, now);
            var k := Run(c, f, events).core;
            Spent(k) <= 3 * k.books.issued + 2 * Refreshments(c, f, events)
  {
    hide Run;
    AttemptsAreBounded(c, Started(c, now), events);
  }

  /** While nothing is queued and no failure forgotten, it is three attempts for each pending restart. */
  lemma {:induction false} CalmTotalIsThreePerPending(c: Config, f: Fleet, events: seq<Event>)
    requires Run(c, f, events).core.books.issued == f.core.books.issued && Refreshments(c, f, events) == 0
    ensures Run(c, f, events).core.books.attempts - f.core.books.attempts <= 3 * |Pending(f.core.engine)|
  {
    hide Run;
    AttemptsAreBounded(c, f, events);
  }

  /** The loop's distance from rest. */
  function LoopRank(k: Core): int {
    3 * Potential(|Pending(k.engine)|, k.engine.forkFailures)
    + match k.engine.runner
      case Looping => 2
      case Parked(_, _) => 1
      case Idle => 0
  }

  lemma AttemptLowersRank(c: Config, k: Core, e: Entry, delayMs: real, streak: nat, forkOk: bool)
    ensures LoopRank(Attempt(c, k, e, delayMs, streak, forkOk))
            < 3 * Potential(1 + |k.engine.queue|, k.engine.forkFailures)
  {
  }

  /** Each continuation of the suspended loop brings it closer to rest, whatever the forks do. */
  lemma RunnerLowersRank(c: Config, k: Core, forkOk: bool)
    ensures k.engine.runner.Parked? ==> LoopRank(Wake(c, k, forkOk)) < LoopRank(k)
    ensures k.engine.runner.Looping? ==> LoopRank(Resume(c, k, forkOk)) < LoopRank(k)
  {
    hide Attempt;
    var queue := k.engine.queue;
    if k.engine.runner.Parked? {
      var r := k.engine.runner;
      AttemptLowersRank(c, k, r.entry, r.delayMs, k.books.parkedStreak, forkOk);
    } else if k.engine.runner.Looping? && queue != [] {
      var rest := k.(engine := k.engine.(queue := queue[1..]));
      AttemptLowersRank(c, rest, queue[0], Wait(c, rest.engine), rest.books.streak, forkOk);
    }
  }

  /** The event continues the suspended restart loop. */
  predicate Continues(f: Fleet, e: Event) {
    (e.WakeRunner? && f.core.engine.runner.Parked?) || (e.ResumeRunner? && f.core.engine.runner.Looping?)
  }

  ghost function Continuations(c: Config, f: Fleet, events: seq<Event>): nat {
    if events == [] then 0
    else
      var n := |events| - 1;
      Continuations(c, f, events[..n]) + if Continues(Run(c, f, events[..n]), events[n]) then 1 else 0
  }

  /** The event queues no restart and forgets no failure. */
  ghost predicate Calm(c: Config, f: Fleet, e: Event) {
    Step(c, f, e).core.books.issued == f.core.books.issued && !Refreshes(f, e)
  }

  lemma WakeOnlyIf(c: Config, k: Core, forkOk: bool)
    ensures !k.engine.runner.Parked? ==> Wake(c, k, forkOk) == k
    ensures !k.engine.runner.Looping? ==> Resume(c, k, forkOk) == k
  {
  }

  /** A refill of nothing leaves the loop where it was. */
  lemma EmptyRefill(c: Config, k: Core, forkOk: bool)
    requires k.engine.runner.Idle? ==> k.engine.queue == []
    requires RequestRefill(c, k, forkOk).books.issued == k.books.issued
    ensures RequestRefill(c, k, forkOk) == k
  {
    hide Tripped;
    var count := Max(0, c.workers.count - k.pool.active);
    EnqueueRefillsKeeps(k, count);
    KickSpends(c, EnqueueRefills(k, count), forkOk);
  }

  /** A calm event costs rank when it continues the loop, and otherwise never gives any. */
  lemma CalmStepRank(c: Config, f: Fleet, e: Event)
    requires Safe(c, f) && Calm(c, f, e)
    ensures LoopRank(Step(c, f, e).core) <= LoopRank(f.core) - (if Continues(f, e) then 1 else 0)
  {
    hide Wake, Resume, OnExit, RequestRefill, Potential, OnResetBreaker, RollStep;
    match e
    case Exit(w, graceful, forkOk) => ExitSpends(c, f, w, graceful, forkOk);
    case WakeRunner(forkOk) =>
      WakeOnlyIf(c, f.core, forkOk);
      RunnerLowersRank(c, f.core, forkOk);
    case ResumeRunner(forkOk) =>
      WakeOnlyIf(c, f.core, forkOk);
      RunnerLowersRank(c, f.core, forkOk);
    case ResetBreaker(forkOk) => CalmResetRank(c, f, forkOk);
    case AdvanceRoll(forkOk) => CalmRollRank(c, f, forkOk);
    case _ =>
  }

  lemma CalmResetRank(c: Config, f: Fleet, forkOk: bool)
    requires Safe(c, f) && Calm(c, f, ResetBreaker(forkOk))
    ensures LoopRank(OnResetBreaker(c, f, forkOk).core) <= LoopRank(f.core)
  {
    hide RequestRefill;
    if !f.core.shuttingDown { EmptyRefill(c, ResetEngine(f.core), forkOk); }
  }

  lemma CalmRollRank(c: Config, f: Fleet, forkOk: bool)
    requires Safe(c, f) && Calm(c, f, AdvanceRoll(forkOk))
    ensures LoopRank(RollStep(c, f, forkOk).core) <= LoopRank(f.core)
  {
    hide RequestRefill;
    if f.roll.Rolling? && f.roll.phase.AtTop? && |f.roll.turns| >= |f.roll.targets| {
      EmptyRefill(c, f.core, forkOk);
    }
  }

  ghost predicate CalmRun(c: Config, f: Fleet, events: seq<Event>) {
    forall i | 0 <= i < |events| :: Calm(c, Run(c, f, events[..i]), events[i])
  }

  lemma RankMeans(k: Core)
    ensures 0 <= LoopRank(k) && (LoopRank(k) == 0 ==> k.engine.runner.Idle? && Pending(k.engine) == [])
  {
  }

  /**
   * The queue terminates whatever the forks do: in a calm run every continuation
   * of the loop uses up rank, and at rank zero the loop is idle with nothing
   * pending.
   */
  lemma {:induction false} LoopComesToRest(c: Config, f: Fleet, events: seq<Event>)
    requires Safe(c, f) && CalmRun(c, f, events)
    ensures var r := Run(c, f, events);
            && Safe(c, r)
            && Continuations(c, f, events) + LoopRank(r.core) <= LoopRank(f.core)
            && 0 <= LoopRank(r.core)
            && (LoopRank(r.core) == 0 ==> r.core.engine.runner.Idle? && Pending(r.core.engine) == [])
  {
    hide Step, Calm, Safe, LoopRank, Continues;
    RankMeans(Run(c, f, events).core);
    if events != [] {
      var n := |events| - 1;
      assert forall i | 0 <= i < n :: events[..n][..i] == events[..i];
      LoopComesToRest(c, f, events[..n]);
      assert Calm(c, Run(c, f, events[..n]), events[n]);
      CalmStepRank(c, Run(c, f, events[..n]), events[n]);
      StepSafe(c, Run(c, f, events[..n]), events[n]);
    }
  }
}
