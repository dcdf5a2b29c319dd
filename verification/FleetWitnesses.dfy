/**
 * Runs of a started fleet that show where the natural claims fail. Each could
 * be a run of the program: time passes over every wait, and whatever continues
 * in the same turn of the event loop comes without an event between.
 */
module FleetWitnesses {
  import opened Wrappers
  import opened Config
  import opened CrashTracking
  import Drain
  import opened FleetModel
  import opened FleetSafety
  import opened FleetCapacity
  import opened FleetPacing

  /** The workers are those with the ids from 1 to `count`, all forked at `now`. */
  ghost predicate FirstIds(p: Pool, now: int, count: int) {
    (forall w :: w in p.started <==> 1 <= w <= count) && forall w | w in p.started :: p.started[w] == now
  }

  lemma NextId(p: Pool, now: int)
    requires FirstIds(p, now, p.nextId - 1) && p.nextId >= 1
    ensures FirstIds(Fork(p, now), now, p.nextId)
  {
  }

  /** The first forks take the ids from 1 on. */
  lemma {:induction false} ForkManyIds(now: int, count: nat)
    ensures var p := ForkMany(Pool(map[], 1, {}, {}, 0), now, count);
            && p.nextId == count + 1 && p.active == count && p.marks == {} && p.staged == {} && PoolOk(p)
            && FirstIds(p, now, count)
  {
    hide Serving, FirstIds;
    if count == 0 {
      NoIds(now);
    } else {
      ForkManyIds(now, count - 1);
      var p := ForkMany(Pool(map[], 1, {}, {}, 0), now, count - 1);
      NextId(p, now);
      ForkServes(p, now);
    }
  }

  lemma NoIds(now: int)
    ensures FirstIds(Pool(map[], 1, {}, {}, 0), now, 0)
  {
  }

  /** All crashes so far were at this very instant. */
  lemma {:induction false} TrippedNow(c: Config, k: Core)
    requires ValidConfig(c) && forall i | 0 <= i < |k.crashes| :: k.crashes[i] == k.now
    ensures Tripped(c, k) <==> |k.crashes| >= c.restart.crashThreshold
  {
    AllNow(k.crashes, k.now - c.restart.crashWindowMs, k.now);
  }

  lemma {:induction false} AllNow(log: seq<int>, from: int, now: int)
    requires from < now && forall i | 0 <= i < |log| :: log[i] == now
    ensures CountIn(log, from, now) == |log|
  {
    if log != [] {
      AllNow(log[..|log| - 1], from, now);
    }
  }

  /** A breaker with fewer crashes than its threshold on record is closed, whatever the time. */
  lemma {:induction false} FewCrashes(c: Config, k: Core)
    requires |k.crashes| < c.restart.crashThreshold
    ensures !Tripped(c, k)
  {
    CountAtMost(k.crashes, k.now - c.restart.crashWindowMs, k.now);
  }

  lemma {:induction false} CountAtMost(log: seq<int>, from: int, to: int)
    ensures CountIn(log, from, to) <= |log|
  {
    if log != [] {
      CountAtMost(log[..|log| - 1], from, to);
    }
  }

  lemma TrippedSame(c: Config, k: Core, r: Core)
    requires k.now == r.now && k.crashes == r.crashes
    ensures Tripped(c, k) == Tripped(c, r)
  {
  }

  /** Whole milliseconds that cover a wait. */
  function WholeMs(delayMs: real): int {
    if delayMs == delayMs.Floor as real then delayMs.Floor else delayMs.Floor + 1
  }

  ghost predicate AtRest(k: Core) {
    k.engine.queue == [] && k.engine.runner.Idle?
  }

  ghost predicate ParkedAlone(k: Core, e: Entry) {
    k.engine.queue == [] && k.engine.runner.Parked? && k.engine.runner.entry == e && k.engine.runner.delayMs > 0.0
  }

  /** The exit of this worker as a crash counts for no quarantine. */
  predicate NoBootFailure(f: Fleet, w: int) {
    w in f.online || f.online == {}
  }

  /** The clock may reach `to` before a running roll has to move. */
  predicate MayReach(f: Fleet, to: int) {
    && f.core.now <= to && f.core.engine.resetAt.None?
    && (f.roll.Rolling? ==>
          Waiting(f) && f.roll.phase.AwaitingExit? && Rolled(f) in Live(f) && to <= f.roll.phase.killAt)
  }

  lemma TimePasses(c: Config, f: Fleet, to: int)
    requires MayReach(f, to)
    ensures Step(c, f, Tick(to)) == f.(core := f.core.(now := to))
  {
  }

  /** A crash that the breaker lets pass parks its restart when the engine was at rest. */
  lemma CrashParks(c: Config, f: Fleet, w: int)
    requires ValidConfig(c) && c.restart.backoffMs > 0.0 && !f.core.shuttingDown && PoolOk(f.core.pool)
    requires |f.core.crashes| + 1 < c.restart.crashThreshold
    requires AtRest(f.core) && NoBootFailure(f, w) && w in Live(f)
    requires Serving(f.core.pool) - (if w in f.core.pool.marks then 0 else 1) < c.workers.count
    ensures var r := Step(c, f, Exit(w, false, true)); var k := f.core;
            && r.core.pool == Cleanup(k.pool, w) && r.core.now == k.now && !r.core.shuttingDown
            && r.online == f.online - {w} && r.core.crashes == k.crashes + [k.now] && r.roll == f.roll
            && r.core.engine
               == k.engine.(runner := Parked(Crash(k.books.issued, w), Wait(c, k.engine)), resetAt := None)
            && r.core.books.issued == k.books.issued + 1 && r.core.books.attempts == k.books.attempts
            && r.core.books.failed == k.books.failed && Wait(c, k.engine) > 0.0
  {
    hide Tripped, Cleanup, PoolOk, Fork, Attempt;
    CleanupServes(f.core.pool, w);
    var k := f.core.(pool := Cleanup(f.core.pool, w), engine := f.core.engine.(resetAt := None));
    var q := AcceptCrash(k.(crashes := k.crashes + [k.now]), w);
    assert q.engine.queue == [Crash(k.books.issued, w)];
    FewCrashes(c, k.(crashes := k.crashes + [k.now]));
    FewCrashes(c, q);
    assert Kick(c, q, true) == Loop(c, q, true);
  }

  /** A second crash meanwhile is queued behind the parked restart. */
  lemma CrashQueues(c: Config, f: Fleet, w: int)
    requires ValidConfig(c) && !f.core.shuttingDown && |f.core.crashes| + 1 < c.restart.crashThreshold
    requires f.core.engine.runner.Parked? && NoBootFailure(f, w) && w in Live(f)
    ensures var r := Step(c, f, Exit(w, false, true)); var k := f.core;
            && r.core.pool == Cleanup(k.pool, w) && r.core.now == k.now && !r.core.shuttingDown && r.roll == f.roll
            && r.core.crashes == k.crashes + [k.now]
            && r.core.engine == k.engine.(queue := k.engine.queue + [Crash(k.books.issued, w)], resetAt := None)
            && r.core.books.issued == k.books.issued + 1 && r.core.books.attempts == k.books.attempts
            && r.core.books.failed == k.books.failed
  {
    hide Tripped, Cleanup, Loop;
    var k := f.core.(pool := Cleanup(f.core.pool, w), engine := f.core.engine.(resetAt := None));
    FewCrashes(c, k.(crashes := k.crashes + [k.now]));
  }

  /** A crash into a breaker that it trips is not restarted. */
  lemma CrashTrips(c: Config, f: Fleet, w: int)
    requires NoBootFailure(f, w) && !f.core.shuttingDown && w in Live(f)
    requires Tripped(c, f.core.(crashes := f.core.crashes + [f.core.now]))
    ensures var r := Step(c, f, Exit(w, false, true));
            && r.core.pool == Cleanup(f.core.pool, w) && !r.core.shuttingDown && r.roll == f.roll
            && r.core.engine == f.core.engine.(resetAt := None)
  {
    hide Tripped, Kick, AcceptCrash;
    var k := f.core.(pool := Cleanup(f.core.pool, w), engine := f.core.engine.(resetAt := None));
    TrippedSame(c, f.core.(crashes := f.core.crashes + [f.core.now]), k.(crashes := k.crashes + [k.now]));
  }

  /** After its wait, a restart whose fork succeeds; with nothing queued the loop then comes to rest. */
  lemma RestartForks(c: Config, f: Fleet)
    requires !f.core.shuttingDown && f.core.engine.runner.Parked? && f.core.engine.runner.delayMs > 0.0
    requires |f.core.crashes| < c.restart.crashThreshold
    ensures var s := Step(c, f, WakeRunner(true)); var k, g := f.core, f.core.engine;
            && s == f.(core := s.core)
            && s.core == k.(pool := Fork(k.pool, k.now), engine := s.core.engine, books := s.core.books)
            && s.core.engine == g.(runner := Looping, forkFailures := 0, backoffMs := NextBackoff(c, g.runner.delayMs))
            && s.core.books.attempts == k.books.attempts + 1 && s.core.books.issued == k.books.issued
            && s.core.books.failed == k.books.failed
  {
    hide Settle, NextBackoff, Fork, Tripped;
    FewCrashes(c, f.core);
  }

  lemma LoopRests(c: Config, f: Fleet)
    requires f.core.engine.runner.Looping? && f.core.engine.queue == []
    ensures Step(c, f, ResumeRunner(true)) == f.(core := f.core.(engine := f.core.engine.(runner := Idle)))
  {
  }

  // -------------------------------------------------- retries of one restart

  /** The restart `e` waits, alone, after so many failures in a row, failed forks of its own, and attempts of all. */
  ghost predicate Retrying(c: Config, f: Fleet, e: Entry, failures: nat, own: nat, attempts: nat) {
    var k := f.core;
    && !k.shuttingDown && |k.crashes| < c.restart.crashThreshold && Settled(k.pool) < c.workers.count
    && ParkedAlone(k, e) && k.engine.forkFailures == failures && k.engine.resetAt.None?
    && k.books.failed[e.ticket] == own && k.books.attempts == attempts
  }

  /** The wait passes and the fork fails; before the third failure in a row the restart waits again. */
  lemma RoundFails(c: Config, f: Fleet, to: int, e: Entry, failures: nat, own: nat, attempts: nat)
    requires ValidConfig(c) && c.restart.backoffMs > 0.0 && MayReach(f, to)
    requires Retrying(c, f, e, failures, own, attempts) && failures < 2
    ensures var r := Step(c, Step(c, Step(c, f, Tick(to)), WakeRunner(false)), ResumeRunner(true));
            && Retrying(c, r, e, failures + 1, own + 1, attempts + 1)
            && r == f.(core := r.core) && r.core.now == to && r.core.pool == f.core.pool && r.core.engine.resetAt.None?
            && r.core.engine.runner.delayMs == Wait(c, f.core.engine)
            && r.core.engine.backoffMs == f.core.engine.backoffMs && r.core.books.issued == f.core.books.issued
  {
    hide Settle, Tripped;
    var s := f.(core := f.core.(now := to));
    TimePasses(c, f, to);
    FewCrashes(c, s.core);
    var t := Step(c, s, WakeRunner(false));
    assert t.core.engine.queue == [e];
    FewCrashes(c, t.core);
  }

  lemma LastRoundFails(c: Config, f: Fleet, to: int, e: Entry, own: nat, attempts: nat)
    requires MayReach(f, to) && Retrying(c, f, e, 2, own, attempts)
    ensures var r := Step(c, Step(c, f, Tick(to)), WakeRunner(false)).core.books;
            && r.failed[e.ticket] == own + 1 && r.attempts == attempts + 1 && r.issued == f.core.books.issued
            && e.ticket in r.ledger && r.ledger[e.ticket] == ByGiveUp
  {
    hide Tripped;
    var s := f.(core := f.core.(now := to));
    TimePasses(c, f, to);
    FewCrashes(c, s.core);
    OneTicket(e);
    assert [e] + s.core.engine.queue == [e];
  }

  /** Three failed rounds from event `at` on. */
  lemma ThreeRoundsFail(
    c: Config, f: Fleet, events: seq<Event>, at: nat, t1: int, t2: int, t3: int, e: Entry, own: nat, attempts: nat)
    requires ValidConfig(c) && c.restart.backoffMs > 0.0 && at + 8 == |events|
    requires events[at..] == [Tick(t1), WakeRunner(false), ResumeRunner(true), Tick(t2), WakeRunner(false),
                              ResumeRunner(true), Tick(t3), WakeRunner(false)]
    requires var s := Run(c, f, events[..at]);
             Retrying(c, s, e, 0, own, attempts) && MayReach(s, t1) && MayReach(s, t3) && t1 <= t2 <= t3
    ensures var r := Run(c, f, events).core.books;
            && r.failed[e.ticket] == own + 3 && r.attempts == attempts + 3
            && r.issued == Run(c, f, events[..at]).core.books.issued
            && e.ticket in r.ledger && r.ledger[e.ticket] == ByGiveUp
  {
    hide Run, Step, Retrying;
    assert forall i | 0 <= i < 8 :: events[at + i] == events[at..][i];
    OneRoundFails(c, f, events, at, t1, e, 0, own, attempts);
    OneRoundFails(c, f, events, at + 3, t2, e, 1, own + 1, attempts + 1);
    RunPrefix(c, f, events, at + 6);
    RunPrefix(c, f, events, at + 7);
    LastRoundFails(c, Run(c, f, events[..at + 6]), t3, e, own + 2, attempts + 2);
    assert events[..at + 8] == events;
  }

  lemma OneRoundFails(
    c: Config, f: Fleet, events: seq<Event>, at: nat, to: int, e: Entry, failures: nat, own: nat, attempts: nat)
    requires ValidConfig(c) && c.restart.backoffMs > 0.0 && at + 3 <= |events|
    requires events[at] == Tick(to) && events[at + 1] == WakeRunner(false) && events[at + 2] == ResumeRunner(true)
    requires var s := Run(c, f, events[..at]);
             MayReach(s, to) && Retrying(c, s, e, failures, own, attempts) && failures < 2
    ensures var s, r := Run(c, f, events[..at]), Run(c, f, events[..at + 3]);
            && Retrying(c, r, e, failures + 1, own + 1, attempts + 1)
            && r == s.(core := r.core) && r.core.now == to && r.core.pool == s.core.pool && r.core.engine.resetAt.None?
            && r.core.books.issued == s.core.books.issued
  {
    hide Run, Step, Retrying;
    RunPrefix(c, f, events, at);
    RunPrefix(c, f, events, at + 1);
    RunPrefix(c, f, events, at + 2);
    RoundFails(c, Run(c, f, events[..at]), to, e, failures, own, attempts);
  }

  /** A restart whose failures a hot restart of another worker forgets, after the second. */
  function Retries(c: Config, now: int): seq<Event> {
    var w := WholeMs(c.restart.backoffMs);
    [Exit(1, false, true),
     Tick(now + w), WakeRunner(false), ResumeRunner(true),
     Tick(now + 2 * w), WakeRunner(false), ResumeRunner(true),
     RestartWorkers([2], 0), AdvanceRoll(true),
     Tick(now + 3 * w), WakeRunner(false), ResumeRunner(true),
     Tick(now + 4 * w), WakeRunner(false), ResumeRunner(true),
     Tick(now + 5 * w), WakeRunner(false)]
  }

  /** Two attempts more than three for a single restart: the bound on attempts is exact, and needs its second term. */
  lemma RollBuysTwoMoreAttempts(c: Config, now: int)
    requires ValidConfig(c) && c.workers.count >= 2 && c.restart.crashThreshold >= 2
    requires 0.0 < c.restart.backoffMs && 3 * WholeMs(c.restart.backoffMs) <= Drain.DrainBudget(c)
    ensures var b := Run(c, Started(c, now), Retries(c, now)).core.books;
            b.attempts == 5 && b.issued == 1 && b.failed[0] == 5
  {
    hide Run, Step, Started, Retrying, MayReach, WholeMs;
    var f, events, w := Started(c, now), Retries(c, now), WholeMs(c.restart.backoffMs);
    WaitCovered(c.restart.backoffMs);
    TwoRounds(c, now, events);
    RunPrefix(c, f, events, 7);
    RunPrefix(c, f, events, 8);
    hide PoolOk;
    RollForgetsFailures(c, Run(c, f, events[..7]), Crash(0, 1));
    ThreeRoundsFail(c, f, events, 9, now + 3 * w, now + 4 * w, now + 5 * w, Crash(0, 1), 2, 2);
  }

  lemma WaitCovered(delayMs: real)
    ensures delayMs <= WholeMs(delayMs) as real
  {
  }

  lemma TwoRounds(c: Config, now: int, events: seq<Event>)
    requires ValidConfig(c) && c.workers.count >= 2 && c.restart.crashThreshold >= 2 && c.restart.backoffMs > 0.0
    requires |events| > 7 && events[0] == Exit(1, false, true)
    requires events[1] == Tick(now + WholeMs(c.restart.backoffMs))
    requires events[4] == Tick(now + 2 * WholeMs(c.restart.backoffMs))
    requires events[2] == events[5] == WakeRunner(false) && events[3] == events[6] == ResumeRunner(true)
    ensures var r := Run(c, Started(c, now), events[..7]);
            && Retrying(c, r, Crash(0, 1), 2, 2, 2) && r.core.now == now + 2 * WholeMs(c.restart.backoffMs)
            && r.core.books.issued == 1 && r.roll.NoRoll?
            && PoolOk(r.core.pool) && 2 in Live(r) && 2 !in r.core.pool.marks
  {
    hide Run, Step, Started, Retrying, PoolOk, WholeMs;
    var f, e, w := Started(c, now), Crash(0, 1), WholeMs(c.restart.backoffMs);
    WaitCovered(c.restart.backoffMs);
    NoEvents(c, f, events);
    RunPrefix(c, f, events, 0);
    FirstCrash(c, now);
    OneRoundFails(c, f, events, 1, now + w, e, 0, 0, 0);
    OneRoundFails(c, f, events, 4, now + 2 * w, e, 1, 1, 1);
  }

  /** The first crash of a started fleet parks its restart. */
  lemma FirstCrash(c: Config, now: int)
    requires ValidConfig(c) && c.workers.count >= 2 && c.restart.crashThreshold >= 2 && c.restart.backoffMs > 0.0
    ensures var r := Step(c, Started(c, now), Exit(1, false, true));
            && Retrying(c, r, Crash(0, 1), 0, 0, 0) && r.roll.NoRoll? && r.core.now == now && r.online == {}
            && r.core.books.issued == 1 && r.core.crashes == [now] && r.core.engine.resetAt.None?
            && r.core.engine.backoffMs == 0.0 && r.core.engine.runner.delayMs == c.restart.backoffMs
            && PoolOk(r.core.pool) && r.core.pool.marks == {} && r.core.pool.nextId == c.workers.count + 1
            && 2 in Live(r) && Serving(r.core.pool) == c.workers.count - 1
  {
    hide ForkMany, InWindow;
    var f := Started(c, now);
    ForkManyIds(now, c.workers.count);
    assert [] + [now] == [now];
    CrashParks(c, f, 1);
    CleanupServes(f.core.pool, 1);
  }

  lemma RollForgetsFailures(c: Config, f: Fleet, e: Entry)
    requires Retrying(c, f, e, 2, 2, 2) && f.roll.NoRoll?
    requires PoolOk(f.core.pool) && 2 in Live(f) && 2 !in f.core.pool.marks
    ensures var r := Step(c, Step(c, f, RestartWorkers([2], 0)), AdvanceRoll(true));
            && Retrying(c, r, e, 0, 2, 2) && r.core.now == f.core.now && r.core.books.issued == f.core.books.issued
            && forall to | f.core.now <= to <= f.core.now + Drain.DrainBudget(c) :: MayReach(r, to)
  {
    hide InWindow, RequestRefill, SurplusAfter;
    var s := OnRestartWorkers(f, [2], 0);
    assert Step(c, f, RestartWorkers([2], 0)) == s by { RestartIs(c, f, [2], 0); }
    hide Step;
    ForkServes(f.core.pool, f.core.now);
    MarkServes(Fork(f.core.pool, f.core.now), 2);
    assert Step(c, s, AdvanceRoll(true)) == RollStep(c, s, true) by { StepRolls(c, s, true); }
  }

  lemma RestartIs(c: Config, f: Fleet, targets: seq<int>, staggerMs: int)
    requires LegalTargets(f, targets)
    ensures Step(c, f, RestartWorkers(targets, staggerMs)) == OnRestartWorkers(f, targets, staggerMs)
  {
    hide OnRestartWorkers;
  }

  lemma StepRolls(c: Config, f: Fleet, forkOk: bool)
    ensures Step(c, f, AdvanceRoll(forkOk)) == RollStep(c, f, forkOk)
  {
    hide RollStep;
  }

  /** Two crashes: the second restart forks after the first attempt of the first, and forgets its failure. */
  ghost function OtherForks(c: Config, now: int): seq<Event> {
    var w := WholeMs(c.restart.backoffMs);
    var v := WholeMs(BackoffAfter(c, 1));
    [Exit(1, false, true), Exit(2, false, true),
     Tick(now + w), WakeRunner(false), ResumeRunner(true),
     Tick(now + 2 * w), WakeRunner(true), ResumeRunner(true),
     Tick(now + 2 * w + v), WakeRunner(false), ResumeRunner(true),
     Tick(now + 2 * w + 2 * v), WakeRunner(false), ResumeRunner(true),
     Tick(now + 2 * w + 3 * v), WakeRunner(false)]
  }

  /** So a restart can fail four times before it is given up, without any roll or reset. */
  lemma OtherRestartBuysAnAttempt(c: Config, now: int)
    requires ValidConfig(c) && c.workers.count >= 2 && c.restart.crashThreshold >= 3 && c.restart.backoffMs > 0.0
    ensures var f, events := Started(c, now), OtherForks(c, now);
            var b := Run(c, f, events).core.books;
            && b.failed[0] == 4 && 0 in b.ledger && b.ledger[0] == ByGiveUp && b.attempts == 5 && b.issued == 2
            && Refreshments(c, f, events) == 0
  {
    hide Run, Step, Started, Retrying, PoolOk, BackoffAfter, Refreshes;
    var f, events := Started(c, now), OtherForks(c, now);
    var w, v := WholeMs(c.restart.backoffMs), WholeMs(BackoffAfter(c, 1));
    BackoffGrows(c, 1);
    NoEvents(c, f, events);
    RunPrefix(c, f, events, 0);
    FirstCrash(c, now);
    RunPrefix(c, f, events, 1);
    SecondCrashQueues(c, Run(c, f, events[..1]));
    RunPrefix(c, f, events, 2);
    RunPrefix(c, f, events, 3);
    RunPrefix(c, f, events, 4);
    FirstFailsSecondParks(c, Run(c, f, events[..2]), now + w);
    RunPrefix(c, f, events, 5);
    RunPrefix(c, f, events, 6);
    RunPrefix(c, f, events, 7);
    SecondForksFirstParks(c, Run(c, f, events[..5]), now + 2 * w);
    ThreeRoundsFail(c, f, events, 8, now + 2 * w + v, now + 2 * w + 2 * v, now + 2 * w + 3 * v, Crash(0, 1), 1, 2);
    NothingRefreshes(c, f, events);
  }

  /** Both crashed: the first restart waits, the second is queued; or the other way round after the first failed. */
  ghost predicate BothPending(c: Config, f: Fleet, waiting: Entry, queued: Entry, failures: nat) {
    var k := f.core;
    && !k.shuttingDown && |k.crashes| < c.restart.crashThreshold && f.roll.NoRoll?
    && PoolOk(k.pool) && Settled(k.pool) <= c.workers.count - 2
    && k.engine.queue == [queued] && k.engine.runner == Parked(waiting, c.restart.backoffMs)
    && k.engine.backoffMs == 0.0 && k.engine.resetAt.None?
    && k.engine.forkFailures == failures && k.books.failed[0] == failures && k.books.attempts == failures
    && k.books.issued == 2
  }

  lemma SecondCrashQueues(c: Config, f: Fleet)
    requires ValidConfig(c) && c.restart.crashThreshold >= 3 && Retrying(c, f, Crash(0, 1), 0, 0, 0) && f.roll.NoRoll?
    requires |f.core.crashes| == 1 && f.core.books.issued == 1 && f.core.engine.backoffMs == 0.0 && f.online == {}
    requires f.core.engine.runner.delayMs == c.restart.backoffMs
    requires PoolOk(f.core.pool) && f.core.pool.marks == {}
    requires 2 in Live(f) && Serving(f.core.pool) == c.workers.count - 1
    ensures var r := Step(c, f, Exit(2, false, true));
            BothPending(c, r, Crash(0, 1), Crash(1, 2), 0) && r.core.now == f.core.now
  {
    hide Step;
    CrashQueues(c, f, 2);
    CleanupServes(f.core.pool, 2);
  }

  lemma FirstFailsSecondParks(c: Config, f: Fleet, to: int)
    requires c.restart.backoffMs > 0.0 && BothPending(c, f, Crash(0, 1), Crash(1, 2), 0) && f.core.now <= to
    ensures var r := Step(c, Step(c, Step(c, f, Tick(to)), WakeRunner(false)), ResumeRunner(true));
            BothPending(c, r, Crash(1, 2), Crash(0, 1), 1) && r.core.now == to
  {
    hide Tripped, Settle, PoolOk;
    var s := f.(core := f.core.(now := to));
    TimePasses(c, f, to);
    FewCrashes(c, s.core);
    var t := Step(c, s, WakeRunner(false));
    assert t.core.engine.queue == [Crash(1, 2), Crash(0, 1)];
    FewCrashes(c, t.core);
  }

  lemma SecondForksFirstParks(c: Config, f: Fleet, to: int)
    requires ValidConfig(c) && c.restart.backoffMs > 0.0 && f.core.now <= to
    requires BothPending(c, f, Crash(1, 2), Crash(0, 1), 1)
    ensures var r := Step(c, Step(c, Step(c, f, Tick(to)), WakeRunner(true)), ResumeRunner(true));
            && Retrying(c, r, Crash(0, 1), 0, 1, 2) && r.core.now == to && r.roll.NoRoll? && r.core.books.issued == 2
            && r.core.engine.resetAt.None?
  {
    hide Tripped, Settle, NextBackoff, Step;
    var s := f.(core := f.core.(now := to));
    TimePasses(c, f, to);
    RestartForks(c, s);
    var t := Step(c, s, WakeRunner(true));
    ForkServes(s.core.pool, to);
    NextBackoffPositive(c, c.restart.backoffMs);
    QueuedParks(c, t, Crash(0, 1));
  }

  lemma NextBackoffPositive(c: Config, delayMs: real)
    requires ValidConfig(c) && delayMs > 0.0
    ensures NextBackoff(c, delayMs) > 0.0
  {
    MulAtLeast(delayMs, c.restart.backoffMultiplier);
  }

  lemma QueuedParks(c: Config, f: Fleet, e: Entry)
    requires !f.core.shuttingDown && |f.core.crashes| < c.restart.crashThreshold
    requires Settled(f.core.pool) < c.workers.count
    requires f.core.engine.runner.Looping? && f.core.engine.queue == [e] && f.core.engine.backoffMs > 0.0
    ensures var r := Step(c, f, ResumeRunner(true)); var k := f.core;
            && r == f.(core := r.core) && ParkedAlone(r.core, e)
            && r.core == k.(engine := r.core.engine, books := r.core.books)
            && r.core.engine.forkFailures == k.engine.forkFailures && r.core.engine.resetAt == k.engine.resetAt
            && r.core.books.attempts == k.books.attempts && r.core.books.failed == k.books.failed
            && r.core.books.issued == k.books.issued
  {
    hide Tripped;
    FewCrashes(c, f.core);
  }

  /** Neither the restart loop nor a crash refreshes a failure count. */
  lemma {:induction false} NothingRefreshes(c: Config, f: Fleet, events: seq<Event>)
    requires forall i | 0 <= i < |events| :: !events[i].ResetBreaker? && !events[i].AdvanceRoll?
    ensures Refreshments(c, f, events) == 0
  {
    hide Run;
    if events != [] {
      NothingRefreshes(c, f, events[..|events| - 1]);
    }
  }

  // -------------------------------------------------- a reset that is undone

  /** Two crashes; while the second restart waits, the first replacement comes online and resets the backoff. */
  ghost function ResetWhileWaiting(c: Config, now: int): seq<Event> {
    var first := now + WholeMs(c.restart.backoffMs);
    [Exit(1, false, true), Tick(first), WakeRunner(true), ResumeRunner(true),
     Exit(2, false, true), Online(c.workers.count + 1),
     Tick(first + WholeMs(BackoffAfter(c, 1))), WakeRunner(true)]
  }

  /** The reset takes effect during the wait, and the restart it waits for undoes it. */
  lemma ResetIsUndone(c: Config, now: int)
    requires ValidConfig(c) && c.workers.count >= 2 && c.restart.crashThreshold >= 3
    requires c.restart.backoffMs > 0.0 && c.restart.stabilityWindowMs == 0
    ensures var f, events := Started(c, now), ResetWhileWaiting(c, now);
            && Run(c, f, events[..5]).core.engine.backoffMs == BackoffAfter(c, 1)
            && Run(c, f, events[..6]).core.engine.backoffMs == 0.0
            && Run(c, f, events[..6]).core.engine.runner.Parked?
            && Run(c, f, events).core.engine.backoffMs == BackoffAfter(c, 2) > 0.0
  {
    hide Run, Step, Started, PoolOk, Serving, BackoffAfter, Fork, Cleanup, Retrying;
    var f, events := Started(c, now), ResetWhileWaiting(c, now);
    var first := now + WholeMs(c.restart.backoffMs);
    BackoffGrows(c, 1);
    NoEvents(c, f, events);
    RunPrefix(c, f, events, 0);
    FirstCrash(c, now);
    RunPrefix(c, f, events, 1);
    RunPrefix(c, f, events, 2);
    RunPrefix(c, f, events, 3);
    FirstRestarts(c, Run(c, f, events[..1]), first);
    RunPrefix(c, f, events, 4);
    SecondCrashParks(c, Run(c, f, events[..4]));
    RunPrefix(c, f, events, 5);
    OnlineResets(c, Run(c, f, events[..5]), c.workers.count + 1);
    RunPrefix(c, f, events, 6);
    RunPrefix(c, f, events, 7);
    NextBackoffIsClosedForm(c, 1);
    TimePasses(c, Run(c, f, events[..6]), first + WholeMs(BackoffAfter(c, 1)));
    RestartForks(c, Run(c, f, events[..7]));
    assert events[..8] == events;
  }

  /** One crash made good, the engine at rest, nobody online yet. */
  ghost predicate BetweenCrashes(c: Config, f: Fleet, now: int) {
    && PoolOk(f.core.pool) && Serving(f.core.pool) == c.workers.count && f.core.pool.marks == {}
    && 2 in Live(f) && c.workers.count + 1 in Live(f) && f.roll.NoRoll?
    && |f.core.crashes| == 1 && f.core.now == now && !f.core.shuttingDown && f.online == {}
    && AtRest(f.core) && f.core.engine.backoffMs == BackoffAfter(c, 1) && f.core.engine.resetAt.None?
  }

  lemma FirstRestarts(c: Config, f: Fleet, to: int)
    requires ValidConfig(c) && c.workers.count >= 2 && c.restart.crashThreshold >= 3 && c.restart.backoffMs > 0.0
    requires Retrying(c, f, Crash(0, 1), 0, 0, 0) && f.roll.NoRoll? && f.core.now <= to && f.online == {}
    requires |f.core.crashes| == 1 && f.core.engine.runner.delayMs == c.restart.backoffMs
    requires PoolOk(f.core.pool) && f.core.pool.marks == {} && f.core.pool.nextId == c.workers.count + 1
    requires 2 in Live(f) && Serving(f.core.pool) == c.workers.count - 1
    ensures BetweenCrashes(c, Step(c, Step(c, Step(c, f, Tick(to)), WakeRunner(true)), ResumeRunner(true)), to)
  {
    hide Step, BackoffAfter;
    var s := f.(core := f.core.(now := to));
    TimePasses(c, f, to);
    RestartForks(c, s);
    LoopRests(c, Step(c, s, WakeRunner(true)));
    ForkServes(s.core.pool, to);
    FreshBackoff(c);
    NextBackoffIsClosedForm(c, 0);
  }

  /** A restart waits after the second crash. */
  ghost predicate SecondWaits(c: Config, f: Fleet) {
    && !f.core.shuttingDown && |f.core.crashes| < c.restart.crashThreshold
    && f.online == {} && c.workers.count + 1 in Live(f) && f.roll.NoRoll? && f.core.engine.resetAt.None?
    && f.core.engine.runner.Parked? && f.core.engine.runner.delayMs == BackoffAfter(c, 1)
  }

  lemma SecondCrashParks(c: Config, f: Fleet)
    requires ValidConfig(c) && c.workers.count >= 2 && c.restart.crashThreshold >= 3 && c.restart.backoffMs > 0.0
    requires BetweenCrashes(c, f, f.core.now)
    ensures var r := Step(c, f, Exit(2, false, true));
            SecondWaits(c, r) && r.core.engine.backoffMs == BackoffAfter(c, 1) && r.core.now == f.core.now
  {
    hide Step, BackoffAfter, Fork;
    BackoffGrows(c, 1);
    CrashParks(c, f, 2);
  }

  lemma OnlineResets(c: Config, f: Fleet, w: int)
    requires SecondWaits(c, f) && w == c.workers.count + 1 && c.restart.stabilityWindowMs == 0
    requires f.core.engine.backoffMs > 0.0
    ensures var r := Step(c, f, Online(w));
            && r.core.engine.backoffMs == 0.0 && !r.core.shuttingDown && r.core.crashes == f.core.crashes
            && r.core.engine.runner == f.core.engine.runner && r.roll == f.roll && r.core.now == f.core.now
            && r.core.engine.resetAt.None?
  {
    hide BackoffAfter;
  }

  // ------------------------------------------- a refill that misses a worker

  /** A recycle whose replacement crashes into a tripped breaker, then the operator's reset or an empty roll. */
  function RefillAfterTrip(n: int, byRoll: bool): seq<Event> {
    [Online(1), Recycle(1, true), Online(n + 1), Exit(n + 1, false, true)]
    + if byRoll then [RestartWorkers([], 0), AdvanceRoll(true)] else [ResetBreaker(true)]
  }

  /** The marked worker still counts as active, so neither refill makes up for the lost replacement. */
  lemma RefillMissesTheMarked(c: Config, now: int, byRoll: bool)
    requires ValidConfig(c) && c.restart.crashThreshold == 1
    ensures var k := Run(c, Started(c, now), RefillAfterTrip(c.workers.count, byRoll)).core;
            !k.shuttingDown && InPlay(k) == c.workers.count - 1
  {
    hide Run, Step, Started, InPlay;
    var f, events := Started(c, now), RefillAfterTrip(c.workers.count, byRoll);
    NoEvents(c, f, events);
    RunPrefix(c, f, events, 0);
    RunPrefix(c, f, events, 1);
    RunPrefix(c, f, events, 2);
    RunPrefix(c, f, events, 3);
    RecycledThenTripped(c, now);
    RunPrefix(c, f, events, 4);
    if byRoll { RunPrefix(c, f, events, 5); }
    NothingRefilled(c, Run(c, f, events[..4]), byRoll);
    assert events[..|events|] == events;
  }

  /** The engine at rest, one worker marked, and one serving worker too few although enough are active. */
  ghost predicate Short(c: Config, f: Fleet) {
    && !f.core.shuttingDown && PoolOk(f.core.pool) && f.core.pool.active == c.workers.count
    && Serving(f.core.pool) == c.workers.count - 1 && AtRest(f.core) && f.roll.NoRoll?
  }

  /** A fresh worker that comes online changes nothing but that. */
  lemma ComesOnline(c: Config, f: Fleet, w: int)
    requires w in Live(f) && w !in f.online && f.core.engine.backoffMs == 0.0
    ensures Step(c, f, Online(w))
            == f.(core := f.core.(engine := f.core.engine.(bootFailures := 0)), online := f.online + {w})
  {
  }

  lemma RecycledThenTripped(c: Config, now: int)
    requires ValidConfig(c) && c.restart.crashThreshold == 1
    ensures var n := c.workers.count;
            var s := Step(c, Step(c, Started(c, now), Online(1)), Recycle(1, true));
            Short(c, Step(c, Step(c, s, Online(n + 1)), Exit(n + 1, false, true)))
  {
    hide ForkMany, Tripped, OnExit, OnOnline;
    var n, f := c.workers.count, Started(c, now);
    ForkManyIds(now, n);
    ComesOnline(c, f, 1);
    var o := Step(c, f, Online(1));
    RecycleSwaps(o, 1);
    var s := Step(c, o, Recycle(1, true));
    assert s.core.pool == Fork(Mark(f.core.pool, 1), now);
    ComesOnline(c, s, n + 1);
    var t := Step(c, s, Online(n + 1));
    CleanupServes(t.core.pool, n + 1);
    assert [] + [now] == [now];
    TrippedNow(c, t.core.(crashes := [now]));
    CrashTrips(c, t, n + 1);
  }

  lemma NothingRefilled(c: Config, f: Fleet, byRoll: bool)
    requires Short(c, f)
    ensures var r := if byRoll then Step(c, Step(c, f, RestartWorkers([], 0)), AdvanceRoll(true))
                     else Step(c, f, ResetBreaker(true));
            !r.core.shuttingDown && InPlay(r.core) == c.workers.count - 1
  {
    hide Serving, PoolOk, InWindow;
  }

  // ------------------------------------------------- an aged worker over-forks

  /**
   * A fleet of two, around its first sweep. Shortly before, the first worker is
   * recycled, and its replacement is slow to come online. The sweep finds the
   * second worker and the replacement too old; the second is replaced at once
   * and leaves, the replacement's turn is half a minute later. Meanwhile the
   * first crashes and gets a restart, as nobody seems to serve its slot.
   */
  function AgedOverlap(c: Config, now: int): seq<Event> {
    var sweep := now + 60_000;
    [Online(1), Online(2), Tick(sweep - c.workers.maxAgeMs - 1), Recycle(1, true),
     Tick(sweep), Sweep, StaggerFires(2, true), Online(4), Exit(2, true, true),
     Exit(1, false, true), Tick(sweep + WholeMs(c.restart.backoffMs)), WakeRunner(true), ResumeRunner(true),
     Tick(sweep + 30_000), StaggerFires(3, true)]
  }

  /** So age-based recycling alone can exceed the target, without any roll. */
  lemma AgedSweepOverForks(c: Config, now: int)
    requires ValidConfig(c) && c.workers.count == 2 && 0 < c.workers.maxAgeMs < Min(60_000, Drain.DrainBudget(c))
    requires c.restart.crashThreshold >= 2 && 0.0 < c.restart.backoffMs <= 29_000.0
    ensures var f := Run(c, Started(c, now), AgedOverlap(c, now));
            !f.core.shuttingDown && Serving(f.core.pool) == c.workers.count + 1
  {
    hide Run, Step, Started, Serving, PoolOk;
    var f, events, sweep := Started(c, now), AgedOverlap(c, now), now + 60_000;
    NoEvents(c, f, events);
    RunPrefix(c, f, events, 0);
    RunPrefix(c, f, events, 1);
    RunPrefix(c, f, events, 2);
    RunPrefix(c, f, events, 3);
    OneRecycled(c, now, sweep - c.workers.maxAgeMs - 1);
    RunPrefix(c, f, events, 4);
    RunPrefix(c, f, events, 5);
    OthersAreMarked(c, Run(c, f, events[..4]), sweep);
    RunPrefix(c, f, events, 6);
    RunPrefix(c, f, events, 7);
    RunPrefix(c, f, events, 8);
    SecondIsReplaced(c, Run(c, f, events[..6]));
    RunPrefix(c, f, events, 9);
    RunPrefix(c, f, events, 10);
    RunPrefix(c, f, events, 11);
    RunPrefix(c, f, events, 12);
    CrashOfMarkedRestarts(c, Run(c, f, events[..9]), sweep + WholeMs(c.restart.backoffMs));
    RunPrefix(c, f, events, 13);
    TimePasses(c, Run(c, f, events[..13]), sweep + 30_000);
    RunPrefix(c, f, events, 14);
    LastStaggerOverForks(c, Run(c, f, events[..14]));
    assert events[..15] == events;
  }

  /** Nothing crashed yet, the engine fresh and at rest. */
  ghost predicate Fresh(f: Fleet) {
    && !f.core.shuttingDown && PoolOk(f.core.pool) && f.core.crashes == [] && f.roll.NoRoll?
    && AtRest(f.core) && f.core.engine.backoffMs == 0.0 && f.core.engine.resetAt.None?
  }

  /** The first of two workers is being recycled. */
  ghost predicate Recycled(f: Fleet, now: int, at: int) {
    && Fresh(f) && f.core.now == at && f.online == {1, 2}
    && Live(f) == {1, 2, 3} && f.core.pool.nextId == 4 && f.core.pool.marks == {1} && f.core.pool.staged == {}
    && f.core.pool.started[2] == now && f.core.pool.started[3] == at
  }

  lemma OneRecycled(c: Config, now: int, at: int)
    requires ValidConfig(c) && c.workers.count == 2 && now <= at
    ensures var o := Step(c, Step(c, Started(c, now), Online(1)), Online(2));
            Recycled(Step(c, Step(c, o, Tick(at)), Recycle(1, true)), now, at)
  {
    hide ForkMany, Serving, OnOnline;
    var f := Started(c, now);
    ForkManyIds(now, 2);
    assert forall w :: w in f.core.pool.started <==> w == 1 || w == 2;
    assert Live(f) == {1, 2};
    ComesOnline(c, f, 1);
    var s := Step(c, f, Online(1));
    ComesOnline(c, s, 2);
    var t := Step(c, s, Online(2));
    assert t.online == {1, 2};
    TimePasses(c, t, at);
    var u := Step(c, t, Tick(at));
    RecycleSwaps(u, 1);
    assert OnRecycle(u, 1, true).core.pool == Fork(Mark(f.core.pool, 1), at);
  }

  lemma OthersAreMarked(c: Config, f: Fleet, sweep: int)
    requires c.workers.maxAgeMs > 0 && Recycled(f, sweep - 60_000, f.core.now)
    requires f.core.now == sweep - c.workers.maxAgeMs - 1 && c.workers.maxAgeMs < 60_000
    ensures var r := Step(c, Step(c, f, Tick(sweep)), Sweep);
            && Fresh(r) && r.core.now == sweep && r.online == {1, 2} && Live(r) == {1, 2, 3} && r.core.pool.nextId == 4
            && r.core.pool.marks == {1, 2, 3} && r.core.pool.staged == {2, 3} && Serving(r.core.pool) == 0
  {
    TimePasses(c, f, sweep);
    var t := f.(core := f.core.(now := sweep));
    assert Aged(c, t.core) == {2, 3};
    assert {1} + {2, 3} == {1, 2, 3};
    assert |f.core.pool.started.Keys| == |{1, 2, 3}|;
  }

  /** Only the first worker and the replacements are left; the third is marked and staged. */
  ghost predicate AllMarked(f: Fleet) {
    && Fresh(f) && 1 in f.online && 1 in Live(f) && 1 in f.core.pool.marks && f.core.pool.staged == {3}
    && Serving(f.core.pool) == 1
  }

  lemma SecondIsReplaced(c: Config, f: Fleet)
    requires Fresh(f) && f.online == {1, 2} && Live(f) == {1, 2, 3} && f.core.pool.nextId == 4
    requires f.core.pool.marks == {1, 2, 3} && f.core.pool.staged == {2, 3} && Serving(f.core.pool) == 0
    ensures var r := Step(c, Step(c, Step(c, f, StaggerFires(2, true)), Online(4)), Exit(2, true, true));
            AllMarked(r) && r.core.now == f.core.now
  {
    hide Serving, OnOnline, OnExit, PoolOk, Fork;
    var q := f.core.pool.(staged := f.core.pool.staged - {2});
    assert q.staged == {3};
    StillSound(f.core.pool, q);
    ForkServes(q, f.core.now);
    assert {1, 2} + {4} == {1, 2, 4};
    var s := Step(c, f, StaggerFires(2, true));
    assert s.core == f.core.(pool := Fork(q, f.core.now));
    ComesOnline(c, s, 4);
    SecondLeaves(c, Step(c, s, Online(4)));
  }

  lemma SecondLeaves(c: Config, f: Fleet)
    requires Fresh(f) && f.online == {1, 2, 4} && 1 in Live(f) && 2 in Live(f)
    requires f.core.pool.marks == {1, 2, 3} && f.core.pool.staged == {3} && Serving(f.core.pool) == 1
    ensures var r := OnExit(c, f, 2, true, true); AllMarked(r) && r.core.now == f.core.now
  {
    hide Serving, OnExit, PoolOk, Fork;
    MarkedExitIsFree(c, f, 2);
    LeavesOnline(c, f, 2);
    CleanupServes(f.core.pool, 2);
  }

  lemma StillSound(p: Pool, q: Pool)
    requires PoolOk(p) && q == p.(staged := q.staged) && q.staged <= p.staged
    ensures PoolOk(q) && Serving(q) == Serving(p)
  {
  }

  lemma LeavesOnline(c: Config, f: Fleet, w: int)
    requires !f.core.shuttingDown && w in Live(f)
    ensures var r := OnExit(c, f, w, true, true);
            r.online == f.online - {w} && r.core == f.core.(pool := Cleanup(f.core.pool, w)) && r.roll == f.roll
  {
  }

  lemma CrashOfMarkedRestarts(c: Config, f: Fleet, to: int)
    requires ValidConfig(c) && c.workers.count == 2 && c.restart.crashThreshold >= 2 && c.restart.backoffMs > 0.0
    requires AllMarked(f) && f.core.now <= to
    ensures var s := Step(c, Step(c, f, Exit(1, false, true)), Tick(to));
            var r := Step(c, Step(c, s, WakeRunner(true)), ResumeRunner(true));
            && !r.core.shuttingDown && PoolOk(r.core.pool) && MayReach(r, to) && r.core.now == to && r.roll.NoRoll?
            && Serving(r.core.pool) == 2 && r.core.pool.staged == {3}
  {
    hide Step;
    CleanupServes(f.core.pool, 1);
    CrashParks(c, f, 1);
    var s := Step(c, f, Exit(1, false, true));
    TimePasses(c, s, to);
    var t := s.(core := s.core.(now := to));
    RestartForks(c, t);
    ForkServes(t.core.pool, to);
    LoopRests(c, Step(c, t, WakeRunner(true)));
  }

  lemma LastStaggerOverForks(c: Config, f: Fleet)
    requires !f.core.shuttingDown && PoolOk(f.core.pool) && Serving(f.core.pool) == 2 && f.core.pool.staged == {3}
    ensures var r := Step(c, f, StaggerFires(3, true)); !r.core.shuttingDown && Serving(r.core.pool) == 3
  {
    var q := f.core.pool.(staged := f.core.pool.staged - {3});
    ForkServes(q, f.core.now);
  }
}
