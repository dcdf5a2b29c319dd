/** Why each restart met its fate: no outcome is recorded that was not the case. */
module FleetFates {
  import opened Wrappers
  import opened Config
  import opened CrashTracking
  import opened FleetModel
  import opened FleetSafety
  import opened FleetRetries
  import opened FleetHistory

  /** What must hold of the cores before and after when the outcome is given. */
  ghost predicate IsTrue(c: Config, k: Core, r: Core, count: nat, o: Outcome) {
    match o
    case Restarted => r.pool.nextId == k.pool.nextId + 1 && !Tripped(c, r) && !k.shuttingDown
    case AtCapacity => Settled(r.pool) >= c.workers.count && r.pool.nextId == k.pool.nextId && !k.shuttingDown
    case ByBreaker => Tripped(c, r) && r.pool.nextId == k.pool.nextId && !k.shuttingDown
    case ByShutdown => k.shuttingDown && r.pool.nextId == k.pool.nextId
    case ByGiveUp => count + 1 >= MAX_CONSECUTIVE_FORK_FAILURES && r.pool.nextId == k.pool.nextId
    case Quarantined => false
    case RejectedByTrip => false
  }

  /** Every fate given between the two is true. */
  ghost predicate TrueFates(c: Config, k: Core, r: Core, count: nat) {
    forall t | t in r.books.ledger && t !in k.books.ledger :: IsTrue(c, k, r, count, r.books.ledger[t])
  }

  lemma AttemptIsTrue(c: Config, k: Core, e: Entry, delayMs: real, streak: nat, forkOk: bool)
    requires !k.shuttingDown
    ensures TrueFates(c, k, Attempt(c, k, e, delayMs, streak, forkOk), k.engine.forkFailures)
  {
    hide InWindow, NextBackoff;
  }

  lemma LoopIsTrue(c: Config, k: Core, forkOk: bool)
    ensures TrueFates(c, k, Loop(c, k, forkOk), k.engine.forkFailures)
  {
    hide InWindow, Attempt;
    var queue := k.engine.queue;
    if queue != [] && !k.shuttingDown {
      var rest := k.(engine := k.engine.(queue := queue[1..]));
      AttemptIsTrue(c, rest, queue[0], Wait(c, rest.engine), rest.books.streak, forkOk);
    }
  }

  lemma RunnerIsTrue(c: Config, k: Core, forkOk: bool)
    ensures TrueFates(c, k, Wake(c, k, forkOk), k.engine.forkFailures)
    ensures TrueFates(c, k, Resume(c, k, forkOk), k.engine.forkFailures)
    ensures TrueFates(c, k, Kick(c, k, forkOk), k.engine.forkFailures)
  {
    hide InWindow, Attempt, Loop;
    LoopIsTrue(c, k, forkOk);
    if k.engine.runner.Parked? && !k.shuttingDown {
      AttemptIsTrue(c, k, k.engine.runner.entry, k.engine.runner.delayMs, k.books.parkedStreak, forkOk);
    }
  }

  /** Queueing first changes nothing about it. */
  lemma TrueFrom(c: Config, k: Core, s: Core, r: Core, count: nat)
    requires s.books.ledger == k.books.ledger && s.pool.nextId == k.pool.nextId && s.shuttingDown == k.shuttingDown
    requires TrueFates(c, s, r, count)
    ensures TrueFates(c, k, r, count)
  {
    hide IsTrue;
    forall t | t in r.books.ledger && t !in k.books.ledger
      ensures IsTrue(c, k, r, count, r.books.ledger[t])
    {
      TrueOf(c, k, s, r, count, r.books.ledger[t]);
    }
  }

  lemma TrueOf(c: Config, k: Core, s: Core, r: Core, count: nat, o: Outcome)
    requires s.pool.nextId == k.pool.nextId && s.shuttingDown == k.shuttingDown && IsTrue(c, s, r, count, o)
    ensures IsTrue(c, k, r, count, o)
  {
    hide Tripped;
  }

  lemma RefillIsTrue(c: Config, k: Core, forkOk: bool)
    ensures TrueFates(c, k, RequestRefill(c, k, forkOk), k.engine.forkFailures)
  {
    hide TrueFates, Kick, EnqueueRefills;
    var count := Max(0, c.workers.count - k.pool.active);
    var q := EnqueueRefills(k, count);
    EnqueueRefillsKeeps(k, count);
    RunnerIsTrue(c, q, forkOk);
    TrueFrom(c, k, q, Kick(c, q, forkOk), k.engine.forkFailures);
  }

  /** Apart from the fates a crash meets at once, on its own ticket. */
  ghost predicate TrueOrAtOnce(c: Config, k: Core, r: Core, count: nat, own: nat) {
    forall t | t in r.books.ledger && t !in k.books.ledger ::
      || IsTrue(c, k, r, count, r.books.ledger[t])
      || (t == own && (r.books.ledger[t].Quarantined? || r.books.ledger[t].RejectedByTrip?))
  }

  lemma CrashIsTrue(c: Config, k: Core, w: int, bootFailed: bool, hasOnline: bool, forkOk: bool)
    ensures TrueOrAtOnce(c, k, OnWorkerCrash(c, k, w, bootFailed, hasOnline, forkOk),
                         k.engine.forkFailures, k.books.issued)
  {
    hide Kick, InWindow, IsTrue, Quarantines, NoteBootFailure;
    var s := RecordCrash(c, k, bootFailed, hasOnline);
    var q := AcceptCrash(s, w);
    if !Quarantines(c, k.engine, bootFailed, hasOnline) && !Tripped(c, s) {
      SameCount(c, k.engine, bootFailed, hasOnline);
      RunnerIsTrue(c, q, forkOk);
      TrueFrom(c, k, q, Kick(c, q, forkOk), k.engine.forkFailures);
    }
  }

  lemma SameCount(c: Config, g: Engine, bootFailed: bool, hasOnline: bool)
    ensures NoteBootFailure(c, g, bootFailed, hasOnline).forkFailures == g.forkFailures
  {
  }

  /** The ticket a crash by this event would draw. */
  function Own(f: Fleet): nat {
    f.core.books.issued
  }

  lemma StepIsTrue(c: Config, f: Fleet, e: Event)
    requires Safe(c, f)
    ensures TrueOrAtOnce(c, f.core, Step(c, f, e).core, OnCount(f, e), Own(f))
  {
    hide Wake, Resume, RequestRefill, OnWorkerCrash, RollStep, IsTrue, OnOnline, OnStable, OnExit, ResetEngine, Serving;
    match e
    case Exit(w, graceful, forkOk) => ExitIsTrue(c, f, w, graceful, forkOk);
    case WakeRunner(forkOk) => RunnerIsTrue(c, f.core, forkOk);
    case ResumeRunner(forkOk) => RunnerIsTrue(c, f.core, forkOk);
    case ResetBreaker(forkOk) =>
      ResetCore(f.core);
      RefillIsTrue(c, ResetEngine(f.core), forkOk);
      TrueFrom(c, f.core, ResetEngine(f.core), RequestRefill(c, ResetEngine(f.core), forkOk), 0);
    case AdvanceRoll(forkOk) => RollIsTrue(c, f, forkOk);
    case Online(w) => OnlineSettlesNothing(c, f, w);
    case Stable => OnlineSettlesNothing(c, f, 0);
    case _ =>
  }

  lemma OnlineSettlesNothing(c: Config, f: Fleet, w: int)
    ensures OnOnline(c, f, w).core.books.ledger == f.core.books.ledger == OnStable(f.core).books.ledger
  {
  }

  lemma ResetCore(k: Core)
    ensures var r := ResetEngine(k);
            && r.books.ledger == k.books.ledger && r.pool == k.pool && r.shuttingDown == k.shuttingDown
            && r.engine.forkFailures == 0
  {
  }

  lemma RollIsTrue(c: Config, f: Fleet, forkOk: bool)
    ensures TrueOrAtOnce(c, f.core, RollStep(c, f, forkOk).core, f.core.engine.forkFailures, Own(f))
  {
    hide RequestRefill, IsTrue;
    RefillIsTrue(c, f.core, forkOk);
  }

  lemma ExitIsTrue(c: Config, f: Fleet, w: int, graceful: bool, forkOk: bool)
    ensures TrueOrAtOnce(c, f.core, OnExit(c, f, w, graceful, forkOk).core, f.core.engine.forkFailures, Own(f))
  {
    hide OnWorkerCrash, IsTrue;
    var k := Left(f, w);
    CrashIsTrue(c, k, w, w !in f.online, f.online - {w} != {}, forkOk);
    var r := OnWorkerCrash(c, k, w, w !in f.online, f.online - {w} != {}, forkOk);
    forall t | t in r.books.ledger && t !in k.books.ledger
               && IsTrue(c, k, r, f.core.engine.forkFailures, r.books.ledger[t])
      ensures IsTrue(c, f.core, r, f.core.engine.forkFailures, r.books.ledger[t])
    {
      TrueOf(c, f.core, k, r, f.core.engine.forkFailures, r.books.ledger[t]);
    }
  }

  /**
   * On every run, a fate is given only when it is the case: a restart forked a
   * worker while the breaker, by the history of crashes, was closed; a drop for
   * capacity found the target served; one by the breaker found it tripped, one by
   * shutdown found it begun, and a give-up two failures in a row. The fates a
   * crash meets at once go to its own ticket.
   */
  lemma {:induction false} EveryFateIsTrue(c: Config, now: int, events: seq<Event>, e: Event, t: nat)
    requires ValidConfig(c)
    ensures var f, r := After(c, now, events), After(c, now, events + [e]);
            t in r.core.books.ledger && t !in f.core.books.ledger ==>
              var o := r.core.books.ledger[t];
              && (Tripped(c, r.core) <==>
                    InWindow(CrashTimes(c, now, events + [e]), c.restart.crashWindowMs, r.core.now)
                    >= c.restart.crashThreshold)
              && Settled(r.core.pool) == Serving(r.core.pool)
              && (IsTrue(c, f.core, r.core, OnCount(f, e), o)
                  || (Crashes(f, e) && t == f.core.books.issued && (o.Quarantined? || o.RejectedByTrip?)))
  {
    hide Run, Started, CrashTimes, Step, IsTrue, InWindow;
    RunSafe(c, now, events);
    RunSafe(c, now, events + [e]);
    AfterNext(c, now, events, e);
    CountersAreHistory(c, now, events + [e]);
    var f := After(c, now, events);
    StepIsTrue(c, f, e);
    OwnMeansCrash(c, f, e);
    ServingIsSettled(After(c, now, events + [e]));
  }

  lemma ServingIsSettled(f: Fleet)
    requires PoolOk(f.core.pool)
    ensures Settled(f.core.pool) == Serving(f.core.pool)
  {
  }

  /** Only a crash puts one of those fates on the books. */
  lemma OwnMeansCrash(c: Config, f: Fleet, e: Event)
    requires Safe(c, f)
    ensures !Crashes(f, e) ==> TrueFates(c, f.core, Step(c, f, e).core, OnCount(f, e))
  {
    hide Wake, Resume, RequestRefill, OnWorkerCrash, RollStep, IsTrue, OnOnline, OnStable, ResetEngine, Serving;
    match e
    case WakeRunner(forkOk) => RunnerIsTrue(c, f.core, forkOk);
    case ResumeRunner(forkOk) => RunnerIsTrue(c, f.core, forkOk);
    case ResetBreaker(forkOk) =>
      ResetCore(f.core);
      RefillIsTrue(c, ResetEngine(f.core), forkOk);
      TrueFrom(c, f.core, ResetEngine(f.core), RequestRefill(c, ResetEngine(f.core), forkOk), 0);
    case AdvanceRoll(forkOk) => RollOnlyTrue(c, f, forkOk);
    case Online(w) => OnlineSettlesNothing(c, f, w);
    case Stable => OnlineSettlesNothing(c, f, 0);
    case _ =>
  }

  lemma RollOnlyTrue(c: Config, f: Fleet, forkOk: bool)
    ensures TrueFates(c, f.core, RollStep(c, f, forkOk).core, f.core.engine.forkFailures)
  {
    hide RequestRefill, IsTrue;
    RefillIsTrue(c, f.core, forkOk);
  }

  /** And the loop stops for those reasons: resumed when there is one, it drops all that is queued and rests. */
  lemma ClosedLoopDrops(c: Config, f: Fleet, forkOk: bool)
    requires f.core.engine.runner.Looping?
    requires f.core.shuttingDown || Tripped(c, f.core) || Settled(f.core.pool) >= c.workers.count
    ensures var r := Step(c, f, ResumeRunner(forkOk)).core;
            r.engine.queue == [] && r.engine.runner.Idle? && r.pool == f.core.pool
  {
    hide InWindow;
  }
}
