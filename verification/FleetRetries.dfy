/**
 * How often one restart may fail to fork. The failure count belongs to the
 * engine, not to a restart: whatever forks in between forgets the failures.
 */
module FleetRetries {
  import opened Wrappers
  import opened Config
  import opened FleetModel
  import opened FleetSafety
  import opened FleetCapacity

  /**
   * Since the failures were last forgotten a pending restart failed at most
   * twice, any other at most three times; and each time they are forgotten
   * makes room for two more.
   */
  ghost predicate Paced(b: Books, pending: set<nat>, failures: nat) {
    && |b.since| <= failures
    && (forall t :: b.since[t] <= if t in pending then 2 else 3)
    && (forall t :: b.failed[t] <= 2 * b.resets + if t in pending then b.since[t] else 3)
    && (forall t :: b.since[t] <= b.failed[t])
    && (forall t | t >= b.issued :: b.failed[t] == 0)
  }

  ghost predicate CorePaced(k: Core) {
    Paced(k.books, Tickets(Pending(k.engine)), k.engine.forkFailures)
  }

  /** The same failures on the books. */
  predicate SameFailures(b: Books, r: Books) {
    r.failed == b.failed && r.since == b.since && r.resets == b.resets && b.issued <= r.issued
  }

  lemma FewerPending(b: Books, r: Books, before: set<nat>, after: set<nat>, failures: nat)
    requires Paced(b, before, failures) && SameFailures(b, r)
    requires forall t | t in after :: t in before || t >= b.issued
    ensures Paced(r, after, failures)
  {
  }

  lemma Forgotten(b: Books, pending: set<nat>, failures: nat)
    requires Paced(b, pending, failures)
    ensures Paced(ForgetFailures(b), pending, 0)
  {
  }

  /** A failure that leaves its restart pending was at most the second in a row. */
  lemma FailedAndPending(b: Books, pending: set<nat>, failures: nat, t: nat)
    requires Paced(b, pending, failures) && t in pending && t < b.issued
    requires failures + 1 < MAX_CONSECUTIVE_FORK_FAILURES
    ensures Paced(NoteFailure(b, t), pending, failures + 1)
  {
    var r := NoteFailure(b, t);
    assert |r.since| == |b.since| + 1;
    assert r.since[t] <= |r.since|;
  }

  lemma FailedAndDropped(b: Books, pending: set<nat>, failures: nat, t: nat)
    requires Paced(b, pending, failures) && t in pending && t < b.issued
    ensures Paced(NoteFailure(b, t), {}, failures + 1)
  {
    assert |NoteFailure(b, t).since| == |b.since| + 1;
  }

  lemma TicketsOfRest(e: Entry, queue: seq<Entry>)
    ensures Tickets([e] + queue) == {e.ticket} + Tickets(queue) == Tickets(queue + [e])
  {
    TicketsConcat([e], queue);
    TicketsConcat(queue, [e]);
    OneTicket(e);
  }

  lemma AttemptPaced(c: Config, k: Core, e: Entry, delayMs: real, streak: nat, forkOk: bool)
    requires Paced(k.books, Tickets([e] + k.engine.queue), k.engine.forkFailures) && e.ticket < k.books.issued
    ensures CorePaced(Attempt(c, k, e, delayMs, streak, forkOk))
  {
    hide Tickets, Tripped, NextBackoff, Fork, Paced;
    var queue, failures := k.engine.queue, k.engine.forkFailures;
    var pending := Tickets([e] + queue);
    var b := k.books.(attempts := k.books.attempts + 1);
    var r := Attempt(c, k, e, delayMs, streak, forkOk);
    TicketsOfRest(e, queue);
    FewerPending(k.books, b, pending, pending, failures);
    if Tripped(c, k) {
      FewerPending(k.books, r.books, pending, Tickets(queue), failures);
    } else if forkOk {
      var s := b.(streak := streak + 1);
      FewerPending(b, s, pending, pending, failures);
      Forgotten(s, pending, failures);
      FewerPending(ForgetFailures(s), r.books, pending, Tickets(queue), 0);
    } else if failures + 1 >= MAX_CONSECUTIVE_FORK_FAILURES {
      FailedAndDropped(b, pending, failures, e.ticket);
      NoTickets();
      FewerPending(NoteFailure(b, e.ticket), r.books, {}, {}, failures + 1);
    } else {
      FailedAndPending(b, pending, failures, e.ticket);
    }
  }

  lemma NoTickets()
    ensures Tickets([]) == {}
  {
  }

  lemma FirstIsIssued(b: Books, queue: seq<Entry>)
    requires Partition(b, queue) && queue != []
    ensures queue[0].ticket < b.issued
  {
    assert queue[0] in queue;
    assert queue[0].ticket in Tickets(queue);
  }

  lemma LoopPaced(c: Config, k: Core, forkOk: bool)
    requires CorePaced(k) && Partition(k.books, Pending(k.engine)) && !k.engine.runner.Parked?
    ensures CorePaced(Loop(c, k, forkOk))
  {
    hide Tickets, Tripped, Settle, Attempt, Paced, Partition;
    var queue, r := k.engine.queue, Loop(c, k, forkOk);
    if queue != [] {
      FirstIsIssued(k.books, queue);
      assert [queue[0]] + queue[1..] == queue;
      if k.shuttingDown || Tripped(c, k) || Settled(k.pool) >= c.workers.count {
        NoTickets();
        FewerPending(k.books, r.books, Tickets(queue), {}, k.engine.forkFailures);
      } else {
        var rest := k.(engine := k.engine.(queue := queue[1..]));
        if Wait(c, rest.engine) <= 0.0 {
          AttemptPaced(c, rest, queue[0], Wait(c, rest.engine), rest.books.streak, forkOk);
        } else {
          FewerPending(k.books, r.books, Tickets(queue), Tickets(queue), k.engine.forkFailures);
        }
      }
    }
  }

  lemma RunnerPaced(c: Config, k: Core, forkOk: bool)
    requires CorePaced(k) && Partition(k.books, Pending(k.engine))
    ensures CorePaced(Wake(c, k, forkOk)) && CorePaced(Resume(c, k, forkOk)) && CorePaced(Kick(c, k, forkOk))
  {
    hide Tickets, Loop, Settle, Attempt, Paced, Partition;
    var g := k.engine;
    if g.runner.Parked? {
      FirstIsIssued(k.books, [g.runner.entry] + g.queue);
      if k.shuttingDown {
        TicketsOfRest(g.runner.entry, g.queue);
        FewerPending(k.books, Wake(c, k, forkOk).books, Tickets(Pending(g)), Tickets(g.queue), g.forkFailures);
      } else {
        AttemptPaced(c, k, g.runner.entry, g.runner.delayMs, k.books.parkedStreak, forkOk);
      }
    } else {
      LoopPaced(c, k, forkOk);
    }
  }

  lemma EnqueuePaced(k: Core, e: Entry)
    requires CorePaced(k) && e.ticket == k.books.issued
    ensures CorePaced(Enqueue(k, e))
  {
    hide Tickets, Paced;
    var r := Enqueue(k, e);
    assert Pending(r.engine) == Pending(k.engine) + [e];
    TicketsConcat(Pending(k.engine), [e]);
    OneTicket(e);
    FewerPending(k.books, r.books, Tickets(Pending(k.engine)), Tickets(Pending(r.engine)), k.engine.forkFailures);
  }

  lemma {:induction false} EnqueueRefillsPaced(k: Core, count: nat)
    requires CorePaced(k)
    ensures CorePaced(EnqueueRefills(k, count))
  {
    hide CorePaced;
    if count > 0 {
      EnqueueRefillsPaced(k, count - 1);
      var rest := EnqueueRefills(k, count - 1);
      EnqueuePaced(rest, Refill(rest.books.issued));
    }
  }

  lemma RefillPaced(c: Config, k: Core, forkOk: bool)
    requires CorePaced(k) && Partition(k.books, Pending(k.engine))
    ensures CorePaced(RequestRefill(c, k, forkOk))
  {
    hide CorePaced, Kick, Partition, EnqueueRefills;
    var count := Max(0, c.workers.count - k.pool.active);
    EnqueueRefillsPaced(k, count);
    EnqueueRefillsAccounts(k, count);
    RunnerPaced(c, EnqueueRefills(k, count), forkOk);
  }

  /** A core with the same pending restarts and failures is as well paced. */
  lemma SamePaced(k: Core, r: Core)
    requires CorePaced(k) && SameFailures(k.books, r.books)
    requires r.engine.queue == k.engine.queue && r.engine.runner == k.engine.runner
    requires r.engine.forkFailures == k.engine.forkFailures
    ensures CorePaced(r)
  {
    hide Tickets;
  }

  lemma CrashPaced(c: Config, k: Core, w: int, bootFailed: bool, hasOnline: bool, forkOk: bool)
    requires CorePaced(k) && Partition(k.books, Pending(k.engine))
    ensures CorePaced(OnWorkerCrash(c, k, w, bootFailed, hasOnline, forkOk))
  {
    hide CorePaced, Kick, Partition, Tripped;
    var r := RecordCrash(c, k, bootFailed, hasOnline);
    SamePaced(k, r);
    var a := r.(books := r.books.(accepted := r.books.accepted + [r.now]));
    SamePaced(k, a);
    EnqueuePaced(a, Crash(a.books.issued, w));
    SamePartition(k.books, r.books, Pending(k.engine));
    AcceptAccounts(r, w);
    RunnerPaced(c, AcceptCrash(r, w), forkOk);
    SamePaced(k, OnCrashRefused(c, k, bootFailed, hasOnline, Quarantined));
    SamePaced(k, OnCrashRefused(c, k, bootFailed, hasOnline, RejectedByTrip));
    var done := OnWorkerCrash(c, k, w, bootFailed, hasOnline, forkOk);
    if Quarantines(c, k.engine, bootFailed, hasOnline) || Tripped(c, r) {
      SamePaced(k, done);
    }
  }

  /** What a refused crash leaves of the failures: everything. */
  function OnCrashRefused(c: Config, k: Core, bootFailed: bool, hasOnline: bool, o: Outcome): Core {
    RecordCrash(c, k, bootFailed, hasOnline).(books := Issue(k.books, o))
  }

  lemma SamePartition(b: Books, r: Books, pending: seq<Entry>)
    requires Partition(b, pending) && r.issued == b.issued && r.ledger == b.ledger
    ensures Partition(r, pending)
  {
    hide Tickets;
  }

  lemma ResetPaced(k: Core)
    requires CorePaced(k)
    ensures CorePaced(ResetEngine(k))
  {
    hide Tickets, Paced;
    var b := k.books.(streak := 0, accepted := []);
    var pending := Tickets(Pending(k.engine));
    FewerPending(k.books, b, pending, pending, k.engine.forkFailures);
    Forgotten(b, pending, k.engine.forkFailures);
  }

  lemma RollPaced(c: Config, f: Fleet, forkOk: bool)
    requires CorePaced(f.core) && Partition(f.core.books, Pending(f.core.engine))
    ensures CorePaced(RollStep(c, f, forkOk).core)
  {
    hide Tickets, RequestRefill, Partition;
    if f.roll.Rolling? && f.roll.phase.AtTop? {
      if |f.roll.turns| >= |f.roll.targets| {
        RefillPaced(c, f.core, forkOk);
      } else {
        Forgotten(f.core.books, Tickets(Pending(f.core.engine)), f.core.engine.forkFailures);
      }
    }
  }

  lemma StepPaced(c: Config, f: Fleet, e: Event)
    requires CorePaced(f.core) && Partition(f.core.books, Pending(f.core.engine))
    ensures CorePaced(Step(c, f, e).core)
  {
    hide CorePaced, Partition, Wake, Resume, RequestRefill, OnWorkerCrash, RollStep, ResetEngine;
    var k := f.core;
    match e
    case WakeRunner(forkOk) => RunnerPaced(c, k, forkOk);
    case ResumeRunner(forkOk) => RunnerPaced(c, k, forkOk);
    case ResetBreaker(forkOk) =>
      ResetPaced(k);
      ResetAccounts(k);
      RefillPaced(c, ResetEngine(k), forkOk);
    case AdvanceRoll(forkOk) => RollPaced(c, f, forkOk);
    case Exit(w, graceful, forkOk) =>
      var p := Cleanup(k.pool, w);
      var r := k.(pool := p, engine := k.engine.(resetAt := None));
      SamePaced(k, k.(pool := p));
      SamePaced(k, r);
      CrashPaced(c, r, w, w !in f.online, f.online - {w} != {}, forkOk);
    case _ => SamePaced(k, Step(c, f, e).core);
  }

  lemma {:induction false} RunPaced(c: Config, now: int, events: seq<Event>)
    requires ValidConfig(c)
    ensures CorePaced(Run(c, Started(c, now), events).core)
  {
    hide Step;
    if events == [] {
      NoTickets();
    } else {
      var init := events[..|events| - 1];
      RunPaced(c, now, init);
      RunAccounts(c, now, init);
      StepPaced(c, Run(c, Started(c, now), init), events[|events| - 1]);
    }
  }

  /**
   * On every run, a restart fails to fork at most three times before something
   * else forks or the breaker is reset, and at most twice if it is still pending
   * then; so in total at most three times and two for each time the failures
   * were forgotten.
   */
  lemma {:induction false} FailuresPerRestart(c: Config, now: int, events: seq<Event>, t: nat)
    requires ValidConfig(c)
    ensures var k := Run(c, Started(c, now), events).core; var b := k.books;
            && b.since[t] <= 3
            && (Holds(Pending(k.engine), t) ==> b.since[t] <= 2)
            && b.failed[t] <= 3 + 2 * b.resets
            && (Holds(Pending(k.engine), t) ==> b.failed[t] <= 2 + 2 * b.resets)
  {
    hide Run, Started;
    RunPaced(c, now, events);
    HoldsIffTicket(Pending(Run(c, Started(c, now), events).core.engine), t);
  }

  // ------------------------------------------------------ which failure ends it

  /**
   * Any ticket whose failures rise from `k` to `r` failed once, with `count`
   * failures in a row before. It is given up if that makes three, and is pending
   * again if not.
   */
  ghost predicate FailsRight(k: Core, r: Core, count: nat) {
    forall t: nat | r.books.failed[t] != k.books.failed[t] ::
      && r.books.failed[t] == k.books.failed[t] + 1
      && (t in r.books.ledger && r.books.ledger[t] == ByGiveUp <==> count + 1 >= MAX_CONSECUTIVE_FORK_FAILURES)
      && (Holds(Pending(r.engine), t) <==> count + 1 < MAX_CONSECUTIVE_FORK_FAILURES)
  }

  /** Only the ticket of the attempt can fail in it. */
  lemma AttemptFailsRight(c: Config, k: Core, e: Entry, delayMs: real, streak: nat, forkOk: bool)
    requires Partition(k.books, [e] + k.engine.queue)
    ensures FailsRight(k, Attempt(c, k, e, delayMs, streak, forkOk), k.engine.forkFailures)
  {
    hide Tripped, NextBackoff, Fork;
    var queue, r := k.engine.queue, Attempt(c, k, e, delayMs, streak, forkOk);
    TicketsOfRest(e, queue);
    HoldsIffTicket(Pending(r.engine), e.ticket);
    NoTickets();
  }

  /** The same failures before, and the rest of the books does not matter. */
  lemma FailsRightFrom(k: Core, s: Core, r: Core, count: nat)
    requires s.books.failed == k.books.failed && FailsRight(s, r, count)
    ensures FailsRight(k, r, count)
  {
  }

  lemma LoopFailsRight(c: Config, k: Core, forkOk: bool)
    requires Partition(k.books, Pending(k.engine)) && !k.engine.runner.Parked?
    ensures FailsRight(k, Loop(c, k, forkOk), k.engine.forkFailures)
  {
    hide Tickets, Tripped, Settle, Attempt, Partition;
    var queue := k.engine.queue;
    if queue != [] {
      assert [queue[0]] + queue[1..] == queue;
      var rest := k.(engine := k.engine.(queue := queue[1..]));
      AttemptFailsRight(c, rest, queue[0], Wait(c, rest.engine), rest.books.streak, forkOk);
    }
  }

  lemma RunnerFailsRight(c: Config, k: Core, forkOk: bool)
    requires Partition(k.books, Pending(k.engine))
    ensures FailsRight(k, Wake(c, k, forkOk), k.engine.forkFailures)
    ensures FailsRight(k, Resume(c, k, forkOk), k.engine.forkFailures)
    ensures FailsRight(k, Kick(c, k, forkOk), k.engine.forkFailures)
  {
    hide Tickets, Loop, Settle, Attempt, Partition, Holds;
    if k.engine.runner.Parked? {
      AttemptFailsRight(c, k, k.engine.runner.entry, k.engine.runner.delayMs, k.books.parkedStreak, forkOk);
    } else {
      LoopFailsRight(c, k, forkOk);
    }
  }

  lemma RefillFailsRight(c: Config, k: Core, forkOk: bool)
    requires Partition(k.books, Pending(k.engine))
    ensures FailsRight(k, RequestRefill(c, k, forkOk), k.engine.forkFailures)
  {
    hide FailsRight, Kick, Partition, EnqueueRefills;
    var count := Max(0, c.workers.count - k.pool.active);
    var q := EnqueueRefills(k, count);
    EnqueueRefillsAccounts(k, count);
    EnqueueRefillsKeeps(k, count);
    RunnerFailsRight(c, q, forkOk);
    FailsRightFrom(k, q, RequestRefill(c, k, forkOk), k.engine.forkFailures);
  }

  lemma CrashFailsRight(c: Config, k: Core, w: int, bootFailed: bool, hasOnline: bool, forkOk: bool)
    requires Partition(k.books, Pending(k.engine))
    ensures FailsRight(k, OnWorkerCrash(c, k, w, bootFailed, hasOnline, forkOk), k.engine.forkFailures)
  {
    hide FailsRight, Kick, Partition, Tripped, Quarantines, Counted;
    var r, done := RecordCrash(c, k, bootFailed, hasOnline), OnWorkerCrash(c, k, w, bootFailed, hasOnline, forkOk);
    if Quarantines(c, k.engine, bootFailed, hasOnline) || Tripped(c, r) {
      NoneFailed(k, done, k.engine.forkFailures);
    } else {
      SamePartition(k.books, r.books, Pending(k.engine));
      AcceptAccounts(r, w);
      RunnerFailsRight(c, AcceptCrash(r, w), forkOk);
      FailsRightFrom(k, AcceptCrash(r, w), done, k.engine.forkFailures);
    }
  }

  lemma NoneFailed(k: Core, r: Core, count: nat)
    requires r.books.failed == k.books.failed
    ensures FailsRight(k, r, count)
  {
  }

  /** The failures in a row that an attempt made by the event would find. */
  function OnCount(f: Fleet, e: Event): nat {
    if e.ResetBreaker? then 0 else f.core.engine.forkFailures
  }

  lemma StepFailsRight(c: Config, f: Fleet, e: Event)
    requires Partition(f.core.books, Pending(f.core.engine))
    ensures FailsRight(f.core, Step(c, f, e).core, OnCount(f, e))
  {
    hide FailsRight, Partition, Wake, Resume, RequestRefill, OnWorkerCrash, RollStep, ResetEngine;
    var k := f.core;
    match e
    case WakeRunner(forkOk) => RunnerFailsRight(c, k, forkOk);
    case ResumeRunner(forkOk) => RunnerFailsRight(c, k, forkOk);
    case ResetBreaker(forkOk) =>
      ResetAccounts(k);
      ResetForgetsAll(k);
      NoneFailed(k, ResetEngine(k), 0);
      RefillFailsRight(c, ResetEngine(k), forkOk);
      FailsRightFrom(k, ResetEngine(k), RequestRefill(c, ResetEngine(k), forkOk), 0);
    case AdvanceRoll(forkOk) => RollFailsRight(c, f, forkOk);
    case Exit(w, graceful, forkOk) =>
      var r := k.(pool := Cleanup(k.pool, w), engine := k.engine.(resetAt := None));
      NoneFailed(k, k.(pool := Cleanup(k.pool, w)), k.engine.forkFailures);
      NoneFailed(k, k, k.engine.forkFailures);
      CrashFailsRight(c, r, w, w !in f.online, f.online - {w} != {}, forkOk);
      FailsRightFrom(k, r, OnWorkerCrash(c, r, w, w !in f.online, f.online - {w} != {}, forkOk), k.engine.forkFailures);
    case _ => NoneFailed(k, Step(c, f, e).core, k.engine.forkFailures);
  }

  lemma ResetForgetsAll(k: Core)
    ensures ResetEngine(k).engine.forkFailures == 0 && ResetEngine(k).books.failed == k.books.failed
  {
  }

  lemma RollFailsRight(c: Config, f: Fleet, forkOk: bool)
    requires Partition(f.core.books, Pending(f.core.engine))
    ensures FailsRight(f.core, RollStep(c, f, forkOk).core, f.core.engine.forkFailures)
  {
    hide FailsRight, RequestRefill, Partition;
    RefillFailsRight(c, f.core, forkOk);
    var r := RollStep(c, f, forkOk).core;
    if r.books.failed == f.core.books.failed {
      NoneFailed(f.core, r, f.core.engine.forkFailures);
    }
  }

  /**
   * Whatever attempts it, after a wait or straight from the loop: on every run a
   * failed fork gives its restart up exactly if two failures in a row were on
   * count, whosever they were, and leaves it pending otherwise.
   */
  lemma {:induction false} FailureGivesUpIff(c: Config, now: int, events: seq<Event>, e: Event, t: nat)
    requires ValidConfig(c)
    ensures var f := Run(c, Started(c, now), events); var r := Step(c, f, e).core;
            r.books.failed[t] != f.core.books.failed[t] ==>
              && r.books.failed[t] == f.core.books.failed[t] + 1
              && (t in r.books.ledger && r.books.ledger[t] == ByGiveUp <==> OnCount(f, e) >= 2)
              && (Holds(Pending(r.engine), t) <==> OnCount(f, e) < 2)
  {
    hide Run, Started, Step, Holds, Partition;
    RunAccounts(c, now, events);
    StepFailsRight(c, Run(c, Started(c, now), events), e);
  }

  /**
   * So a restart's third failed fork ends it exactly if two failures were on
   * count. If it does not, the failures were forgotten since its first.
   */
  lemma {:induction false} ThirdFailureEndsItIff(c: Config, now: int, events: seq<Event>, e: Event, t: nat)
    requires ValidConfig(c)
    requires var f := Run(c, Started(c, now), events);
             f.core.books.failed[t] == 2 && Step(c, f, e).core.books.failed[t] == 3
    ensures var f := Run(c, Started(c, now), events); var r := Step(c, f, e).core;
            && (t in r.books.ledger && r.books.ledger[t] == ByGiveUp <==> OnCount(f, e) >= 2)
            && (OnCount(f, e) < 2 ==>
                  Holds(Pending(r.engine), t) && r.books.since[t] < r.books.failed[t] && r.books.resets > 0)
  {
    hide Run, Started, Step, Holds, Partition, Tickets;
    FailureGivesUpIff(c, now, events, e, t);
    RunPaced(c, now, events);
    RunAccounts(c, now, events);
    var f := Run(c, Started(c, now), events);
    StepPaced(c, f, e);
    HoldsIffTicket(Pending(Step(c, f, e).core.engine), t);
  }

  /** A breaker reset, or a fork that is not a recycle's. */
  ghost predicate Forgets(f: Fleet, e: Event, r: Core) {
    e.ResetBreaker? || (r.pool.nextId > f.core.pool.nextId && !e.Recycle? && !e.StaggerFires?)
  }

  /** Failures on count are forgotten exactly by a breaker reset and by every fork that is not a recycle's. */
  lemma ForgottenIff(c: Config, f: Fleet, e: Event)
    ensures var r := Step(c, f, e).core;
            r.books.resets > f.core.books.resets <==> f.core.books.since != multiset{} && Forgets(f, e, r)
  {
    hide Wake, Resume, OnExit, OnResetBreaker, RollStep;
    match e
    case WakeRunner(forkOk) => RunnerForgets(c, f.core, forkOk);
    case ResumeRunner(forkOk) => RunnerForgets(c, f.core, forkOk);
    case Exit(w, graceful, forkOk) => ExitForgets(c, f, w, graceful, forkOk);
    case ResetBreaker(forkOk) => ResetForgets(c, f, forkOk);
    case AdvanceRoll(forkOk) => RollForgets(c, f, forkOk);
    case _ =>
  }

  lemma ExitForgets(c: Config, f: Fleet, w: int, graceful: bool, forkOk: bool)
    ensures ForgetsByFork(f.core, OnExit(c, f, w, graceful, forkOk).core)
  {
    hide Kick, Tripped, Quarantines, NoteBootFailure;
    var x := f.core.(pool := Cleanup(f.core.pool, w), engine := f.core.engine.(resetAt := None));
    RunnerForgets(c, AcceptCrash(RecordCrash(c, x, w !in f.online, f.online - {w} != {}), w), forkOk);
  }

  lemma RefillForgets(c: Config, k: Core, forkOk: bool)
    ensures ForgetsByFork(k, RequestRefill(c, k, forkOk))
  {
    hide Kick, EnqueueRefills;
    var count := Max(0, c.workers.count - k.pool.active);
    EnqueueRefillsKeeps(k, count);
    RunnerForgets(c, EnqueueRefills(k, count), forkOk);
  }

  lemma ResetForgets(c: Config, f: Fleet, forkOk: bool)
    ensures OnResetBreaker(c, f, forkOk).core.books.resets > f.core.books.resets <==> f.core.books.since != multiset{}
  {
    hide RequestRefill;
    RefillForgets(c, ResetEngine(f.core), forkOk);
  }

  lemma RollForgets(c: Config, f: Fleet, forkOk: bool)
    ensures ForgetsByFork(f.core, RollStep(c, f, forkOk).core)
  {
    hide RequestRefill;
    RefillForgets(c, f.core, forkOk);
  }

  /** The restart loop forgets failures exactly when it forks. */
  ghost predicate ForgetsByFork(k: Core, r: Core) {
    && k.pool.nextId <= r.pool.nextId
    && r.books.resets
       == k.books.resets + (if r.pool.nextId > k.pool.nextId && k.books.since != multiset{} then 1 else 0)
  }

  lemma AttemptForgets(c: Config, k: Core, e: Entry, delayMs: real, streak: nat, forkOk: bool)
    ensures ForgetsByFork(k, Attempt(c, k, e, delayMs, streak, forkOk))
  {
  }

  lemma RunnerForgets(c: Config, k: Core, forkOk: bool)
    ensures ForgetsByFork(k, Wake(c, k, forkOk)) && ForgetsByFork(k, Resume(c, k, forkOk))
    ensures ForgetsByFork(k, Kick(c, k, forkOk))
  {
    hide Attempt, Tripped, Settle;
    var queue := k.engine.queue;
    if k.engine.runner.Parked? {
      AttemptForgets(c, k, k.engine.runner.entry, k.engine.runner.delayMs, k.books.parkedStreak, forkOk);
    } else if queue != [] {
      var rest := k.(engine := k.engine.(queue := queue[1..]));
      AttemptForgets(c, rest, queue[0], Wait(c, rest.engine), rest.books.streak, forkOk);
    }
  }
}
