/**
 * Capacity accounting over every run: each crash and refill has exactly one
 * fate, and no capacity disappears without one.
 */
module FleetCapacity {
  import opened Wrappers
  import opened Config
  import opened CrashTracking
  import opened FleetModel
  import opened FleetSafety

  /** Restarts that still have to happen: the one in its backoff wait, then the queue. */
  function Pending(g: Engine): seq<Entry> {
    if g.runner.Parked? then [g.runner.entry] + g.queue else g.queue
  }

  /** Fates that leave the fleet smaller. */
  predicate IsLoss(o: Outcome) {
    o.RejectedByTrip? || o.ByBreaker? || o.ByShutdown? || o.ByGiveUp?
  }

  function Lost(ledger: map<nat, Outcome>): set<nat> {
    set t | t in ledger && IsLoss(ledger[t])
  }

  /** Every ticket issued is either pending, once, or has its fate in the ledger; never both. */
  ghost predicate Partition(b: Books, pending: seq<Entry>) {
    && |Tickets(pending)| == |pending|
    && (forall t | t in Tickets(pending) :: t < b.issued && t !in b.ledger)
    && (forall t | t in b.ledger :: t < b.issued)
    && (forall t: nat | t < b.issued :: t in b.ledger || t in Tickets(pending))
  }

  lemma TicketsConcat(a: seq<Entry>, b: seq<Entry>)
    ensures Tickets(a + b) == Tickets(a) + Tickets(b)
  {
    forall t | t in Tickets(a) + Tickets(b)
      ensures t in Tickets(a + b)
    {
      if t in Tickets(a) {
        var e :| e in a && e.ticket == t;
        assert e in a + b;
      } else {
        var e :| e in b && e.ticket == t;
        assert e in a + b;
      }
    }
  }

  lemma TicketsSplit(a: seq<Entry>, b: seq<Entry>)
    ensures Tickets(a + b) == Tickets(a) + Tickets(b)
    ensures |Tickets(a)| <= |a|
    ensures |Tickets(a + b)| == |a + b| ==>
              |Tickets(a)| == |a| && |Tickets(b)| == |b| && Tickets(a) !! Tickets(b)
    ensures |Tickets(a)| == |a| && |Tickets(b)| == |b| && Tickets(a) !! Tickets(b) ==>
              |Tickets(a + b)| == |a + b|
  {
    TicketsConcat(a, b);
    AtMostOneTicketEach(a);
    AtMostOneTicketEach(b);
    UnionSize(Tickets(a), Tickets(b));
  }

  lemma UnionSize(a: set<nat>, b: set<nat>)
    ensures |a + b| == |a| + |b| - |a * b|
    ensures |a * b| == 0 <==> a !! b
  {
    if a !! b {
      assert a * b == {};
    } else {
      var t :| t in a && t in b;
      assert t in a * b;
    }
  }

  lemma {:induction false} AtMostOneTicketEach(a: seq<Entry>)
    ensures |Tickets(a)| <= |a|
  {
    if a == [] {
      assert Tickets(a) == {};
    } else {
      var init, last := a[..|a| - 1], a[|a| - 1];
      AtMostOneTicketEach(init);
      assert Tickets(a) == Tickets(init) + {last.ticket} by {
        assert forall e :: e in a <==> e in init || e == last;
      }
    }
  }

  /** Settling pending tickets moves them into the ledger and changes no other fate. */
  lemma SettleKeeps(b: Books, first: seq<Entry>, rest: seq<Entry>, o: Outcome)
    requires Partition(b, first + rest)
    ensures var r := Settle(b, first, o);
            && Partition(r, rest)
            && |Lost(r.ledger)| == |Lost(b.ledger)| + (if IsLoss(o) then |first| else 0)
            && Extends(b, r)
  {
    TicketsSplit(first, rest);
    SettleCounts(b, Tickets(first), o);
  }

  lemma SettleCounts(b: Books, tickets: set<nat>, o: Outcome)
    requires forall t | t in tickets :: t !in b.ledger
    ensures var r := b.(ledger := b.ledger + map t | t in tickets :: o);
            |Lost(r.ledger)| == |Lost(b.ledger)| + (if IsLoss(o) then |tickets| else 0)
  {
    var r := b.(ledger := b.ledger + map t | t in tickets :: o);
    if IsLoss(o) {
      assert Lost(r.ledger) == Lost(b.ledger) + tickets;
      UnionSize(Lost(b.ledger), tickets);
    } else {
      assert Lost(r.ledger) == Lost(b.ledger);
    }
  }

  /** Fates are final. */
  ghost predicate Extends(b: Books, r: Books) {
    && b.issued <= r.issued
    && forall t | t in b.ledger :: t in r.ledger && r.ledger[t] == b.ledger[t]
  }

  /** A new ticket joins the end of the queue. */
  lemma EnqueueKeeps(b: Books, pending: seq<Entry>, e: Entry)
    requires Partition(b, pending) && e.ticket == b.issued
    ensures Partition(b.(issued := b.issued + 1), pending + [e])
  {
    OneTicket(e);
    TicketsSplit(pending, [e]);
  }

  lemma OneTicket(e: Entry)
    ensures Tickets([e]) == {e.ticket}
  {
    assert e in [e];
  }

  /** A new ticket meets its fate at once. */
  lemma IssueKeeps(b: Books, pending: seq<Entry>, o: Outcome)
    requires Partition(b, pending)
    ensures var r := Issue(b, o);
            && Partition(r, pending) && Extends(b, r)
            && |Lost(r.ledger)| == |Lost(b.ledger)| + (if IsLoss(o) then 1 else 0)
  {
    var one := {b.issued};
    SettleCounts(b, one, o);
    assert Issue(b, o).ledger == b.ledger + map t | t in one :: o;
  }

  /** Capacity in place or on its way, plus every recorded loss, with `pending` restarts. */
  function CoverageOf(k: Core, pending: int): int {
    Serving(k.pool) + |k.pool.staged| + pending + k.engine.quarantined + k.books.forgotten + |Lost(k.books.ledger)|
  }

  function Coverage(k: Core): int {
    CoverageOf(k, |Pending(k.engine)|)
  }

  /** From a state whose coverage is `before`, nothing uncovered appears below the target. */
  ghost predicate Accounts(c: Config, b: Books, before: int, r: Core) {
    && PoolOk(r.pool)
    && Partition(r.books, Pending(r.engine))
    && Extends(b, r.books)
    && Coverage(r) >= Min(before, c.workers.count)
  }

  lemma FailureAccounts(c: Config, k: Core, e: Entry, delayMs: real, streak: nat)
    requires PoolOk(k.pool) && Partition(k.books, [e] + k.engine.queue) && !Tripped(c, k)
    ensures Accounts(c, k.books, CoverageOf(k, 1 + |k.engine.queue|), Attempt(c, k, e, delayMs, streak, false))
  {
    hide Tickets, Lost, Tripped, NextBackoff, PoolOk, Serving, Fork, Settle;
    var queue := k.engine.queue;
    var b := k.books.(attempts := k.books.attempts + 1);
    if k.engine.forkFailures + 1 >= MAX_CONSECUTIVE_FORK_FAILURES {
      assert [e] + queue + [] == [e] + queue;
      SettleKeeps(NoteFailure(b, e.ticket), [e] + queue, [], ByGiveUp);
    } else {
      RequeueKeeps(k.books, e, queue);
    }
  }

  lemma AttemptAccounts(c: Config, k: Core, e: Entry, delayMs: real, streak: nat, forkOk: bool)
    requires PoolOk(k.pool) && Partition(k.books, [e] + k.engine.queue)
    ensures Accounts(c, k.books, CoverageOf(k, 1 + |k.engine.queue|),
                     Attempt(c, k, e, delayMs, streak, forkOk))
  {
    hide Tickets, Lost, Tripped, NextBackoff, PoolOk, Serving, Fork, Settle;
    var queue := k.engine.queue;
    var b := k.books.(attempts := k.books.attempts + 1);
    if Tripped(c, k) {
      SettleKeeps(k.books, [e], queue, ByBreaker);
    } else if forkOk {
      SettleKeeps(ForgetFailures(b.(streak := streak + 1)), [e], queue, Restarted);
      ForkServes(k.pool, k.now);
    } else {
      hide Attempt, Accounts;
      FailureAccounts(c, k, e, delayMs, streak);
    }
  }

  /** A failed fork puts its entry back at the end of the queue. */
  lemma RequeueKeeps(b: Books, e: Entry, queue: seq<Entry>)
    requires Partition(b, [e] + queue)
    ensures Partition(b, queue + [e])
  {
    TicketsSplit([e], queue);
    TicketsSplit(queue, [e]);
  }

  lemma LoopAccounts(c: Config, k: Core, forkOk: bool)
    requires PoolOk(k.pool) && Partition(k.books, k.engine.queue) && !k.engine.runner.Parked?
    ensures Accounts(c, k.books, Coverage(k), Loop(c, k, forkOk))
  {
    hide Tickets, Lost, Tripped, Settle, Attempt;
    var queue := k.engine.queue;
    assert queue + [] == queue;
    if queue == [] {
    } else if k.shuttingDown {
      SettleKeeps(k.books, queue, [], ByShutdown);
    } else if Tripped(c, k) {
      SettleKeeps(k.books, queue, [], ByBreaker);
    } else if Settled(k.pool) >= c.workers.count {
      SettleKeeps(k.books, queue, [], AtCapacity);
    } else {
      var rest := k.(engine := k.engine.(queue := queue[1..]));
      assert [queue[0]] + queue[1..] == queue;
      if Wait(c, rest.engine) <= 0.0 {
        AttemptAccounts(c, rest, queue[0], Wait(c, rest.engine), rest.books.streak, forkOk);
      }
    }
  }

  lemma KickAccounts(c: Config, k: Core, forkOk: bool)
    requires PoolOk(k.pool) && Partition(k.books, Pending(k.engine))
    ensures Accounts(c, k.books, Coverage(k), Kick(c, k, forkOk))
  {
    if k.engine.runner.Idle? {
      LoopAccounts(c, k, forkOk);
    }
  }

  lemma RunnerAccounts(c: Config, k: Core, forkOk: bool)
    requires PoolOk(k.pool) && Partition(k.books, Pending(k.engine))
    ensures Accounts(c, k.books, Coverage(k), Wake(c, k, forkOk))
    ensures Accounts(c, k.books, Coverage(k), Resume(c, k, forkOk))
  {
    if k.engine.runner.Parked? {
      var e := k.engine.runner.entry;
      if k.shuttingDown {
        SettleKeeps(k.books, [e], k.engine.queue, ByShutdown);
      } else {
        AttemptAccounts(c, k, e, k.engine.runner.delayMs, k.books.parkedStreak, forkOk);
      }
    }
    if k.engine.runner.Looping? {
      LoopAccounts(c, k, forkOk);
    }
  }

  lemma EnqueueAccounts(k: Core, e: Entry)
    requires Partition(k.books, Pending(k.engine)) && e.ticket == k.books.issued
    ensures var r := Enqueue(k, e);
            && Partition(r.books, Pending(r.engine)) && Extends(k.books, r.books)
            && Coverage(r) == Coverage(k) + 1
  {
    var r := Enqueue(k, e);
    assert Pending(r.engine) == Pending(k.engine) + [e];
    EnqueueKeeps(k.books, Pending(k.engine), e);
  }

  lemma AcceptAccounts(k: Core, w: int)
    requires Partition(k.books, Pending(k.engine))
    ensures var r := AcceptCrash(k, w);
            && Partition(r.books, Pending(r.engine)) && Extends(k.books, r.books)
            && Coverage(r) == Coverage(k) + 1 && r.pool == k.pool && r.books.issued == k.books.issued + 1
  {
    hide Tickets, Lost, Serving;
    EnqueueAccounts(k.(books := k.books.(accepted := k.books.accepted + [k.now])), Crash(k.books.issued, w));
  }

  lemma {:induction false} EnqueueRefillsAccounts(k: Core, count: nat)
    requires Partition(k.books, Pending(k.engine))
    ensures var r := EnqueueRefills(k, count);
            && Partition(r.books, Pending(r.engine)) && Extends(k.books, r.books)
            && Coverage(r) == Coverage(k) + count
  {
    hide Partition, Coverage;
    if count > 0 {
      EnqueueRefillsAccounts(k, count - 1);
      var rest := EnqueueRefills(k, count - 1);
      EnqueueAccounts(rest, Refill(rest.books.issued));
    }
  }

  lemma RefillAccounts(c: Config, k: Core, forkOk: bool)
    requires PoolOk(k.pool) && Partition(k.books, Pending(k.engine))
    ensures Accounts(c, k.books, Coverage(k) + Max(0, c.workers.count - k.pool.active),
                     RequestRefill(c, k, forkOk))
  {
    hide Tickets, Lost, Partition, PoolOk, Coverage, Kick, EnqueueRefills;
    var count := Max(0, c.workers.count - k.pool.active);
    EnqueueRefillsKeeps(k, count);
    EnqueueRefillsAccounts(k, count);
    KickAccounts(c, EnqueueRefills(k, count), forkOk);
  }

  /** A crash is covered by its own ticket: one more than the fleet had left. */
  lemma CrashAccounts(c: Config, k: Core, w: int, bootFailed: bool, hasOnline: bool, forkOk: bool)
    requires PoolOk(k.pool) && Partition(k.books, Pending(k.engine))
    ensures var r := OnWorkerCrash(c, k, w, bootFailed, hasOnline, forkOk);
            Accounts(c, k.books, Coverage(k) + 1, r) && r.books.issued == k.books.issued + 1
  {
    hide Tickets, Lost, Tripped, PoolOk, Serving, Kick;
    if Quarantines(c, k.engine, bootFailed, hasOnline) {
      IssueKeeps(k.books, Pending(k.engine), Quarantined);
    } else {
      var r := RecordCrash(c, k, bootFailed, hasOnline);
      if Tripped(c, r) {
        IssueKeeps(k.books, Pending(k.engine), RejectedByTrip);
      } else {
        var q := AcceptCrash(r, w);
        AcceptAccounts(r, w);
        KickAccounts(c, q, forkOk);
        KickIssuesNothing(c, q, forkOk);
      }
    }
  }

  lemma KickIssuesNothing(c: Config, k: Core, forkOk: bool)
    ensures Kick(c, k, forkOk).books.issued == k.books.issued
  {
  }

  // ------------------------------------------------------------ whole fleet

  /** `lostExits` counts exits that nothing was asked to replace: unreplaced graceful ones, and any during shutdown. */
  ghost predicate Accounted(c: Config, f: Fleet) {
    && PoolOk(f.core.pool)
    && Partition(f.core.books, Pending(f.core.engine))
    && c.workers.count <= Coverage(f.core) + f.lostExits
  }

  lemma ExitAccounts(c: Config, f: Fleet, w: int, graceful: bool, forkOk: bool)
    requires Accounted(c, f)
    ensures Accounted(c, OnExit(c, f, w, graceful, forkOk))
    ensures Extends(f.core.books, OnExit(c, f, w, graceful, forkOk).core.books)
  {
    if w in Live(f) {
      CleanupServes(f.core.pool, w);
      var k := f.core.(pool := Cleanup(f.core.pool, w));
      var r := k.(engine := k.engine.(resetAt := None));
      assert Coverage(r) + 1 + f.lostExits >= c.workers.count by {
        StagedIsMarked(f.core.pool, w);
      }
      if !f.core.shuttingDown && !graceful {
        CrashAccounts(c, r, w, w !in f.online, f.online - {w} != {}, forkOk);
      }
    }
  }

  lemma StagedIsMarked(p: Pool, w: int)
    requires PoolOk(p)
    ensures w in p.staged ==> w in p.marks
  {
  }

  lemma RollAccounts(c: Config, f: Fleet, forkOk: bool)
    requires Accounted(c, f)
    ensures Accounted(c, RollStep(c, f, forkOk))
    ensures Extends(f.core.books, RollStep(c, f, forkOk).core.books)
  {
    hide RequestRefill, Serving, Tickets, Lost;
    if f.roll.Rolling? && f.roll.phase.AtTop? {
      var r := f.roll;
      if |r.turns| >= |r.targets| {
        RefillAccounts(c, f.core, forkOk);
      } else {
        var w := r.targets[|r.turns|];
        if w in Live(f) {
          ForkServes(f.core.pool, f.core.now);
          MarkServes(Fork(f.core.pool, f.core.now), w);
        }
      }
    }
  }

  lemma RecycleAccounts(c: Config, f: Fleet, w: int, forkOk: bool)
    requires Accounted(c, f)
    ensures var r := OnRecycle(f, w, forkOk); Accounted(c, r) && r.core.books == f.core.books
  {
    var p := f.core.pool;
    if w in p.started {
      MarkServes(p, w);
      ForkServes(Mark(p, w), f.core.now);
    }
  }

  lemma StaggerAccounts(c: Config, f: Fleet, w: int, forkOk: bool)
    requires Accounted(c, f)
    ensures var r := OnStaggerFires(c, f, w, forkOk); Accounted(c, r) && r.core.books == f.core.books
  {
    var p := f.core.pool;
    if w in p.staged {
      var q := p.(staged := p.staged - {w});
      assert |q.staged| == |p.staged| - 1;
      ForkServes(q, f.core.now);
      UnmarkServes(q, w);
    }
  }

  lemma SweepAccounts(c: Config, f: Fleet)
    requires Accounted(c, f)
    ensures Accounted(c, OnSweep(c, f)) && OnSweep(c, f).core.books == f.core.books
  {
    var p := f.core.pool;
    var aged := Aged(c, f.core);
    assert p.marks !! aged;
    assert p.staged !! aged;
    assert |p.marks + aged| == |p.marks| + |aged|;
    assert |p.staged + aged| == |p.staged| + |aged|;
  }

  lemma ShutdownAccounts(c: Config, f: Fleet)
    requires Accounted(c, f)
    ensures Accounted(c, OnShutdown(f)) && OnShutdown(f).core.books == f.core.books
  {
    CardinalityMonotone(f.core.pool.staged, f.core.pool.marks);
  }

  lemma StepAccounts(c: Config, f: Fleet, e: Event)
    requires Accounted(c, f)
    ensures Accounted(c, Step(c, f, e))
    ensures Extends(f.core.books, Step(c, f, e).core.books)
  {
    hide Accounted, Extends;
    hide OnExit, RollStep, OnRecycle, OnSweep, OnStaggerFires, OnShutdown, OnResetBreaker;
    SameBooks(f, f);
    match e
    case Exit(w, graceful, forkOk) => ExitAccounts(c, f, w, graceful, forkOk);
    case Recycle(w, forkOk) => RecycleAccounts(c, f, w, forkOk);
    case Sweep => SweepAccounts(c, f);
    case StaggerFires(w, forkOk) => StaggerAccounts(c, f, w, forkOk);
    case AdvanceRoll(forkOk) => RollAccounts(c, f, forkOk);
    case BeginShutdown => ShutdownAccounts(c, f);
    case _ => EngineEventAccounts(c, f, e);
  }

  lemma SameBooks(f: Fleet, r: Fleet)
    ensures r.core.books == f.core.books ==> Extends(f.core.books, r.core.books)
  {
  }

  /** The events that only concern the restart engine or the clock. */
  lemma EngineEventAccounts(c: Config, f: Fleet, e: Event)
    requires Accounted(c, f)
    requires e.Tick? || e.Online? || e.WakeRunner? || e.ResumeRunner? || e.Stable? || e.ResetBreaker?
             || e.RestartWorkers?
    ensures Accounted(c, Step(c, f, e))
    ensures Extends(f.core.books, Step(c, f, e).core.books)
  {
    hide Tickets, Lost, Serving, PoolOk, Wake, Resume, RequestRefill, ResetEngine;
    hide OnExit, RollStep, OnRecycle, OnSweep, OnStaggerFires, OnShutdown, OnOnline, OnStable, OnRestartWorkers;
    match e
    case WakeRunner(forkOk) => RunnerAccounts(c, f.core, forkOk);
    case ResumeRunner(forkOk) => RunnerAccounts(c, f.core, forkOk);
    case ResetBreaker(forkOk) =>
      ResetAccounts(f.core);
      RefillAccounts(c, ResetEngine(f.core), forkOk);
    case Online(w) => OnlineAccounts(c, f, w);
    case Stable => StableAccounts(f.core);
    case RestartWorkers(targets, staggerMs) => RestartAccounts(c, f, targets, staggerMs);
    case _ =>
  }

  lemma OnlineAccounts(c: Config, f: Fleet, w: int)
    requires Accounted(c, f)
    ensures Accounted(c, OnOnline(c, f, w)) && Extends(f.core.books, OnOnline(c, f, w).core.books)
  {
    hide Tickets, Lost, Serving, PoolOk;
  }

  lemma StableAccounts(k: Core)
    requires Partition(k.books, Pending(k.engine))
    ensures var r := OnStable(k);
            && Partition(r.books, Pending(r.engine)) && Extends(k.books, r.books)
            && Coverage(r) == Coverage(k) && r.pool == k.pool
  {
    hide Tickets, Lost, Serving;
  }

  lemma RestartAccounts(c: Config, f: Fleet, targets: seq<int>, staggerMs: int)
    requires Accounted(c, f)
    ensures var r := OnRestartWorkers(f, targets, staggerMs); Accounted(c, r) && Extends(f.core.books, r.core.books)
  {
    hide Tickets, Lost, Serving, PoolOk;
  }

  lemma ResetAccounts(k: Core)
    requires Partition(k.books, Pending(k.engine))
    ensures var r := ResetEngine(k);
            && Partition(r.books, Pending(r.engine)) && Extends(k.books, r.books)
            && Coverage(r) == Coverage(k) && r.pool == k.pool
  {
  }

  lemma {:induction false} RunAccounts(c: Config, now: int, events: seq<Event>)
    requires ValidConfig(c)
    ensures Accounted(c, Run(c, Started(c, now), events))
  {
    if events == [] {
      ForkManyServes(Pool(map[], 1, {}, {}, 0), now, c.workers.count);
      assert Tickets([]) == {};
    } else {
      RunAccounts(c, now, events[..|events| - 1]);
      StepAccounts(c, Run(c, Started(c, now), events[..|events| - 1]), events[|events| - 1]);
    }
  }

  /**
   * No lost capacity: on every run, what serves, what a staggered recycle will
   * still replace, what is queued or in its backoff wait and what is quarantined
   * reach the target, up to losses that each have a recorded cause.
   */
  lemma NoLostCapacity(c: Config, now: int, events: seq<Event>)
    requires ValidConfig(c)
    ensures var f := Run(c, Started(c, now), events);
            && var k := f.core;
            c.workers.count <=
              Serving(k.pool) + |k.pool.staged| + |Pending(k.engine)| + k.engine.quarantined
              + |Lost(k.books.ledger)| + k.books.forgotten + f.lostExits
  {
    RunAccounts(c, now, events);
  }

  /**
   * Nothing that may shrink the fleet for good: no shutdown, no hot restart over
   * quarantined slots, and no graceful exit of a worker without a replacement.
   */
  ghost predicate KeepsCapacity(f: Fleet, e: Event) {
    && !e.BeginShutdown?
    && (e.RestartWorkers? ==> f.core.engine.quarantined == 0)
    && (e.Exit? && e.graceful && e.w in Live(f) ==> e.w in f.core.pool.marks && e.w !in f.core.pool.staged)
  }

  lemma AttemptForgetsNothing(c: Config, k: Core, e: Entry, delayMs: real, streak: nat, forkOk: bool)
    ensures Attempt(c, k, e, delayMs, streak, forkOk).books.forgotten == k.books.forgotten
  {
  }

  lemma LoopForgetsNothing(c: Config, k: Core, forkOk: bool)
    ensures Loop(c, k, forkOk).books.forgotten == k.books.forgotten
  {
  }

  lemma EngineForgetsNothing(c: Config, k: Core, forkOk: bool)
    ensures Wake(c, k, forkOk).books.forgotten == k.books.forgotten
    ensures Resume(c, k, forkOk).books.forgotten == k.books.forgotten
    ensures Kick(c, k, forkOk).books.forgotten == k.books.forgotten
    ensures RequestRefill(c, k, forkOk).books.forgotten == k.books.forgotten
  {
    hide Loop, Attempt, EnqueueRefills;
    LoopForgetsNothing(c, k, forkOk);
    LoopForgetsNothing(c, EnqueueRefills(k, Max(0, c.workers.count - k.pool.active)), forkOk);
    if k.engine.runner.Parked? {
      AttemptForgetsNothing(c, k, k.engine.runner.entry, k.engine.runner.delayMs, k.books.parkedStreak, forkOk);
    }
    EnqueueRefillsKeeps(k, Max(0, c.workers.count - k.pool.active));
  }

  lemma CrashForgetsNothing(c: Config, k: Core, w: int, bootFailed: bool, hasOnline: bool, forkOk: bool)
    ensures OnWorkerCrash(c, k, w, bootFailed, hasOnline, forkOk).books.forgotten == k.books.forgotten
  {
    hide Kick, Tripped;
    var q := AcceptCrash(RecordCrash(c, k, bootFailed, hasOnline), w);
    EngineForgetsNothing(c, q, forkOk);
  }

  lemma KeepsCapacityStep(c: Config, f: Fleet, e: Event)
    requires !f.core.shuttingDown && KeepsCapacity(f, e)
    ensures var r := Step(c, f, e);
            && !r.core.shuttingDown
            && r.lostExits == f.lostExits && r.core.books.forgotten == f.core.books.forgotten
  {
    hide Wake, Resume, RequestRefill, OnWorkerCrash;
    ShutdownOnlyByRequest(c, f, e);
    match e
    case Exit(w, graceful, forkOk) =>
      var k := f.core.(pool := Cleanup(f.core.pool, w), engine := f.core.engine.(resetAt := None));
      CrashForgetsNothing(c, k, w, w !in f.online, f.online - {w} != {}, forkOk);
    case WakeRunner(forkOk) => EngineForgetsNothing(c, f.core, forkOk);
    case ResumeRunner(forkOk) => EngineForgetsNothing(c, f.core, forkOk);
    case ResetBreaker(forkOk) => EngineForgetsNothing(c, ResetEngine(f.core), forkOk);
    case AdvanceRoll(forkOk) => EngineForgetsNothing(c, f.core, forkOk);
    case _ =>
  }

  /** Until one of those events, nothing is lost outside the ledger. */
  lemma {:induction false} NothingSlipsAway(c: Config, now: int, events: seq<Event>)
    requires ValidConfig(c)
    requires forall i | 0 <= i < |events| :: KeepsCapacity(Run(c, Started(c, now), events[..i]), events[i])
    ensures var f := Run(c, Started(c, now), events);
            !f.core.shuttingDown && f.lostExits == 0 && f.core.books.forgotten == 0
  {
    hide Step, KeepsCapacity;
    if events != [] {
      var n := |events| - 1;
      assert forall i | 0 <= i < n :: events[..n][..i] == events[..i];
      NothingSlipsAway(c, now, events[..n]);
      KeepsCapacityStep(c, Run(c, Started(c, now), events[..n]), events[n]);
    }
  }

  /**
   * Capacity holds until a cause is on record: as long as no entry was rejected
   * by a trip, dropped by the breaker or given up on, the serving workers, the
   * staggered recycles, the pending restarts and the quarantined slots make up
   * the target.
   */
  lemma {:induction false} CapacityHoldsUntilACause(c: Config, now: int, events: seq<Event>)
    requires ValidConfig(c)
    requires forall i | 0 <= i < |events| :: KeepsCapacity(Run(c, Started(c, now), events[..i]), events[i])
    requires Lost(Run(c, Started(c, now), events).core.books.ledger) == {}
    ensures var k := Run(c, Started(c, now), events).core;
            c.workers.count <= Serving(k.pool) + |k.pool.staged| + |Pending(k.engine)| + k.engine.quarantined
  {
    hide Run, Started, Serving, Lost;
    NoLostCapacity(c, now, events);
    NothingSlipsAway(c, now, events);
  }

  /**
   * At rest the fleet is where it should be: with nothing pending, no slot
   * filled blindly while none was free, and no cause for a loss, it serves with
   * the target, less at most the staggered recycles and the quarantined slots.
   */
  lemma {:induction false} AtRestTheTargetServes(c: Config, now: int, events: seq<Event>)
    requires ValidConfig(c) && FillsWithCare(c, Started(c, now), events)
    requires forall i | 0 <= i < |events| :: KeepsCapacity(Run(c, Started(c, now), events[..i]), events[i])
    requires var k := Run(c, Started(c, now), events).core; Lost(k.books.ledger) == {} && Pending(k.engine) == []
    ensures var k := Run(c, Started(c, now), events).core;
            && Serving(k.pool) <= c.workers.count <= Serving(k.pool) + |k.pool.staged| + k.engine.quarantined
            && (k.pool.staged == {} && k.engine.quarantined == 0 ==> Serving(k.pool) == c.workers.count)
  {
    hide Run, Started, Lost, Pending, KeepsCapacity, FillsWithCare;
    NothingSlipsAway(c, now, events);
    CapacityHoldsUntilACause(c, now, events);
    TargetKeptIff(c, now, events);
    assert events[..|events|] == events;
    RunSafe(c, now, events);
  }

  predicate Holds(queue: seq<Entry>, t: nat) {
    exists i :: 0 <= i < |queue| && queue[i].ticket == t
  }

  lemma HoldsIffTicket(queue: seq<Entry>, t: nat)
    ensures Holds(queue, t) <==> t in Tickets(queue)
  {
    if t in Tickets(queue) {
      var e :| e in queue && e.ticket == t;
      var i :| 0 <= i < |queue| && queue[i] == e;
    }
  }

  lemma PartitionPlaces(b: Books, parked: seq<Entry>, queue: seq<Entry>, t: nat)
    requires Partition(b, parked + queue)
    ensures t < b.issued <==> Holds(parked, t) || Holds(queue, t) || t in b.ledger
    ensures !(Holds(parked, t) && Holds(queue, t))
    ensures !(t in b.ledger && (Holds(parked, t) || Holds(queue, t)))
    ensures forall i, j | 0 <= i < j < |queue| :: queue[i].ticket != queue[j].ticket
  {
    TicketsSplit(parked, queue);
    HoldsIffTicket(parked, t);
    HoldsIffTicket(queue, t);
    DistinctTickets(queue);
  }

  lemma DistinctTickets(queue: seq<Entry>)
    requires |Tickets(queue)| == |queue|
    ensures forall i, j | 0 <= i < j < |queue| :: queue[i].ticket != queue[j].ticket
  {
    forall i, j | 0 <= i < j < |queue|
      ensures queue[i].ticket != queue[j].ticket
    {
      assert queue == queue[..j] + queue[j..];
      TicketsSplit(queue[..j], queue[j..]);
      assert queue[..j][i] == queue[i] && queue[j..][0] == queue[j];
      assert queue[i].ticket in Tickets(queue[..j]) && queue[j].ticket in Tickets(queue[j..]);
    }
  }

  /** Each ticket is in exactly one place: the queue, the backoff wait, or the ledger. */
  lemma EveryTicketHasOneFate(c: Config, now: int, events: seq<Event>, t: nat)
    requires ValidConfig(c)
    ensures var k := Run(c, Started(c, now), events).core;
            var queued := Holds(k.engine.queue, t);
            var inFlight := k.engine.runner.Parked? && k.engine.runner.entry.ticket == t;
            && (t < k.books.issued <==> queued || inFlight || t in k.books.ledger)
            && !(queued && inFlight) && !(queued && t in k.books.ledger) && !(inFlight && t in k.books.ledger)
            && (forall i, j | 0 <= i < j < |k.engine.queue| ::
                  k.engine.queue[i].ticket != k.engine.queue[j].ticket)
  {
    hide Partition, Run, Started;
    RunAccounts(c, now, events);
    var k := Run(c, Started(c, now), events).core;
    var g := k.engine;
    if g.runner.Parked? {
      PartitionPlaces(k.books, [g.runner.entry], g.queue, t);
      assert Holds([g.runner.entry], t) <==> g.runner.entry.ticket == t by {
        assert [g.runner.entry][0] == g.runner.entry;
      }
    } else {
      assert [] + g.queue == g.queue;
      PartitionPlaces(k.books, [], g.queue, t);
    }
  }

  /** Outside shutdown every crash draws exactly one ticket, and a fate once given never changes. */
  lemma {:induction false} CrashDrawsOneTicket(c: Config, now: int, events: seq<Event>, w: int, forkOk: bool)
    requires ValidConfig(c)
    requires var f := Run(c, Started(c, now), events); !f.core.shuttingDown && w in Live(f)
    ensures var f := Run(c, Started(c, now), events);
            var r := Step(c, f, Exit(w, false, forkOk));
            r.core.books.issued == f.core.books.issued + 1 && Extends(f.core.books, r.core.books)
  {
    hide Run, Started, Partition, Coverage, OnWorkerCrash;
    RunAccounts(c, now, events);
    var f := Run(c, Started(c, now), events);
    ExitAccounts(c, f, w, false, forkOk);
    CleanupServes(f.core.pool, w);
    var k := f.core.(pool := Cleanup(f.core.pool, w), engine := f.core.engine.(resetAt := None));
    CrashAccounts(c, k, w, w !in f.online, f.online - {w} != {}, forkOk);
  }

  lemma {:induction false} FatesAreFinal(c: Config, now: int, events: seq<Event>, e: Event)
    requires ValidConfig(c)
    ensures var f := Run(c, Started(c, now), events);
            Extends(f.core.books, Step(c, f, e).core.books)
  {
    RunAccounts(c, now, events);
    StepAccounts(c, Run(c, Started(c, now), events), e);
  }

  /** A kicked loop that starts on a new queue keeps it in play: no drop, and no give-up at its first fork. */
  ghost predicate KickHolds(c: Config, k: Core, forkOk: bool) {
    k.engine.runner.Idle? ==>
      && !k.shuttingDown && !Tripped(c, k)
      && (Wait(c, k.engine) > 0.0 || forkOk || k.engine.forkFailures + 1 < MAX_CONSECUTIVE_FORK_FAILURES)
  }

  function InPlay(k: Core): int {
    Serving(k.pool) + |Pending(k.engine)|
  }

  /** Kicked with only new refills queued, the loop either keeps all of them in play or drops them all. */
  lemma KickConserves(c: Config, k: Core, forkOk: bool)
    requires PoolOk(k.pool) && (k.engine.runner.Idle? && k.engine.queue != [] ==> Settled(k.pool) < c.workers.count)
    ensures InPlay(Kick(c, k, forkOk))
            == if KickHolds(c, k, forkOk) || k.engine.queue == [] then InPlay(k) else Serving(k.pool)
  {
    hide PoolOk, Serving, Settle, NextBackoff, InWindow;
    ForkServes(k.pool, k.now);
  }

  lemma RefillInPlay(c: Config, k: Core, forkOk: bool)
    requires PoolOk(k.pool) && (k.engine.runner.Idle? ==> k.engine.queue == [])
    ensures InPlay(RequestRefill(c, k, forkOk))
            == InPlay(k) + if KickHolds(c, k, forkOk) then Max(0, c.workers.count - k.pool.active) else 0
  {
    hide Kick, Serving, Tripped;
    var count := Max(0, c.workers.count - k.pool.active);
    EnqueueRefillsKeeps(k, count);
    var r := EnqueueRefills(k, count);
    assert Tripped(c, r) == Tripped(c, k) by { TrippedByCrashes(c, k, r); }
    assert Wait(c, r.engine) == Wait(c, k.engine);
    if k.engine.runner.Idle? {
      assert count > 0 ==> Settled(k.pool) < c.workers.count;
    }
    KickConserves(c, r, forkOk);
  }

  lemma TrippedByCrashes(c: Config, k: Core, r: Core)
    requires k.now == r.now && k.crashes == r.crashes
    ensures Tripped(c, k) == Tripped(c, r)
  {
  }

  /** Marked workers are missing from a refill, unless as many restarts are already pending. */
  ghost predicate RefillSuffices(c: Config, k: Core) {
    |k.pool.marks| <= |Pending(k.engine)| || InPlay(k) >= c.workers.count
  }

  /**
   * A breaker reset counts active workers, not serving ones: it brings the
   * fleet, with what is pending, up to the target exactly when the pending
   * restarts make up for the marked workers, or the target was met anyway.
   */
  lemma ResetRefillsIff(c: Config, f: Fleet, forkOk: bool)
    requires ValidConfig(c) && Safe(c, f) && !f.core.shuttingDown
    ensures InPlay(Step(c, f, ResetBreaker(forkOk)).core) >= c.workers.count <==> RefillSuffices(c, f.core)
  {
    hide RequestRefill;
    var k := ResetEngine(f.core);
    assert !Tripped(c, k);
    RefillInPlay(c, k, forkOk);
  }

  /** So does the end of a roll, whose refill must also get past the breaker and the forks. */
  lemma RollEndRefillsIff(c: Config, f: Fleet, forkOk: bool)
    requires Safe(c, f) && !f.core.shuttingDown
    requires f.roll.Rolling? && f.roll.phase.AtTop? && |f.roll.turns| >= |f.roll.targets|
    ensures InPlay(Step(c, f, AdvanceRoll(forkOk)).core) >= c.workers.count
            <==> InPlay(f.core) >= c.workers.count || (RefillSuffices(c, f.core) && KickHolds(c, f.core, forkOk))
  {
    hide RequestRefill, KickHolds;
    RefillInPlay(c, f.core, forkOk);
  }

  /** With nothing pending, the refill after a breaker reset is exact only if no worker is marked. */
  lemma RefillExactIffUnmarked(c: Config, f: Fleet, forkOk: bool)
    requires ValidConfig(c) && Safe(c, f) && !f.core.shuttingDown && Pending(f.core.engine) == []
    ensures InPlay(Step(c, f, ResetBreaker(forkOk)).core) >= c.workers.count
            <==> f.core.pool.marks == {} || Serving(f.core.pool) >= c.workers.count
  {
    hide Step, Serving;
    ResetRefillsIff(c, f, forkOk);
  }
}
