/**
 * The fleet together with the drains of its recycles: each recycle, immediate,
 * staggered or by a roll, hands its worker over in step with the fleet's events.
 */
module FleetDrain {
  import opened Wrappers
  import opened Config
  import opened FleetModel
  import opened FleetSafety
  import Drain

  /** A worker being handed over, and the closure of its drain. */
  datatype Recycling = Recycling(worker: int, h: Drain.Handover)

  /** The recycles so far by the id of their replacement, which no other recycle has. */
  datatype Joint = Joint(fleet: Fleet, recycles: map<int, Recycling>)

  datatype JointEvent = OfFleet(event: Event) | OfDrain(replacement: int, timer: Drain.Event)

  /** The worker that the event forks a replacement for, if any. */
  function Recycled(f: Fleet, e: Event): Option<int> {
    match e
    case Recycle(w, forkOk) =>
      if w !in f.core.pool.marks && !f.core.shuttingDown && w in Live(f) && forkOk then Some(w) else None
    case StaggerFires(w, forkOk) =>
      if w in f.core.pool.staged && w in Live(f) && !f.core.shuttingDown && forkOk then Some(w) else None
    case AdvanceRoll(forkOk) =>
      if f.roll.Rolling? && f.roll.phase.AtTop? && |f.roll.turns| < |f.roll.targets| && !f.core.shuttingDown
         && f.roll.targets[|f.roll.turns|] in Live(f) && forkOk then Some(f.roll.targets[|f.roll.turns|])
      else None
    case _ => None
  }

  /** What a drain sees of an event of the fleet. */
  function Follow(c: Config, f: Fleet, e: Event, x: int, r: Recycling): Recycling {
    match e
    case Tick(to) => r.(h := Drain.Step(c, r.h, Drain.Tick(to)))
    case Online(w) => if w == x && w in Live(f) then r.(h := Drain.Step(c, r.h, Drain.ReplacementOnline)) else r
    case Exit(w, _, _) =>
      if w !in Live(f) then r
      else if w == x then r.(h := Drain.Step(c, r.h, Drain.ReplacementExits))
      else if w == r.worker then r.(h := Drain.Step(c, r.h, Drain.OldExits))
      else r
    case BeginShutdown => r.(h := Drain.Step(c, r.h, Drain.ShutdownBegins))
    case _ => r
  }

  /** No timer of the drain would be passed. */
  predicate Allows(h: Drain.Handover, to: int) {
    Drain.NotPast(h.failsafe, to) && Drain.NotPast(h.forceKill, to) && Drain.NotPast(h.sigkill, to)
  }

  predicate MayTick(j: Joint, to: int) {
    MayPass(j.fleet, to) && forall x | x in j.recycles :: Allows(j.recycles[x].h, to)
  }

  function Followed(c: Config, j: Joint, e: Event): map<int, Recycling> {
    map x | x in j.recycles :: Follow(c, j.fleet, e, x, j.recycles[x])
  }

  ghost function JointStep(c: Config, j: Joint, je: JointEvent): Joint {
    match je
    case OfFleet(e) =>
      if e.Tick? && !MayTick(j, e.to) then j
      else
        var all := Followed(c, j, e);
        Joint(Step(c, j.fleet, e),
              match Recycled(j.fleet, e)
              case None => all
              case Some(w) => all[j.fleet.core.pool.nextId := Recycling(w, Drain.Begin(c, j.fleet.core.now))])
    case OfDrain(x, e) =>
      if x !in j.recycles || !Drain.IsTimer(e) then j
      else j.(recycles := j.recycles[x := j.recycles[x].(h := Drain.Step(c, j.recycles[x].h, e))])
  }

  ghost function JointRun(c: Config, now: int, events: seq<JointEvent>): Joint {
    if events == [] then Joint(Started(c, now), map[])
    else JointStep(c, JointRun(c, now, events[..|events| - 1]), events[|events| - 1])
  }

  // -------------------------------------------------------------- invariants

  /** The drain knows what the fleet knows of its two workers. */
  ghost predicate InStep(c: Config, f: Fleet, x: int, r: Recycling) {
    && Drain.HandoverOk(c, r.h)
    && r.h.now == f.core.now && r.h.shuttingDown == f.core.shuttingDown
    && x < f.core.pool.nextId && r.worker < f.core.pool.nextId && x != r.worker
    && (r.h.oldDead <==> r.worker !in Live(f))
    && (r.h.newDead <==> x !in Live(f))
  }

  predicate HasRecycle(j: Joint, w: int) {
    exists x :: x in j.recycles && j.recycles[x].worker == w
  }

  ghost predicate JointOk(c: Config, j: Joint) {
    && Safe(c, j.fleet)
    && (forall x | x in j.recycles :: InStep(c, j.fleet, x, j.recycles[x]))
    && (forall w | w in j.fleet.core.pool.marks && w !in j.fleet.core.pool.staged :: HasRecycle(j, w))
  }

  /** What any event does to the clock, the latch and the ids. */
  ghost predicate Moves(f: Fleet, e: Event, r: Fleet) {
    && f.core.pool.nextId <= r.core.pool.nextId
    && (e.Tick? || r.core.now == f.core.now)
    && r.core.shuttingDown == (f.core.shuttingDown || e.BeginShutdown?)
    && forall w | w < f.core.pool.nextId :: w in Live(r) <==> w in Live(f) && !(e.Exit? && e.w == w)
  }

  /** Nothing else is marked for good than a worker the event recycles. */
  ghost predicate MarksOnly(f: Fleet, e: Event, r: Fleet) {
    forall w | w in r.core.pool.marks && w !in r.core.pool.staged ::
      (w in f.core.pool.marks && w !in f.core.pool.staged) || Recycled(f, e) == Some(w)
  }

  lemma EngineMoves(k: Core, r: Core)
    requires ForksAtMostOne(k, r) && r.now == k.now && PoolOk(k.pool)
    ensures k.pool.nextId <= r.pool.nextId && r.pool.marks == k.pool.marks && r.pool.staged == k.pool.staged
    ensures forall w | w < k.pool.nextId :: w in r.pool.started <==> w in k.pool.started
  {
  }

  lemma CleanupMoves(p: Pool, w: int)
    requires PoolOk(p) && w in p.started
    ensures var q := Cleanup(p, w);
            && PoolOk(q) && q.nextId == p.nextId
            && (forall x :: x in q.started <==> x in p.started && x != w)
            && (forall x | x in q.marks && x !in q.staged :: x in p.marks && x !in p.staged)
  {
    hide Serving;
    CleanupServes(p, w);
  }

  lemma ExitMoves(c: Config, f: Fleet, w: int, graceful: bool, forkOk: bool)
    requires Safe(c, f)
    ensures var r := OnExit(c, f, w, graceful, forkOk); var e := Exit(w, graceful, forkOk);
            Moves(f, e, r) && MarksOnly(f, e, r)
  {
    hide Cleanup, OnWorkerCrash, PoolOk, Serving, ForksAtMostOne;
    if w in Live(f) {
      var k := f.core.(pool := Cleanup(f.core.pool, w), engine := f.core.engine.(resetAt := None));
      CleanupMoves(f.core.pool, w);
      CrashForks(c, k, w, w !in f.online, f.online - {w} != {}, forkOk);
      CrashKeepsClock(c, k, w, w !in f.online, f.online - {w} != {}, forkOk);
      CrashKeepsLatch(k, OnWorkerCrash(c, k, w, w !in f.online, f.online - {w} != {}, forkOk));
      EngineMoves(k, OnWorkerCrash(c, k, w, w !in f.online, f.online - {w} != {}, forkOk));
    }
  }

  lemma CrashKeepsLatch(k: Core, r: Core)
    requires ForksAtMostOne(k, r)
    ensures r.shuttingDown == k.shuttingDown
  {
  }

  lemma RollMoves(c: Config, f: Fleet, forkOk: bool)
    requires Safe(c, f)
    ensures var r := RollStep(c, f, forkOk); Moves(f, AdvanceRoll(forkOk), r) && MarksOnly(f, AdvanceRoll(forkOk), r)
  {
    RefillForks(c, f.core, forkOk);
    RefillKeepsClock(c, f.core, forkOk);
    EngineMoves(f.core, RequestRefill(c, f.core, forkOk));
    hide RequestRefill, Serving;
  }

  lemma PoolMoves(c: Config, f: Fleet, e: Event)
    requires Safe(c, f) && (e.Recycle? || e.Sweep? || e.StaggerFires? || e.BeginShutdown?)
    ensures Moves(f, e, Step(c, f, e)) && MarksOnly(f, e, Step(c, f, e))
  {
    hide Serving;
  }

  lemma FleetMoves(c: Config, f: Fleet, e: Event)
    requires Safe(c, f)
    ensures Moves(f, e, Step(c, f, e)) && MarksOnly(f, e, Step(c, f, e))
  {
    hide Wake, Resume, RequestRefill, OnExit, RollStep, OnRecycle, OnSweep, OnStaggerFires, OnShutdown, PoolOk;
    match e
    case Exit(w, graceful, forkOk) => ExitMoves(c, f, w, graceful, forkOk);
    case WakeRunner(forkOk) =>
      RunnerForks(c, f.core, forkOk);
      RunnerKeepsClock(c, f.core, forkOk);
      EngineMoves(f.core, Wake(c, f.core, forkOk));
    case ResumeRunner(forkOk) =>
      RunnerForks(c, f.core, forkOk);
      RunnerKeepsClock(c, f.core, forkOk);
      EngineMoves(f.core, Resume(c, f.core, forkOk));
    case ResetBreaker(forkOk) =>
      RefillForks(c, ResetEngine(f.core), forkOk);
      RefillKeepsClock(c, ResetEngine(f.core), forkOk);
      EngineMoves(ResetEngine(f.core), RequestRefill(c, ResetEngine(f.core), forkOk));
    case AdvanceRoll(forkOk) => RollMoves(c, f, forkOk);
    case Recycle(w, forkOk) => PoolMoves(c, f, e);
    case Sweep => PoolMoves(c, f, e);
    case StaggerFires(w, forkOk) => PoolMoves(c, f, e);
    case BeginShutdown => PoolMoves(c, f, e);
    case _ =>
  }

  lemma RunnerKeepsClock(c: Config, k: Core, forkOk: bool)
    ensures Wake(c, k, forkOk).now == k.now && Resume(c, k, forkOk).now == k.now
  {
  }

  lemma RefillKeepsClock(c: Config, k: Core, forkOk: bool)
    ensures RequestRefill(c, k, forkOk).now == k.now
  {
    EnqueueRefillsKeeps(k, Max(0, c.workers.count - k.pool.active));
  }

  lemma CrashKeepsClock(c: Config, k: Core, w: int, bootFailed: bool, hasOnline: bool, forkOk: bool)
    ensures OnWorkerCrash(c, k, w, bootFailed, hasOnline, forkOk).now == k.now
  {
  }

  /** An event that both may make keeps fleet and drain in step. */
  lemma FollowInStep(c: Config, f: Fleet, e: Event, x: int, r: Recycling)
    requires ValidConfig(c) && InStep(c, f, x, r)
    requires Moves(f, e, Step(c, f, e))
    requires e.Tick? ==> MayPass(f, e.to) && Allows(r.h, e.to)
    ensures InStep(c, Step(c, f, e), x, Follow(c, f, e, x, r)) && Follow(c, f, e, x, r).worker == r.worker
  {
    hide Drain.HandoverOk, Wake, Resume, RequestRefill, OnExit, RollStep, OnRecycle, OnSweep, OnStaggerFires;
    hide OnWorkerOnline, OnStable, OnResetBreaker, OnShutdown;
    match e
    case Tick(to) => Drain.StepOk(c, r.h, Drain.Tick(to));
    case Online(w) => Drain.StepOk(c, r.h, Drain.ReplacementOnline);
    case Exit(w, _, _) =>
      Drain.StepOk(c, r.h, Drain.ReplacementExits);
      Drain.StepOk(c, r.h, Drain.OldExits);
    case BeginShutdown => Drain.StepOk(c, r.h, Drain.ShutdownBegins);
    case _ =>
  }

  lemma BeginInStep(c: Config, f: Fleet, e: Event, w: int)
    requires ValidConfig(c) && Safe(c, f) && Recycled(f, e) == Some(w)
    ensures InStep(c, Step(c, f, e), f.core.pool.nextId, Recycling(w, Drain.Begin(c, f.core.now)))
  {
    hide Drain.HandoverOk, Serving;
    Drain.BeginOk(c, f.core.now);
    ForkServes(f.core.pool, f.core.now);
  }

  lemma FleetEventOk(c: Config, j: Joint, e: Event)
    requires ValidConfig(c) && JointOk(c, j) && (e.Tick? ==> MayTick(j, e.to))
    ensures JointOk(c, JointStep(c, j, OfFleet(e)))
  {
    hide InStep, Safe, Moves, MarksOnly, Step;
    var f, r := j.fleet, JointStep(c, j, OfFleet(e));
    StepSafe(c, f, e);
    FleetMoves(c, f, e);
    forall x | x in r.recycles
      ensures InStep(c, r.fleet, x, r.recycles[x])
    {
      if Recycled(f, e).Some? && x == f.core.pool.nextId {
        BeginInStep(c, f, e, Recycled(f, e).value);
      } else {
        FollowInStep(c, f, e, x, j.recycles[x]);
      }
    }
    forall w | w in r.fleet.core.pool.marks && w !in r.fleet.core.pool.staged
      ensures HasRecycle(r, w)
    {
      MarkIsRecycled(c, j, e, w);
    }
  }

  /** Recycles are never forgotten: the new one takes a fresh id. */
  lemma RecyclesKept(c: Config, j: Joint, e: Event, x: int)
    requires JointOk(c, j) && x in j.recycles && !(e.Tick? && !MayTick(j, e.to))
    ensures var r := JointStep(c, j, OfFleet(e)); x in r.recycles && r.recycles[x].worker == j.recycles[x].worker
  {
    hide Drain.HandoverOk, Safe, Step;
    assert InStep(c, j.fleet, x, j.recycles[x]);
  }

  lemma MarkIsRecycled(c: Config, j: Joint, e: Event, w: int)
    requires JointOk(c, j) && MarksOnly(j.fleet, e, Step(c, j.fleet, e)) && !(e.Tick? && !MayTick(j, e.to))
    requires var p := Step(c, j.fleet, e).core.pool; w in p.marks && w !in p.staged
    ensures HasRecycle(JointStep(c, j, OfFleet(e)), w)
  {
    hide InStep, Safe, Step;
    var r := JointStep(c, j, OfFleet(e));
    if Recycled(j.fleet, e) == Some(w) {
      assert r.recycles[j.fleet.core.pool.nextId].worker == w;
    } else {
      var x :| x in j.recycles && j.recycles[x].worker == w;
      RecyclesKept(c, j, e, x);
    }
  }

  lemma DrainEventOk(c: Config, j: Joint, x: int, e: Drain.Event)
    requires ValidConfig(c) && JointOk(c, j)
    ensures JointOk(c, JointStep(c, j, OfDrain(x, e)))
  {
    hide Safe;
    if x in j.recycles && Drain.IsTimer(e) {
      var r := JointStep(c, j, OfDrain(x, e));
      TimerInStep(c, j.fleet, x, j.recycles[x], e);
      forall w | HasRecycle(j, w)
        ensures HasRecycle(r, w)
      {
        var y :| y in j.recycles && j.recycles[y].worker == w;
        assert r.recycles[y].worker == w;
      }
    }
  }

  lemma TimerInStep(c: Config, f: Fleet, x: int, r: Recycling, e: Drain.Event)
    requires ValidConfig(c) && InStep(c, f, x, r) && Drain.IsTimer(e)
    ensures InStep(c, f, x, r.(h := Drain.Step(c, r.h, e)))
  {
    hide Drain.HandoverOk;
    Drain.StepOk(c, r.h, e);
  }

  lemma {:induction false} JointRunOk(c: Config, now: int, events: seq<JointEvent>)
    requires ValidConfig(c)
    ensures JointOk(c, JointRun(c, now, events))
  {
    hide JointOk, JointStep;
    if events == [] {
      StartOk(c, now);
    } else {
      var j, je := JointRun(c, now, events[..|events| - 1]), events[|events| - 1];
      JointRunOk(c, now, events[..|events| - 1]);
      match je
      case OfFleet(e) =>
        if e.Tick? && !MayTick(j, e.to) { BlockedStays(c, j, e); } else { FleetEventOk(c, j, e); }
      case OfDrain(x, e) => DrainEventOk(c, j, x, e);
    }
  }

  lemma StartOk(c: Config, now: int)
    requires ValidConfig(c)
    ensures JointOk(c, Joint(Started(c, now), map[]))
  {
    ForkManyServes(Pool(map[], 1, {}, {}, 0), now, c.workers.count);
  }

  lemma BlockedStays(c: Config, j: Joint, e: Event)
    requires e.Tick? && !MayTick(j, e.to)
    ensures JointStep(c, j, OfFleet(e)) == j
  {
  }

  // ------------------------------------------------------------ main results

  /** Twice the escalation window and the margin of one recycle. */
  function RecycleBound(c: Config): int {
    2 * (c.shutdown.timeoutMs + c.shutdown.sigtermDelayMs + c.shutdown.sigintDelayMs) + 5_000
  }

  /** It is being recycled, and each recycle of it started no longer ago than the bound, or had it sent SIGKILL. */
  ghost predicate LeavesInTime(c: Config, j: Joint, w: int) {
    && HasRecycle(j, w)
    && forall x | x in j.recycles && j.recycles[x].worker == w ::
         j.fleet.core.now <= j.recycles[x].h.startedAt + RecycleBound(c) || Drain.Killed(j.recycles[x].h)
  }

  /**
   * On every run of the fleet with its drains, until shutdown, every live worker
   * that is marked and has its replacement is being recycled, and every recycle
   * of it is no older than the bound or had it sent SIGKILL: marks do not linger.
   */
  lemma {:induction false} MarkedWorkersLeaveInTime(c: Config, now: int, events: seq<JointEvent>)
    requires ValidConfig(c)
    ensures var j := JointRun(c, now, events); var p := j.fleet.core.pool;
            !j.fleet.core.shuttingDown ==> forall w | w in p.marks && w !in p.staged :: LeavesInTime(c, j, w)
  {
    hide JointRun, Safe, InStep;
    JointRunOk(c, now, events);
    var j := JointRun(c, now, events);
    forall w | !j.fleet.core.shuttingDown && w in j.fleet.core.pool.marks && w !in j.fleet.core.pool.staged
      ensures LeavesInTime(c, j, w)
    {
      MarkedIsLive(c, j, w);
      forall x | x in j.recycles && j.recycles[x].worker == w
        ensures j.fleet.core.now <= j.recycles[x].h.startedAt + RecycleBound(c) || Drain.Killed(j.recycles[x].h)
      {
        RecycleInTime(c, j.fleet, x, j.recycles[x]);
      }
    }
  }

  lemma MarkedIsLive(c: Config, j: Joint, w: int)
    requires Safe(c, j.fleet) && w in j.fleet.core.pool.marks
    ensures w in Live(j.fleet)
  {
  }

  lemma RecycleInTime(c: Config, f: Fleet, x: int, r: Recycling)
    requires ValidConfig(c) && InStep(c, f, x, r) && !f.core.shuttingDown && r.worker in Live(f)
    ensures f.core.now <= r.h.startedAt + RecycleBound(c) || Drain.Killed(r.h)
  {
    if |r.h.signals| == 2 {
      assert r.h.signals[1].signal.SIGKILL?;
    }
  }

  /** With the fleet's shutdown no drain sends a signal any more, and none ever does to a worker that is dead. */
  lemma {:induction false} DrainsAreSilentInShutdown(
    c: Config, now: int, events: seq<JointEvent>, e: JointEvent, x: int)
    requires ValidConfig(c) && x in JointRun(c, now, events).recycles
    ensures var j := JointRun(c, now, events); var r := JointStep(c, j, e);
            x in r.recycles
            && (j.fleet.core.shuttingDown || j.recycles[x].worker !in Live(j.fleet) ==>
                  r.recycles[x].h.signals == j.recycles[x].h.signals)
  {
    hide JointRun, Safe, Drain.HandoverOk, Step;
    JointRunOk(c, now, events);
    var j := JointRun(c, now, events);
    assert InStep(c, j.fleet, x, j.recycles[x]);
    match e
    case OfFleet(fe) =>
      if j.recycles[x].h.shuttingDown || j.recycles[x].h.oldDead { FollowIsQuiet(c, j.fleet, fe, x, j.recycles[x]); }
    case OfDrain(y, timer) => Drain.Quiet(c, j.recycles[x].h, timer);
  }

  lemma FollowIsQuiet(c: Config, f: Fleet, e: Event, x: int, r: Recycling)
    requires r.h.shuttingDown || r.h.oldDead
    ensures Follow(c, f, e, x, r).h.signals == r.h.signals
  {
    hide Drain.Step;
    match e
    case Tick(to) => Drain.Quiet(c, r.h, Drain.Tick(to));
    case Online(w) => Drain.Quiet(c, r.h, Drain.ReplacementOnline);
    case Exit(w, _, _) =>
      Drain.Quiet(c, r.h, Drain.ReplacementExits);
      Drain.Quiet(c, r.h, Drain.OldExits);
    case BeginShutdown => Drain.Quiet(c, r.h, Drain.ShutdownBegins);
    case _ =>
  }

  /** When time may not pass, the roll can move, or the stability timer or a drain's is due. */
  lemma {:induction false} JointNeverStuck(c: Config, now: int, events: seq<JointEvent>)
    requires ValidConfig(c)
    ensures var j := JointRun(c, now, events);
            !MayTick(j, j.fleet.core.now + 1) ==>
              || (j.fleet.roll.Rolling? && j.fleet.core.now >= RollDue(j.fleet))
              || Step(c, j.fleet, Stable) != j.fleet
              || exists x :: x in j.recycles && TimerDue(c, j.recycles[x].h)
  {
    hide JointRun, Safe, InStep;
    JointRunOk(c, now, events);
    var j := JointRun(c, now, events);
    if x :| x in j.recycles && !Allows(j.recycles[x].h, j.fleet.core.now + 1) {
      BlockingTimerIsDue(c, j.fleet, x, j.recycles[x]);
    }
  }

  predicate TimerDue(c: Config, h: Drain.Handover) {
    Drain.Step(c, h, Drain.FailsafeFires) != h || Drain.Step(c, h, Drain.ForceKillFires) != h
    || Drain.Step(c, h, Drain.SigkillFires) != h
  }

  lemma BlockingTimerIsDue(c: Config, f: Fleet, x: int, r: Recycling)
    requires InStep(c, f, x, r) && !Allows(r.h, f.core.now + 1)
    ensures TimerDue(c, r.h)
  {
  }
}
