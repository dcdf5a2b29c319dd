/** Hot restarts over every run: bounded duration, complete bookkeeping, guard released. */
module FleetRoll {
  import opened Wrappers
  import opened Config
  import Drain
  import opened FleetModel
  import opened FleetSafety
  import opened FleetPacing

  /** The workers a list of turns replaced, in order. */
  function ReplacedIn(turns: seq<Turn>): seq<int> {
    if turns == [] then []
    else
      var rest := ReplacedIn(turns[..|turns| - 1]);
      var last := turns[|turns| - 1];
      if last.Replaced? then rest + [last.worker] else rest
  }

  /** The longest one turn can take: the drain budget, the kill grace and the stagger. */
  function TurnLimit(c: Config, staggerMs: int): int {
    Drain.DrainBudget(c) + KILL_GRACE_MS + Max(0, staggerMs)
  }

  function Turns(n: nat, limit: int): int {
    if n == 0 then 0 else Turns(n - 1, limit) + limit
  }

  lemma {:induction false} TurnsAreProduct(n: nat, limit: int)
    ensures Turns(n, limit) == n * limit
  {
    if n > 0 {
      TurnsAreProduct(n - 1, limit);
    }
  }

  lemma {:induction false} TurnsGrow(n: nat, m: nat, limit: int)
    requires n <= m && limit >= 0
    ensures Turns(n, limit) <= Turns(m, limit)
  {
    if n < m {
      TurnsGrow(n, m - 1, limit);
    }
  }

  /** The instant by which the first `n` turns are over. */
  function Deadline(c: Config, r: Roll, n: nat): int
    requires r.Rolling?
  {
    r.startedAt + Turns(n, TurnLimit(c, r.staggerMs))
  }

  /** Turns follow the targets, and the clock respects the deadline of each. */
  ghost predicate RollOk(c: Config, r: Roll, now: int) {
    r.Rolling? ==>
      && |r.turns| <= |r.targets|
      && (forall i | 0 <= i < |r.turns| :: r.turns[i].worker == r.targets[i])
      && match r.phase
         case AtTop => r.restarted == ReplacedIn(r.turns) && now <= Deadline(c, r, |r.turns|)
         case Staggering(until) => r.restarted == ReplacedIn(r.turns) && now <= until <= Deadline(c, r, |r.turns|)
         case AwaitingExit(killAt) =>
           && Replacing(r)
           && now <= killAt <= Deadline(c, r, |r.turns| - 1) + Drain.DrainBudget(c)
         case Killed(until) =>
           && Replacing(r)
           && now <= until <= Deadline(c, r, |r.turns| - 1) + Drain.DrainBudget(c) + KILL_GRACE_MS
  }

  /** The last turn forked a replacement and its worker has not been counted yet. */
  ghost predicate Replacing(r: Roll)
    requires r.Rolling?
  {
    && r.turns != [] && r.turns[|r.turns| - 1].Replaced?
    && r.restarted == ReplacedIn(r.turns[..|r.turns| - 1])
  }

  lemma RollTurnOk(c: Config, f: Fleet, forkOk: bool)
    requires ValidConfig(c) && RollOk(c, f.roll, f.core.now)
    requires f.roll.Rolling? && f.roll.phase.AtTop?
    ensures RollOk(c, RollStep(c, f, forkOk).roll, f.core.now)
  {
    hide RequestRefill;
    var r := f.roll;
    if |r.turns| < |r.targets| {
      var w := r.targets[|r.turns|];
      forall t: Turn
        ensures (r.turns + [t])[..|r.turns|] == r.turns
      {
      }
    }
  }

  lemma RollStepOk(c: Config, f: Fleet, forkOk: bool)
    requires ValidConfig(c) && RollOk(c, f.roll, f.core.now)
    ensures RollOk(c, RollStep(c, f, forkOk).roll, f.core.now)
  {
    hide RequestRefill, RollTurn;
    if f.roll.Rolling? && f.roll.phase.AtTop? {
      RollTurnOk(c, f, forkOk);
    }
  }

  lemma StepRolls(c: Config, f: Fleet, e: Event)
    requires ValidConfig(c) && RollOk(c, f.roll, f.core.now)
    ensures RollOk(c, Step(c, f, e).roll, Step(c, f, e).core.now)
  {
    hide RollTurn, RequestRefill, OnWorkerCrash, Wake, Resume;
    match e
    case Tick(to) =>
    case Exit(w, graceful, forkOk) =>
      var k := f.core.(pool := Cleanup(f.core.pool, w), engine := f.core.engine.(resetAt := None));
      CrashKeepsClock(c, k, w, w !in f.online, f.online - {w} != {}, forkOk);
    case WakeRunner(forkOk) => RunnerRecordsNothing(c, f.core, forkOk);
    case ResumeRunner(forkOk) => RunnerRecordsNothing(c, f.core, forkOk);
    case ResetBreaker(forkOk) => RefillRecordsNothing(c, ResetEngine(f.core), forkOk);
    case AdvanceRoll(forkOk) =>
      RollStepOk(c, f, forkOk);
      RollKeepsClock(c, f, forkOk);
    case _ =>
  }

  lemma CrashKeepsClock(c: Config, k: Core, w: int, bootFailed: bool, hasOnline: bool, forkOk: bool)
    ensures OnWorkerCrash(c, k, w, bootFailed, hasOnline, forkOk).now == k.now
  {
    hide Loop;
    var q := AcceptCrash(RecordCrash(c, k, bootFailed, hasOnline), w);
    LoopRecordsNothing(c, q, forkOk);
  }

  lemma RollKeepsClock(c: Config, f: Fleet, forkOk: bool)
    ensures RollStep(c, f, forkOk).core.now == f.core.now
  {
    hide RequestRefill;
    RefillRecordsNothing(c, f.core, forkOk);
  }

  lemma {:induction false} RunRolls(c: Config, now: int, events: seq<Event>)
    requires ValidConfig(c)
    ensures var f := Run(c, Started(c, now), events); RollOk(c, f.roll, f.core.now)
  {
    if events != [] {
      RunRolls(c, now, events[..|events| - 1]);
      StepRolls(c, Run(c, Started(c, now), events[..|events| - 1]), events[|events| - 1]);
    }
  }

  /**
   * A roll of n targets that is still running started at most
   * n * (timeout + signal delays + 7000 + stagger) milliseconds ago.
   */
  lemma {:induction false} RollIsBounded(c: Config, now: int, events: seq<Event>)
    requires ValidConfig(c)
    ensures var f := Run(c, Started(c, now), events);
            f.roll.Rolling? ==>
              f.core.now - f.roll.startedAt <=
                |f.roll.targets| * (c.shutdown.timeoutMs + c.shutdown.sigtermDelayMs + c.shutdown.sigintDelayMs
                                    + 7_000 + Max(0, f.roll.staggerMs))
  {
    hide Run, Started;
    RunRolls(c, now, events);
    var f := Run(c, Started(c, now), events);
    if f.roll.Rolling? {
      RollWithinLimit(c, f.roll, f.core.now);
    }
  }

  lemma RollWithinLimit(c: Config, r: Roll, now: int)
    requires ValidConfig(c) && r.Rolling? && RollOk(c, r, now)
    ensures now - r.startedAt <= |r.targets| * TurnLimit(c, r.staggerMs)
  {
    var limit := TurnLimit(c, r.staggerMs);
    TurnsGrow(|r.turns|, |r.targets|, limit);
    TurnsAreProduct(|r.targets|, limit);
    assert r.turns != [] ==> Turns(|r.turns|, limit) == Turns(|r.turns| - 1, limit) + limit;
  }

  /** How far a roll is from releasing its guard. */
  function Rank(r: Roll): nat {
    if r.NoRoll? then 0
    else
      1 + 4 * Max(0, |r.targets| - |r.turns|) +
      match r.phase
      case AwaitingExit(_) => 3
      case Killed(_) => 2
      case Staggering(_) => 1
      case AtTop => 0
  }

  /** When the clock may not pass, the roll can move, and every move brings the guard's release closer. */
  lemma {:induction false} RollNeverStalls(c: Config, now: int, events: seq<Event>, forkOk: bool)
    requires ValidConfig(c)
    ensures var f := Run(c, Started(c, now), events);
            var r := Step(c, f, AdvanceRoll(forkOk));
            && (f.roll.Rolling? && f.core.now >= RollDue(f) ==> Rank(r.roll) < Rank(f.roll))
            && Rank(r.roll) <= Rank(f.roll)
  {
    hide Run, Started;
    RunRolls(c, now, events);
    RollMoves(c, Run(c, Started(c, now), events), forkOk);
  }

  lemma RollMoves(c: Config, f: Fleet, forkOk: bool)
    requires RollOk(c, f.roll, f.core.now)
    ensures var r := RollStep(c, f, forkOk);
            && (f.roll.Rolling? && f.core.now >= RollDue(f) ==> Rank(r.roll) < Rank(f.roll))
            && Rank(r.roll) <= Rank(f.roll)
  {
    hide RequestRefill, Deadline;
  }

  /** The turn of `w` found `f`, left `r`, and says what happened: a dead worker skipped, a failed fork, or a swap. */
  ghost predicate Tells(f: Fleet, r: Fleet, w: int, t: Turn) {
    && t.worker == w
    && (t.Skipped? <==> w !in Live(f))
    && (!t.Replaced? ==> r.core.pool == f.core.pool)
    && (t.Replaced? ==>
          && w in r.core.pool.marks && Live(r) == Live(f) + {t.replacement}
          && t.replacement !in Live(f) && t.replacement !in r.core.pool.marks)
  }

  /** The turn that the roll cannot go on after: a fork that fails for the third time in a row. */
  ghost predicate BailsOut(f: Fleet, forkOk: bool)
    requires f.roll.Rolling? && |f.roll.turns| < |f.roll.targets|
  {
    && f.roll.targets[|f.roll.turns|] in Live(f) && !forkOk
    && f.core.engine.forkFailures + 1 >= MAX_CONSECUTIVE_FORK_FAILURES
  }

  /**
   * A turn tells the truth, and the last one too: the roll ends exactly when its
   * targets are done, at shutdown, or when forks keep failing, and in the last
   * two cases every worker and mark stays as it is.
   */
  lemma TurnRecordsTruth(c: Config, f: Fleet, forkOk: bool)
    requires Safe(c, f) && f.roll.Rolling? && f.roll.phase.AtTop?
    ensures var r := Step(c, f, AdvanceRoll(forkOk));
            var n := |f.roll.turns|;
            && (r.roll.NoRoll? <==> n >= |f.roll.targets| || f.core.shuttingDown || BailsOut(f, forkOk))
            && (n < |f.roll.targets| && r.roll.NoRoll? ==> r.core.pool == f.core.pool)
            && (r.roll.Rolling? ==>
                  && r.roll.targets == f.roll.targets
                  && |r.roll.turns| == n + 1 && r.roll.turns[..n] == f.roll.turns
                  && Tells(f, r, f.roll.targets[n], r.roll.turns[n])
                  && (r.roll.turns[n].Replaced? <==> f.roll.targets[n] in Live(f) && forkOk)
                  && (r.roll.turns[n].ForkFailed? <==> f.roll.targets[n] in Live(f) && !forkOk))
  {
    hide RequestRefill;
    ForkServes(f.core.pool, f.core.now);
  }

  /** From its first `j` events on, the run has been in one roll. */
  ghost predicate RollsSince(c: Config, f: Fleet, events: seq<Event>, j: int) {
    forall m | 0 <= j <= m <= |events| :: Run(c, f, events[..m]).roll.Rolling?
  }

  /** Event `j` of the run was turn `i` of the roll of these targets that has gone on since, and this is what it did. */
  ghost predicate TurnAt(c: Config, f: Fleet, events: seq<Event>, j: int, targets: seq<int>, i: nat, t: Turn) {
    && 0 <= j < |events| && i < |targets| && events[j].AdvanceRoll? && RollsSince(c, f, events, j)
    && var before := Run(c, f, events[..j]);
    && before.roll.Rolling? && before.roll.phase.AtTop? && before.roll.targets == targets && |before.roll.turns| == i
    && (t.ForkFailed? ==> !events[j].forkOk)
    && Tells(before, Step(c, before, events[j]), targets[i], t)
  }

  ghost predicate WasTaken(c: Config, f: Fleet, events: seq<Event>, targets: seq<int>, i: nat, t: Turn) {
    exists j :: TurnAt(c, f, events, j, targets, i, t)
  }

  /** Every turn of the list was taken by some event of the run. */
  ghost predicate TurnsTaken(c: Config, f: Fleet, events: seq<Event>, targets: seq<int>, turns: seq<Turn>) {
    forall i | 0 <= i < |turns| :: WasTaken(c, f, events, targets, i, turns[i])
  }

  lemma TurnsStayTaken(c: Config, f: Fleet, events: seq<Event>, e: Event, targets: seq<int>, turns: seq<Turn>)
    requires TurnsTaken(c, f, events, targets, turns) && Run(c, f, events + [e]).roll.Rolling?
    ensures TurnsTaken(c, f, events + [e], targets, turns)
  {
    hide Run, Step, Tells, RollsSince;
    forall i | 0 <= i < |turns|
      ensures WasTaken(c, f, events + [e], targets, i, turns[i])
    {
      var j :| TurnAt(c, f, events, j, targets, i, turns[i]);
      assert (events + [e])[..j] == events[..j];
      RollGoesOn(c, f, events, e, j);
      assert TurnAt(c, f, events + [e], j, targets, i, turns[i]);
    }
  }

  lemma RollGoesOn(c: Config, f: Fleet, events: seq<Event>, e: Event, j: int)
    requires RollsSince(c, f, events, j) && Run(c, f, events + [e]).roll.Rolling?
    ensures RollsSince(c, f, events + [e], j)
  {
    hide Run;
    forall m | 0 <= j <= m <= |events| + 1
      ensures Run(c, f, (events + [e])[..m]).roll.Rolling?
    {
      assert (events + [e])[..m] == if m <= |events| then events[..m] else events + [e];
    }
  }

  /** An event that is no turn keeps the list of turns, or ends the roll, or starts one with no turns. */
  lemma OtherwiseTurnsStay(c: Config, f: Fleet, e: Event)
    requires !(e.AdvanceRoll? && f.roll.Rolling? && f.roll.phase.AtTop?)
    ensures var r := Step(c, f, e).roll;
            r.Rolling? ==> r.turns == [] || (f.roll.Rolling? && r.targets == f.roll.targets && r.turns == f.roll.turns)
  {
    hide RollTurn, RequestRefill, OnWorkerCrash, Wake, Resume;
  }

  lemma TurnTaken(c: Config, f: Fleet, events: seq<Event>, e: Event)
    requires var s := Run(c, f, events);
             && Safe(c, s) && e.AdvanceRoll? && s.roll.Rolling? && s.roll.phase.AtTop?
             && TurnsTaken(c, f, events, s.roll.targets, s.roll.turns)
    ensures var r := Step(c, Run(c, f, events), e).roll;
            r.Rolling? ==> TurnsTaken(c, f, events + [e], r.targets, r.turns)
  {
    hide Run, Step, Tells, Safe;
    var s := Run(c, f, events);
    var r := Step(c, s, e).roll;
    TurnRecordsTruth(c, s, e.forkOk);
    if r.Rolling? {
      RunNext(c, f, events, e);
      assert RollsSince(c, f, events, |events|) by { assert events[..|events|] == events; }
      RollGoesOn(c, f, events, e, |events|);
      TurnsStayTaken(c, f, events, e, s.roll.targets, s.roll.turns);
      var n := |s.roll.turns|;
      assert (events + [e])[..|events|] == events;
      assert TurnAt(c, f, events + [e], |events|, r.targets, n, r.turns[n]);
      forall i | 0 <= i < |r.turns|
        ensures WasTaken(c, f, events + [e], r.targets, i, r.turns[i])
      {
        if i < n { assert r.turns[i] == r.turns[..n][i] == s.roll.turns[i]; }
      }
    }
  }

  lemma {:induction false} EveryTurnWasTaken(c: Config, now: int, events: seq<Event>)
    requires ValidConfig(c)
    ensures var r := Run(c, Started(c, now), events).roll;
            r.Rolling? ==> TurnsTaken(c, Started(c, now), events, r.targets, r.turns)
  {
    hide Step, Safe, Started, TurnsTaken;
    var start := Started(c, now);
    if events == [] {
      NothingTaken(c, now);
    } else {
      var n := |events| - 1;
      var init, e := events[..n], events[n];
      assert init + [e] == events;
      EveryTurnWasTaken(c, now, init);
      RunSafe(c, now, init);
      var f := Run(c, start, init);
      if e.AdvanceRoll? && f.roll.Rolling? && f.roll.phase.AtTop? {
        TurnTaken(c, start, init, e);
      } else {
        OtherwiseTurnsStay(c, f, e);
        var r := Step(c, f, e).roll;
        if r.Rolling? {
          if r.turns == [] {
            NoTurns(c, start, events, r.targets);
          } else {
            TurnsStayTaken(c, start, init, e, f.roll.targets, f.roll.turns);
          }
        }
      }
    }
  }

  lemma NoTurns(c: Config, f: Fleet, events: seq<Event>, targets: seq<int>)
    ensures TurnsTaken(c, f, events, targets, [])
  {
  }

  lemma NothingTaken(c: Config, now: int)
    ensures Run(c, Started(c, now), []).roll.NoRoll?
  {
  }

  /**
   * A roll that completes took every target in order, each at an event of the
   * run at which it was dead, or its fork failed, or its replacement was forked
   * before it was marked; its report lists exactly the replaced ones, and
   * afterwards the guard is open for the next roll.
   */
  lemma {:induction false} CompleteRollAccounts(c: Config, now: int, events: seq<Event>, forkOk: bool)
    requires ValidConfig(c)
    requires var r := Run(c, Started(c, now), events).roll;
             r.Rolling? && r.phase.AtTop? && |r.turns| == |r.targets|
    ensures var f := Run(c, Started(c, now), events);
            && (forall i | 0 <= i < |f.roll.targets| ::
                  && f.roll.turns[i].worker == f.roll.targets[i]
                  && WasTaken(c, Started(c, now), events, f.roll.targets, i, f.roll.turns[i]))
            && f.roll.restarted == ReplacedIn(f.roll.turns)
            && Step(c, f, AdvanceRoll(forkOk)).roll.NoRoll?
  {
    hide Run, Started, WasTaken;
    RunRolls(c, now, events);
    EveryTurnWasTaken(c, now, events);
  }
}
