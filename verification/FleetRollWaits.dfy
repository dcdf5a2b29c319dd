/**
 * What a roll waits for. The instants of its turns and departures are read off
 * the run, so that the roll's own deadlines are held against them.
 */
module FleetRollWaits {
  import opened Wrappers
  import opened Config
  import Drain
  import opened FleetModel
  import opened FleetPacing
  import opened FleetRoll

  /** The step is a turn of the roll. */
  predicate TakesTurn(f: Fleet, r: Fleet) {
    f.roll.Rolling? && r.roll.Rolling? && |r.roll.turns| > |f.roll.turns|
  }

  /** The step counts a worker as restarted. */
  predicate Counts(f: Fleet, r: Fleet) {
    f.roll.Rolling? && r.roll.Rolling? && |r.roll.restarted| > |f.roll.restarted|
  }

  /** When the latest turn of the run was taken. */
  ghost function LastTurnAt(c: Config, now: int, events: seq<Event>): int {
    if events == [] then now
    else
      var init := events[..|events| - 1];
      var f := Run(c, Started(c, now), init);
      if TakesTurn(f, Run(c, Started(c, now), events)) then f.core.now else LastTurnAt(c, now, init)
  }

  /** How many forced kills there had been when it was. */
  ghost function KillsAtTurn(c: Config, now: int, events: seq<Event>): int {
    if events == [] then 0
    else
      var init := events[..|events| - 1];
      var f := Run(c, Started(c, now), init);
      if TakesTurn(f, Run(c, Started(c, now), events)) then f.forcedKills else KillsAtTurn(c, now, init)
  }

  /** When the latest worker was counted as restarted. */
  ghost function LastCountedAt(c: Config, now: int, events: seq<Event>): int {
    if events == [] then now
    else
      var init := events[..|events| - 1];
      var f := Run(c, Started(c, now), init);
      if Counts(f, Run(c, Started(c, now), events)) then f.core.now else LastCountedAt(c, now, init)
  }

  predicate LastReplaced(r: Roll) {
    r.Rolling? && r.turns != [] && r.turns[|r.turns| - 1].Replaced?
  }

  /** The suspension point of a roll, held against its latest turn and departure. */
  ghost predicate WaitOk(c: Config, f: Fleet, turnAt: int, kills: int, countedAt: int) {
    f.roll.Rolling? ==>
      match f.roll.phase
      case AwaitingExit(killAt) => killAt == turnAt + Drain.DrainBudget(c) && f.forcedKills == kills
      case Killed(until) => until == turnAt + Drain.DrainBudget(c) + KILL_GRACE_MS && f.forcedKills == kills + 1
      case Staggering(until) => until == countedAt + f.roll.staggerMs && f.roll.staggerMs > 0
      case AtTop => LastReplaced(f.roll) ==> f.core.now >= countedAt + Max(0, f.roll.staggerMs)
  }

  lemma RollStepWaits(c: Config, f: Fleet, forkOk: bool, turnAt: int, kills: int, countedAt: int)
    requires RollOk(c, f.roll, f.core.now) && WaitOk(c, f, turnAt, kills, countedAt)
    ensures var r := RollStep(c, f, forkOk);
            WaitOk(c, r, if TakesTurn(f, r) then f.core.now else turnAt,
                   if TakesTurn(f, r) then f.forcedKills else kills, if Counts(f, r) then f.core.now else countedAt)
  {
    hide RequestRefill, Deadline;
    RefillRecordsNothing(c, f.core, forkOk);
  }

  /** Only the roll itself moves it or kills for it; a new one begins with no turns. */
  lemma OthersKeepRoll(c: Config, f: Fleet, e: Event)
    requires !e.AdvanceRoll?
    ensures var r := Step(c, f, e);
            && r.forcedKills == f.forcedKills && r.core.now >= f.core.now
            && (r.roll == f.roll || (f.roll.NoRoll? && r.roll.Rolling? && r.roll.turns == [] && r.roll.phase.AtTop?))
  {
    hide Wake, Resume, RequestRefill, OnWorkerCrash;
    match e
    case Exit(w, graceful, forkOk) =>
      var k := f.core.(pool := Cleanup(f.core.pool, w), engine := f.core.engine.(resetAt := None));
      CrashKeepsClock(c, k, w, w !in f.online, f.online - {w} != {}, forkOk);
    case WakeRunner(forkOk) => RunnerRecordsNothing(c, f.core, forkOk);
    case ResumeRunner(forkOk) => RunnerRecordsNothing(c, f.core, forkOk);
    case ResetBreaker(forkOk) => RefillRecordsNothing(c, ResetEngine(f.core), forkOk);
    case _ =>
  }

  lemma OtherStepWaits(c: Config, f: Fleet, e: Event, turnAt: int, kills: int, countedAt: int)
    requires WaitOk(c, f, turnAt, kills, countedAt) && !e.AdvanceRoll?
    ensures var r := Step(c, f, e);
            WaitOk(c, r, turnAt, kills, countedAt) && !TakesTurn(f, r) && !Counts(f, r)
  {
    hide Step;
    OthersKeepRoll(c, f, e);
  }

  lemma {:induction false} RunWaits(c: Config, now: int, events: seq<Event>)
    requires ValidConfig(c)
    ensures WaitOk(c, Run(c, Started(c, now), events),
                   LastTurnAt(c, now, events), KillsAtTurn(c, now, events), LastCountedAt(c, now, events))
  {
    if events != [] {
      hide Step, RollStep, WaitOk, TakesTurn, Counts, Started;
      var init, e := events[..|events| - 1], events[|events| - 1];
      var f := Run(c, Started(c, now), init);
      RunWaits(c, now, init);
      RunRolls(c, now, init);
      var t, k, d := LastTurnAt(c, now, init), KillsAtTurn(c, now, init), LastCountedAt(c, now, init);
      if e.AdvanceRoll? {
        RollStepWaits(c, f, e.forkOk, t, k, d);
        AdvanceIsRollStep(c, f, e.forkOk);
      } else {
        OtherStepWaits(c, f, e, t, k, d);
      }
    }
  }

  lemma AdvanceIsRollStep(c: Config, f: Fleet, forkOk: bool)
    ensures Step(c, f, AdvanceRoll(forkOk)) == RollStep(c, f, forkOk)
  {
    hide RollStep;
  }

  // ------------------------------------------------------------ main results

  /**
   * On every run, a worker is counted as restarted only when it is dead, or when
   * the drain budget and the kill grace have passed since its turn with one more
   * forced kill; it is the worker of the latest turn, and counted right after.
   */
  lemma {:induction false} RollAwaitsEachExit(c: Config, now: int, events: seq<Event>, e: Event)
    requires ValidConfig(c)
    ensures var f := Run(c, Started(c, now), events); var r := Step(c, f, e);
            Counts(f, r) ==>
              && LastReplaced(f.roll) && r.roll.restarted == f.roll.restarted + [Rolled(f)]
              && f.roll.restarted == ReplacedIn(f.roll.turns[..|f.roll.turns| - 1])
              && (Rolled(f) !in Live(f)
                  || (&& f.core.now == LastTurnAt(c, now, events)
                           + c.shutdown.timeoutMs + c.shutdown.sigtermDelayMs + c.shutdown.sigintDelayMs + 7_000
                      && f.forcedKills == KillsAtTurn(c, now, events) + 1))
  {
    hide Run, Started, LastTurnAt, KillsAtTurn, LastCountedAt, Deadline, RollStep;
    var f := Run(c, Started(c, now), events);
    RunWaits(c, now, events);
    RunRolls(c, now, events);
    if e.AdvanceRoll? {
      CountsOnlyAfterExit(c, f, e.forkOk, LastTurnAt(c, now, events), KillsAtTurn(c, now, events),
                          LastCountedAt(c, now, events));
    } else {
      hide Step;
      OthersKeepRoll(c, f, e);
    }
  }

  lemma CountsOnlyAfterExit(c: Config, f: Fleet, forkOk: bool, turnAt: int, kills: int, countedAt: int)
    requires RollOk(c, f.roll, f.core.now) && WaitOk(c, f, turnAt, kills, countedAt)
    ensures var r := RollStep(c, f, forkOk);
            Counts(f, r) ==>
              && LastReplaced(f.roll) && r.roll.restarted == f.roll.restarted + [Rolled(f)]
              && f.roll.restarted == ReplacedIn(f.roll.turns[..|f.roll.turns| - 1])
              && (Rolled(f) !in Live(f)
                  || (f.core.now == turnAt + Drain.DrainBudget(c) + KILL_GRACE_MS && f.forcedKills == kills + 1))
  {
    hide RequestRefill, Deadline;
  }

  /**
   * And the roll goes on, to its next turn or its end, only when the worker it
   * replaced last has been counted, and the stagger has passed since.
   */
  lemma {:induction false} RollStaggersTurns(c: Config, now: int, events: seq<Event>, e: Event)
    requires ValidConfig(c)
    ensures var f := Run(c, Started(c, now), events); var r := Step(c, f, e);
            TakesTurn(f, r) || (f.roll.Rolling? && r.roll.NoRoll?) ==>
              && f.roll.restarted == ReplacedIn(f.roll.turns)
              && (LastReplaced(f.roll) ==> f.core.now >= LastCountedAt(c, now, events) + Max(0, f.roll.staggerMs))
  {
    hide Run, Started, LastTurnAt, KillsAtTurn, LastCountedAt, Deadline, RollStep;
    var f := Run(c, Started(c, now), events);
    RunWaits(c, now, events);
    RunRolls(c, now, events);
    if e.AdvanceRoll? {
      MovesOnlyFromTop(c, f, e.forkOk);
    } else {
      hide Step;
      OthersKeepRoll(c, f, e);
    }
  }

  lemma MovesOnlyFromTop(c: Config, f: Fleet, forkOk: bool)
    ensures var r := RollStep(c, f, forkOk);
            TakesTurn(f, r) || (f.roll.Rolling? && r.roll.NoRoll?) ==> f.roll.phase.AtTop?
  {
    hide RequestRefill;
  }

  /** A roll kills only a worker that is alive a whole drain budget after its turn, once. */
  lemma {:induction false} RollKillsOnlyAfterBudget(c: Config, now: int, events: seq<Event>, e: Event)
    requires ValidConfig(c)
    ensures var f := Run(c, Started(c, now), events); var r := Step(c, f, e);
            r.forcedKills != f.forcedKills ==>
              && r.forcedKills == f.forcedKills + 1 && f.forcedKills == KillsAtTurn(c, now, events)
              && LastReplaced(f.roll) && Rolled(f) in Live(f)
              && f.core.now == LastTurnAt(c, now, events)
                   + c.shutdown.timeoutMs + c.shutdown.sigtermDelayMs + c.shutdown.sigintDelayMs + 5_000
  {
    hide Run, Started, LastTurnAt, KillsAtTurn, LastCountedAt, Deadline, RollStep;
    var f := Run(c, Started(c, now), events);
    RunWaits(c, now, events);
    RunRolls(c, now, events);
    if e.AdvanceRoll? {
      KillsOnlyWhenDue(c, f, e.forkOk);
    } else {
      hide Step;
      OthersKeepRoll(c, f, e);
    }
  }

  lemma KillsOnlyWhenDue(c: Config, f: Fleet, forkOk: bool)
    requires RollOk(c, f.roll, f.core.now)
    ensures var r := RollStep(c, f, forkOk);
            r.forcedKills != f.forcedKills ==>
              && r.forcedKills == f.forcedKills + 1 && LastReplaced(f.roll) && Rolled(f) in Live(f)
              && f.roll.phase.AwaitingExit? && f.core.now == f.roll.phase.killAt
  {
    hide RequestRefill, Deadline;
  }
}
