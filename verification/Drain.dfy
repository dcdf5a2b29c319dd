/**
 * One recycle: handing a worker's slot to its replacement and draining the old
 * worker, with timers that fire at their deadline.
 */
module Drain {
  import opened Wrappers
  import opened Config
  import opened Signals

  const DRAIN_MARGIN_MS := 5_000

  /** How long a replaced worker may take to leave by itself. */
  function DrainBudget(c: Config): int {
    c.shutdown.timeoutMs + c.shutdown.sigtermDelayMs + c.shutdown.sigintDelayMs + DRAIN_MARGIN_MS
  }

  /** Why and when the old worker was drained, and whether it was still alive (history). */
  datatype Cause = CameOnline | Died | BudgetExpired

  datatype DrainRecord = DrainRecord(at: int, cause: Cause, alive: bool)

  datatype SentSignal = SentSignal(at: int, signal: Signal)

  /**
   * The closure of one recycle call: its flags and its three timers, plus what
   * it can observe (the deaths and the shutdown latch) and what it did.
   */
  datatype Handover = Handover(
    startedAt: int, now: int, shuttingDown: bool, oldDead: bool, newDead: bool,
    replacementOnline: bool, drained: bool,
    failsafe: Option<int>, forceKill: Option<int>, sigkill: Option<int>,
    drains: seq<DrainRecord>, signals: seq<SentSignal>)

  datatype Event =
    | Tick(to: int) | ReplacementOnline | ReplacementExits | OldExits
    | FailsafeFires | ForceKillFires | SigkillFires | ShutdownBegins

  function Begin(c: Config, now: int): Handover {
    Handover(now, now, false, false, false, false, false, Some(now + DrainBudget(c)), None, None, [], [])
  }

  function StartDrain(c: Config, h: Handover, cause: Cause): Handover {
    if h.drained then h
    else
      h.(drained := true, failsafe := None,
         forceKill := if h.oldDead then None else Some(h.now + c.shutdown.timeoutMs),
         drains := h.drains + [DrainRecord(h.now, cause, !h.oldDead)])
  }

  function Send(h: Handover, s: Signal): Handover {
    h.(signals := h.signals + [SentSignal(h.now, s)])
  }

  predicate Due(timer: Option<int>, now: int) {
    timer.Some? && timer.value <= now
  }

  predicate NotPast(timer: Option<int>, now: int) {
    timer.Some? ==> now <= timer.value
  }

  function Step(c: Config, h: Handover, e: Event): Handover {
    match e
    case Tick(to) =>
      if h.now <= to && NotPast(h.failsafe, to) && NotPast(h.forceKill, to) && NotPast(h.sigkill, to) then
        h.(now := to)
      else h
    case ReplacementOnline =>
      if h.newDead || h.replacementOnline then h
      else if h.shuttingDown then h.(replacementOnline := true)
      else StartDrain(c, h.(replacementOnline := true), CameOnline)
    case ReplacementExits =>
      if h.newDead then h
      else if h.drained || h.replacementOnline || h.shuttingDown then h.(newDead := true)
      else StartDrain(c, h.(newDead := true), Died)
    case OldExits => h.(oldDead := true, forceKill := None, sigkill := None)
    case FailsafeFires =>
      if !Due(h.failsafe, h.now) then h
      else if h.replacementOnline || h.shuttingDown || h.oldDead then h.(failsafe := None)
      else StartDrain(c, h.(failsafe := None), BudgetExpired)
    case ForceKillFires =>
      if !Due(h.forceKill, h.now) then h
      else if h.oldDead || h.shuttingDown then h.(forceKill := None)
      else
        Send(h.(forceKill := None,
                sigkill := Some(h.now + c.shutdown.sigtermDelayMs + c.shutdown.sigintDelayMs)), SIGTERM)
    case SigkillFires =>
      if !Due(h.sigkill, h.now) then h
      else if h.oldDead || h.shuttingDown then h.(sigkill := None)
      else Send(h.(sigkill := None), SIGKILL)
    case ShutdownBegins => h.(shuttingDown := true)
  }

  function Run(c: Config, now: int, events: seq<Event>): Handover {
    if events == [] then Begin(c, now)
    else Step(c, Run(c, now, events[..|events| - 1]), events[|events| - 1])
  }

  function KillDelays(c: Config): int {
    c.shutdown.sigtermDelayMs + c.shutdown.sigintDelayMs
  }

  predicate Killed(h: Handover) {
    exists i :: 0 <= i < |h.signals| && h.signals[i].signal.SIGKILL?
  }

  /** The drain recorded has a good reason, and came within the budget if it was any use. */
  predicate Justified(c: Config, h: Handover, d: DrainRecord) {
    && h.startedAt <= d.at
    && (d.alive ==> d.at <= h.startedAt + DrainBudget(c))
    && (!d.alive ==> h.oldDead)
    && match d.cause
       case CameOnline => h.replacementOnline
       case Died => h.newDead && !h.replacementOnline
       case BudgetExpired => d.at == h.startedAt + DrainBudget(c)
  }

  /** The signals are the beginning of SIGTERM, SIGKILL, each sent when its window closed. */
  predicate Escalates(c: Config, h: Handover) {
    && |h.signals| <= 2
    && (|h.signals| >= 1 ==>
          && |h.drains| == 1
          && h.signals[0] == SentSignal(h.drains[0].at + c.shutdown.timeoutMs, SIGTERM))
    && (|h.signals| == 2 ==> h.signals[1] == SentSignal(h.signals[0].at + KillDelays(c), SIGKILL))
  }

  predicate HandoverOk(c: Config, h: Handover) {
    && h.startedAt <= h.now
    && |h.drains| == (if h.drained then 1 else 0)
    && (h.drained ==> Justified(c, h, h.drains[0]) && h.drains[0].at <= h.now)
    && Escalates(c, h)
    && NotPast(h.failsafe, h.now) && NotPast(h.forceKill, h.now) && NotPast(h.sigkill, h.now)
    && (h.failsafe.Some? ==> !h.drained && h.failsafe.value == h.startedAt + DrainBudget(c))
    && (h.forceKill.Some? ==>
          h.drained && h.signals == [] && h.forceKill.value == h.drains[0].at + c.shutdown.timeoutMs)
    && (h.sigkill.Some? ==> |h.signals| == 1 && h.sigkill.value == h.signals[0].at + KillDelays(c))
    && (!h.drained ==> h.signals == [] && (h.failsafe.Some? || h.shuttingDown || h.oldDead))
    && (!h.shuttingDown && !h.drained ==> !h.replacementOnline && !h.newDead)
    && (!h.shuttingDown && h.drained && !h.oldDead ==>
          h.forceKill.Some? || h.sigkill.Some? || |h.signals| == 2)
  }

  lemma BeginOk(c: Config, now: int)
    requires ValidConfig(c)
    ensures HandoverOk(c, Begin(c, now))
  {
  }

  predicate IsTimer(e: Event) {
    e.FailsafeFires? || e.ForceKillFires? || e.SigkillFires?
  }

  lemma TimerOk(c: Config, h: Handover, e: Event)
    requires ValidConfig(c) && HandoverOk(c, h) && IsTimer(e)
    ensures HandoverOk(c, Step(c, h, e)) && Step(c, h, e).startedAt == h.startedAt
  {
  }

  predicate IsOnlineOrDeath(e: Event) {
    e.ReplacementOnline? || e.ReplacementExits?
  }

  /** The occurrences that may start the drain. */
  lemma StartOk(c: Config, h: Handover, e: Event)
    requires ValidConfig(c) && HandoverOk(c, h) && IsOnlineOrDeath(e)
    ensures HandoverOk(c, Step(c, h, e)) && Step(c, h, e).startedAt == h.startedAt
  {
  }

  lemma OccurrenceOk(c: Config, h: Handover, e: Event)
    requires ValidConfig(c) && HandoverOk(c, h) && !IsTimer(e) && !IsOnlineOrDeath(e)
    ensures HandoverOk(c, Step(c, h, e)) && Step(c, h, e).startedAt == h.startedAt
  {
  }

  lemma StepOk(c: Config, h: Handover, e: Event)
    requires ValidConfig(c) && HandoverOk(c, h)
    ensures HandoverOk(c, Step(c, h, e)) && Step(c, h, e).startedAt == h.startedAt
  {
    hide HandoverOk, Step;
    if IsTimer(e) {
      TimerOk(c, h, e);
    } else if IsOnlineOrDeath(e) {
      StartOk(c, h, e);
    } else {
      OccurrenceOk(c, h, e);
    }
  }

  lemma {:induction false} RunOk(c: Config, now: int, events: seq<Event>)
    requires ValidConfig(c)
    ensures HandoverOk(c, Run(c, now, events)) && Run(c, now, events).startedAt == now
  {
    hide HandoverOk, Step;
    BeginOk(c, now);
    if events != [] {
      RunOk(c, now, events[..|events| - 1]);
      StepOk(c, Run(c, now, events[..|events| - 1]), events[|events| - 1]);
    }
  }

  /** A recycle drains its old worker at most once, and only for a reason, the last of which is the budget. */
  lemma {:induction false} DrainsOnceForCause(c: Config, now: int, events: seq<Event>)
    requires ValidConfig(c)
    ensures var h := Run(c, now, events);
            && |h.drains| <= 1
            && (forall i | 0 <= i < |h.drains| :: Justified(c, h, h.drains[i]))
            && DrainBudget(c) == c.shutdown.timeoutMs + c.shutdown.sigtermDelayMs + c.shutdown.sigintDelayMs + 5_000
  {
    hide Run, Justified;
    RunOk(c, now, events);
  }

  /** The old worker keeps its whole graceful window before SIGTERM, and the signal delays before SIGKILL. */
  lemma SignalsEscalate(c: Config, now: int, events: seq<Event>)
    requires ValidConfig(c)
    ensures Escalates(c, Run(c, now, events))
  {
    RunOk(c, now, events);
  }

  /**
   * Unless shutdown starts, the old worker is dead or has been sent SIGKILL
   * by the time twice the escalation window and the margin have passed.
   */
  lemma HandoverIsBounded(c: Config, now: int, events: seq<Event>)
    requires ValidConfig(c)
    ensures var h := Run(c, now, events);
            && !h.shuttingDown
            && h.now > now + 2 * (c.shutdown.timeoutMs + c.shutdown.sigtermDelayMs + c.shutdown.sigintDelayMs) + 5_000
            ==> h.oldDead || Killed(h)
  {
    RunOk(c, now, events);
    var h := Run(c, now, events);
    if |h.signals| == 2 {
      assert h.signals[1].signal.SIGKILL?;
    }
  }

  /** When the clock may not pass, a timer is due, and firing it disarms it: time never gets stuck. */
  lemma ClockNeverStuck(c: Config, now: int, events: seq<Event>)
    requires ValidConfig(c)
    ensures var h := Run(c, now, events);
            Step(c, h, Tick(h.now + 1)) == h ==>
              exists e: Event :: (e.FailsafeFires? || e.ForceKillFires? || e.SigkillFires?) && Step(c, h, e) != h
  {
    hide Run;
    RunOk(c, now, events);
    var h := Run(c, now, events);
    if Due(h.failsafe, h.now) {
      assert Step(c, h, FailsafeFires) != h;
    } else if Due(h.forceKill, h.now) {
      assert Step(c, h, ForceKillFires) != h;
    } else if Due(h.sigkill, h.now) {
      assert Step(c, h, SigkillFires) != h;
    }
  }

  /** Once shutdown has begun nothing is drained or signalled, and the dead are never signalled. */
  lemma Quiet(c: Config, h: Handover, e: Event)
    ensures var r := Step(c, h, e);
            && (h.shuttingDown ==> r.shuttingDown && r.signals == h.signals && r.drains == h.drains)
            && (h.oldDead ==> r.oldDead && r.signals == h.signals)
  {
  }

  lemma {:induction false} StaysQuiet(c: Config, now: int, events: seq<Event>, rest: seq<Event>)
    ensures var h, r := Run(c, now, events), Run(c, now, events + rest);
            && (h.shuttingDown ==> r.shuttingDown && r.signals == h.signals && r.drains == h.drains)
            && (h.oldDead ==> r.oldDead && r.signals == h.signals)
  {
    hide Step;
    var all := events + rest;
    if rest == [] {
      assert all == events;
    } else {
      assert all[..|all| - 1] == events + rest[..|rest| - 1];
      StaysQuiet(c, now, events, rest[..|rest| - 1]);
      Quiet(c, Run(c, now, all[..|all| - 1]), all[|all| - 1]);
    }
  }

  lemma StepLatches(c: Config, h: Handover)
    ensures var s, d := Step(c, h, ShutdownBegins), Step(c, h, OldExits);
            s.shuttingDown && s.signals == h.signals && s.drains == h.drains && d.oldDead && d.signals == h.signals
  {
  }

  /** Whatever timers are armed: a drain sends no signal once shutdown has begun, and drains nothing more. */
  lemma {:induction false} NoSignalInShutdown(c: Config, now: int, events: seq<Event>, rest: seq<Event>)
    ensures var h, r := Run(c, now, events), Run(c, now, events + [ShutdownBegins] + rest);
            r.signals == h.signals && r.drains == h.drains
  {
    hide Step;
    assert (events + [ShutdownBegins])[..|events|] == events;
    StepLatches(c, Run(c, now, events));
    StaysQuiet(c, now, events + [ShutdownBegins], rest);
  }

  /** Nor does it signal a worker that has exited. */
  lemma {:induction false} NoSignalToTheDead(c: Config, now: int, events: seq<Event>, rest: seq<Event>)
    ensures Run(c, now, events + [OldExits] + rest).signals == Run(c, now, events).signals
  {
    hide Step;
    assert (events + [OldExits])[..|events|] == events;
    StepLatches(c, Run(c, now, events));
    StaysQuiet(c, now, events + [OldExits], rest);
  }

  /** The latch and the deaths are those that happened. */
  lemma {:induction false} LatchesAreEvents(c: Config, now: int, events: seq<Event>)
    ensures var h := Run(c, now, events);
            && (h.shuttingDown <==> ShutdownBegins in events)
            && (h.oldDead <==> OldExits in events)
            && (h.newDead <==> ReplacementExits in events)
  {
    hide Step;
    if events != [] {
      var n := |events| - 1;
      LatchesAreEvents(c, now, events[..n]);
      LatchStep(c, Run(c, now, events[..n]), events[n]);
      assert events == events[..n] + [events[n]];
    }
  }

  lemma LatchStep(c: Config, h: Handover, e: Event)
    ensures var r := Step(c, h, e);
            && (r.shuttingDown <==> h.shuttingDown || e == ShutdownBegins)
            && (r.oldDead <==> h.oldDead || e == OldExits)
            && (r.newDead <==> h.newDead || e == ReplacementExits)
  {
  }

  /** The closure itself. */
  class Recycle {
    const cfg: Config
    const startedAt: int
    var replacementOnline: bool
    var drained: bool
    var drainFailsafeTimer: Option<int>
    var forceKillTimer: Option<int>
    var sigkillTimer: Option<int>
    /** worker.isDead() of the two workers, and the shutdown latch. */
    var oldDead: bool
    var newDead: bool
    var isShuttingDown: bool
    var forcedKills: nat
    ghost var drains: seq<DrainRecord>
    ghost var signals: seq<SentSignal>

    ghost function View(now: int): Handover
      reads this
    {
      Handover(startedAt, now, isShuttingDown, oldDead, newDead, replacementOnline, drained,
               drainFailsafeTimer, forceKillTimer, sigkillTimer, drains, signals)
    }

    constructor (cfg: Config, now: int)
      ensures this.cfg == cfg && View(now) == Begin(cfg, now) && forcedKills == 0
    {
      this.cfg, startedAt := cfg, now;
      replacementOnline, drained, oldDead, newDead, isShuttingDown := false, false, false, false, false;
      drainFailsafeTimer, forceKillTimer, sigkillTimer := Some(now + DrainBudget(cfg)), None, None;
      forcedKills, drains, signals := 0, [], [];
    }

    method DrainOldWorker(now: int, ghost cause: Cause)
      modifies this
      ensures View(now) == StartDrain(cfg, old(View(now)), cause) && forcedKills == old(forcedKills)
    {
      if drained { return; }
      drained := true;
      drainFailsafeTimer := None;
      drains := drains + [DrainRecord(now, cause, !oldDead)];
      forceKillTimer := if oldDead then None else Some(now + cfg.shutdown.timeoutMs);
    }

    method OnReplacementExit(now: int)
      modifies this
      ensures View(now) == Step(cfg, old(View(now)), ReplacementExits)
    {
      if newDead { return; }
      newDead := true;
      if drained || replacementOnline || isShuttingDown { return; }
      DrainOldWorker(now, Died);
    }

    method OnReplacementOnline(now: int)
      modifies this
      ensures View(now) == Step(cfg, old(View(now)), ReplacementOnline)
    {
      if newDead || replacementOnline { return; }
      replacementOnline := true;
      if isShuttingDown { return; }
      DrainOldWorker(now, CameOnline);
    }

    method OnFailsafe(now: int)
      requires Due(drainFailsafeTimer, now)
      modifies this
      ensures View(now) == Step(cfg, old(View(now)), FailsafeFires)
    {
      drainFailsafeTimer := None;
      if replacementOnline || isShuttingDown || oldDead { return; }
      DrainOldWorker(now, BudgetExpired);
    }

    method OnForceKill(now: int)
      requires Due(forceKillTimer, now)
      modifies this
      ensures View(now) == Step(cfg, old(View(now)), ForceKillFires)
    {
      forceKillTimer := None;
      if !oldDead && !isShuttingDown {
        signals := signals + [SentSignal(now, SIGTERM)];
        sigkillTimer := Some(now + cfg.shutdown.sigtermDelayMs + cfg.shutdown.sigintDelayMs);
      }
    }

    method OnSigkill(now: int)
      requires Due(sigkillTimer, now)
      modifies this
      ensures View(now) == Step(cfg, old(View(now)), SigkillFires)
      ensures forcedKills - old(forcedKills) == |signals| - |old(signals)|
    {
      sigkillTimer := None;
      if !oldDead && !isShuttingDown {
        signals := signals + [SentSignal(now, SIGKILL)];
        forcedKills := forcedKills + 1;
      }
    }

    method OnOldExit(ghost now: int)
      modifies this
      ensures View(now) == Step(cfg, old(View(now)), OldExits)
    {
      oldDead := true;
      forceKillTimer := None;
      sigkillTimer := None;
    }
  }
}
