/**
 * The fleet's counters, timers and flags are what the events of a run make them:
 * each is held against a reading of the history that does not mention it.
 */
module FleetHistory {
  import opened Wrappers
  import opened Config
  import opened CrashTracking
  import opened FleetModel
  import opened FleetSafety
  import opened FleetCapacity
  import opened FleetPacing

  ghost function After(c: Config, now: int, events: seq<Event>): Fleet {
    Run(c, Started(c, now), events)
  }

  // ------------------------------------------------------ what the engine keeps

  /** What the restart loop never touches. */
  ghost predicate EngineKeeps(k: Core, r: Core) {
    && r.now == k.now && r.shuttingDown == k.shuttingDown && r.crashes == k.crashes
    && r.engine.bootFailures == k.engine.bootFailures && r.engine.quarantined == k.engine.quarantined
    && r.engine.resetAt == k.engine.resetAt && r.books.accepted == k.books.accepted
    && r.pool.marks == k.pool.marks
  }

  lemma AttemptKeeps(c: Config, k: Core, e: Entry, delayMs: real, streak: nat, forkOk: bool)
    ensures var r := Attempt(c, k, e, delayMs, streak, forkOk); EngineKeeps(k, r) && r.books.issued == k.books.issued
  {
  }

  lemma LoopKeeps(c: Config, k: Core, forkOk: bool)
    ensures var r := Loop(c, k, forkOk); EngineKeeps(k, r) && r.books.issued == k.books.issued
  {
    hide Attempt, Tripped;
    var queue := k.engine.queue;
    if queue != [] {
      var rest := k.(engine := k.engine.(queue := queue[1..]));
      AttemptKeeps(c, rest, queue[0], Wait(c, rest.engine), rest.books.streak, forkOk);
    }
  }

  lemma RunnerKeeps(c: Config, k: Core, forkOk: bool)
    ensures var r := Wake(c, k, forkOk); EngineKeeps(k, r) && r.books.issued == k.books.issued
    ensures var r := Resume(c, k, forkOk); EngineKeeps(k, r) && r.books.issued == k.books.issued
    ensures var r := Kick(c, k, forkOk); EngineKeeps(k, r) && r.books.issued == k.books.issued
  {
    hide Attempt, Loop;
    LoopKeeps(c, k, forkOk);
    if k.engine.runner.Parked? {
      AttemptKeeps(c, k, k.engine.runner.entry, k.engine.runner.delayMs, k.books.parkedStreak, forkOk);
    }
  }

  lemma RefillKeeps(c: Config, k: Core, forkOk: bool)
    ensures var r := RequestRefill(c, k, forkOk);
            EngineKeeps(k, r) && r.books.issued == k.books.issued + Max(0, c.workers.count - k.pool.active)
  {
    hide Kick, EnqueueRefills;
    var count := Max(0, c.workers.count - k.pool.active);
    EnqueueRefillsKeeps(k, count);
    RunnerKeeps(c, EnqueueRefills(k, count), forkOk);
  }

  // ------------------------------------------------------------------ who is online

  /** The worker's online event came while it lived. */
  ghost predicate CameOnline(c: Config, now: int, events: seq<Event>, w: int) {
    exists j :: OnlineAt(c, now, events, w, j)
  }

  ghost predicate OnlineAt(c: Config, now: int, events: seq<Event>, w: int, j: int) {
    0 <= j < |events| && events[j] == Online(w) && w in Live(After(c, now, events[..j]))
  }

  lemma OnlineStep(c: Config, f: Fleet, e: Event, w: int)
    requires Safe(c, f)
    ensures var r := Step(c, f, e);
            && (w in r.online <==> w in Live(r) && (w in f.online || (e == Online(w) && w in Live(f))))
            && (w in Live(r) ==> w in Live(f) || w >= f.core.pool.nextId)
            && f.core.pool.nextId <= r.core.pool.nextId
  {
    hide Wake, Resume, RequestRefill, OnWorkerCrash, Serving, OnOnline, OnStable, OnExit, RollStep;
    match e
    case Exit(x, graceful, forkOk) => ExitOnline(c, f, x, graceful, forkOk, w);
    case WakeRunner(forkOk) => RunnerForks(c, f.core, forkOk);
    case ResumeRunner(forkOk) => RunnerForks(c, f.core, forkOk);
    case ResetBreaker(forkOk) => RefillForks(c, ResetEngine(f.core), forkOk);
    case AdvanceRoll(forkOk) => RollOnline(c, f, forkOk, w);
    case Online(x) => ComesOnlineOnly(c, f, x);
    case Stable => StableKeepsPool(f.core);
    case _ =>
  }

  lemma ComesOnlineOnly(c: Config, f: Fleet, x: int)
    ensures var r := OnOnline(c, f, x);
            r.core.pool == f.core.pool && r.online == if x in Live(f) then f.online + {x} else f.online
  {
  }

  lemma StableKeepsPool(k: Core)
    ensures OnStable(k).pool == k.pool && OnStable(k).now == k.now
  {
  }

  lemma RollOnline(c: Config, f: Fleet, forkOk: bool, w: int)
    requires Safe(c, f)
    ensures var r := RollStep(c, f, forkOk);
            && r.online == f.online && f.core.pool.nextId <= r.core.pool.nextId
            && (w in Live(f) ==> w in Live(r)) && (w in Live(r) ==> w in Live(f) || w >= f.core.pool.nextId)
  {
    hide RequestRefill, Serving;
    RefillForks(c, f.core, forkOk);
  }

  lemma ExitOnline(c: Config, f: Fleet, x: int, graceful: bool, forkOk: bool, w: int)
    requires Safe(c, f)
    ensures var r := OnExit(c, f, x, graceful, forkOk);
            && (w in r.online <==> w in Live(r) && w in f.online)
            && (w in Live(r) ==> w in Live(f) || w >= f.core.pool.nextId)
            && f.core.pool.nextId <= r.core.pool.nextId
  {
    hide OnWorkerCrash, Serving;
    var k := f.core.(pool := Cleanup(f.core.pool, x), engine := f.core.engine.(resetAt := None));
    CrashForks(c, k, x, x !in f.online, f.online - {x} != {}, forkOk);
  }

  /** On every run the online workers are the live ones whose online event has come. */
  lemma {:induction false} OnlineIff(c: Config, now: int, events: seq<Event>, w: int)
    requires ValidConfig(c)
    ensures w in After(c, now, events).online <==> w in Live(After(c, now, events)) && CameOnline(c, now, events, w)
    ensures CameOnline(c, now, events, w) ==> w < After(c, now, events).core.pool.nextId
  {
    hide Step, Started, Safe;
    if events == [] {
      NobodyOnline(c, now);
    } else {
      var n := |events| - 1;
      var init, e := events[..n], events[n];
      OnlineIff(c, now, init, w);
      RunSafe(c, now, init);
      OnlineStep(c, After(c, now, init), e, w);
      LiveBelowNext(c, After(c, now, init), w);
      CameOnlineNext(c, now, init, e, w);
      assert init + [e] == events;
    }
  }

  lemma NobodyOnline(c: Config, now: int)
    ensures Started(c, now).online == {}
  {
  }

  lemma LiveBelowNext(c: Config, f: Fleet, w: int)
    requires Safe(c, f)
    ensures w in Live(f) ==> w < f.core.pool.nextId
  {
  }

  lemma CameOnlineNext(c: Config, now: int, events: seq<Event>, e: Event, w: int)
    ensures CameOnline(c, now, events + [e], w)
            <==> CameOnline(c, now, events, w) || (e == Online(w) && w in Live(After(c, now, events)))
  {
    hide Run, Started;
    var n := |events|;
    var longer := events + [e];
    assert longer[..n] == events;
    if CameOnline(c, now, events, w) {
      var j :| OnlineAt(c, now, events, w, j);
      assert longer[..j] == events[..j];
      assert OnlineAt(c, now, longer, w, j);
    }
    if e == Online(w) && w in Live(After(c, now, events)) {
      assert OnlineAt(c, now, longer, w, n);
    }
    if CameOnline(c, now, longer, w) {
      var j :| OnlineAt(c, now, longer, w, j);
      if j < n {
        assert longer[..j] == events[..j];
        assert OnlineAt(c, now, events, w, j);
      }
    }
  }

  // ------------------------------------------------------- crashes and quarantine

  /** A live worker crashes outside shutdown. */
  predicate Crashes(f: Fleet, e: Event) {
    e.Exit? && !e.graceful && e.w in Live(f) && !f.core.shuttingDown
  }

  /** It never came online, others serve, and the quarantine is on. */
  predicate BootFails(c: Config, f: Fleet, e: Event) {
    Crashes(f, e) && e.w !in f.online && f.online - {e.w} != {} && c.restart.bootFailQuarantine > 0
  }

  /** The call starts a roll, and with it a fresh quarantine. */
  predicate StartsRoll(f: Fleet, e: Event) {
    e.RestartWorkers? && !f.core.shuttingDown && f.roll.NoRoll? && LegalTargets(f, e.targets)
  }

  predicate FirstOnline(f: Fleet, e: Event) {
    e.Online? && e.w in Live(f) && e.w !in f.online
  }

  /** Boot failures in a row: since a worker last came online or a roll last started. */
  ghost function BootRow(c: Config, now: int, events: seq<Event>): nat {
    if events == [] then 0
    else
      var init, e := events[..|events| - 1], events[|events| - 1];
      var f := After(c, now, init);
      if BootFails(c, f, e) then BootRow(c, now, init) + 1
      else if FirstOnline(f, e) || StartsRoll(f, e) then 0
      else BootRow(c, now, init)
  }

  /** This crash is the boot failure that gives its slot up. */
  ghost predicate GivesSlotUp(c: Config, now: int, events: seq<Event>, e: Event) {
    BootFails(c, After(c, now, events), e) && BootRow(c, now, events) + 1 >= c.restart.bootFailQuarantine
  }

  /** When the crashes since the last breaker reset happened, without those that gave a slot up. */
  ghost function CrashTimes(c: Config, now: int, events: seq<Event>): seq<int> {
    if events == [] then []
    else
      var init, e := events[..|events| - 1], events[|events| - 1];
      var f := After(c, now, init);
      if e.ResetBreaker? then []
      else if Crashes(f, e) && !GivesSlotUp(c, now, init, e) then CrashTimes(c, now, init) + [f.core.now]
      else CrashTimes(c, now, init)
  }

  /** The core that a crash finds once the worker is off the books. */
  function Left(f: Fleet, w: int): Core {
    f.core.(pool := Cleanup(f.core.pool, w), engine := f.core.engine.(resetAt := None))
  }

  lemma CrashKeeps(c: Config, k: Core, w: int, bootFailed: bool, hasOnline: bool, forkOk: bool)
    ensures var r := OnWorkerCrash(c, k, w, bootFailed, hasOnline, forkOk);
            var quarantined := Quarantines(c, k.engine, bootFailed, hasOnline);
            && r.books.issued == k.books.issued + 1
            && r.engine.bootFailures == NoteBootFailure(c, k.engine, bootFailed, hasOnline).bootFailures
            && r.engine.quarantined == k.engine.quarantined + (if quarantined then 1 else 0)
            && r.crashes == k.crashes + (if quarantined then [] else [k.now])
            && r.engine.resetAt == k.engine.resetAt && r.now == k.now && r.shuttingDown == k.shuttingDown
  {
    hide Kick, Tripped;
    RunnerKeeps(c, AcceptCrash(RecordCrash(c, k, bootFailed, hasOnline), w), forkOk);
  }

  /** How one event moves the counters. */
  lemma CountersStep(c: Config, f: Fleet, e: Event)
    ensures var r := Step(c, f, e).core; var k := f.core;
            var slot := BootFails(c, f, e) && k.engine.bootFailures + 1 >= c.restart.bootFailQuarantine;
            && r.engine.bootFailures == (if BootFails(c, f, e) then k.engine.bootFailures + 1
                                         else if FirstOnline(f, e) || StartsRoll(f, e) then 0
                                         else k.engine.bootFailures)
            && r.crashes == (if e.ResetBreaker? then []
                             else if Crashes(f, e) && !slot then k.crashes + [k.now] else k.crashes)
            && r.engine.quarantined == (if StartsRoll(f, e) then 0
                                        else k.engine.quarantined + if slot then 1 else 0)
  {
    hide Wake, Resume, RequestRefill, OnWorkerCrash;
    match e
    case Exit(w, graceful, forkOk) => CrashKeeps(c, Left(f, w), w, w !in f.online, f.online - {w} != {}, forkOk);
    case WakeRunner(forkOk) => RunnerKeeps(c, f.core, forkOk);
    case ResumeRunner(forkOk) => RunnerKeeps(c, f.core, forkOk);
    case ResetBreaker(forkOk) => RefillKeeps(c, ResetEngine(f.core), forkOk);
    case AdvanceRoll(forkOk) => RefillKeeps(c, f.core, forkOk);
    case _ =>
  }

  /** On every run the engine's counters are those of the history. */
  lemma {:induction false} CountersAreHistory(c: Config, now: int, events: seq<Event>)
    ensures var k := After(c, now, events).core;
            k.engine.bootFailures == BootRow(c, now, events) && k.crashes == CrashTimes(c, now, events)
  {
    hide Step;
    if events != [] {
      var n := |events| - 1;
      CountersAreHistory(c, now, events[..n]);
      CountersStep(c, After(c, now, events[..n]), events[n]);
    }
  }

  /** So many crashes in the window that ends now, with the one that happens now. */
  ghost predicate Trips(c: Config, now: int, events: seq<Event>) {
    var t := After(c, now, events).core.now;
    CountIn(CrashTimes(c, now, events) + [t], t - c.restart.crashWindowMs, t) >= c.restart.crashThreshold
  }

  /**
   * What becomes of a crash, on every run: it gives its slot up exactly if it is
   * at least the `bootFailQuarantine`-th boot failure in a row while others
   * serve; it is rejected exactly if otherwise the window now holds the threshold
   * of crashes; and it is accepted otherwise.
   */
  lemma {:induction false} CrashFate(c: Config, now: int, events: seq<Event>, e: Event)
    requires ValidConfig(c) && Crashes(After(c, now, events), e)
    ensures var f := After(c, now, events); var r := Step(c, f, e).core;
            var t := f.core.books.issued;
            var slot := GivesSlotUp(c, now, events, e);
            && r.books.issued == t + 1
            && (t in r.books.ledger && r.books.ledger[t] == Quarantined <==> slot)
            && (t in r.books.ledger && r.books.ledger[t] == RejectedByTrip <==> !slot && Trips(c, now, events))
            && r.books.accepted == f.core.books.accepted + (if slot || Trips(c, now, events) then [] else [f.core.now])
            && r.engine.quarantined == f.core.engine.quarantined + (if slot then 1 else 0)
  {
    hide Run, Started, CrashTimes, BootRow, Partition;
    CountersAreHistory(c, now, events);
    RunAccounts(c, now, events);
    var f := After(c, now, events);
    CrashOutcome(c, Left(f, e.w), e.w, e.w !in f.online, f.online - {e.w} != {}, e.forkOk);
  }

  lemma CrashOutcome(c: Config, k: Core, w: int, bootFailed: bool, hasOnline: bool, forkOk: bool)
    requires Partition(k.books, Pending(k.engine))
    ensures var r := OnWorkerCrash(c, k, w, bootFailed, hasOnline, forkOk);
            var t := k.books.issued;
            var slot := Quarantines(c, k.engine, bootFailed, hasOnline);
            var trips := InWindow(k.crashes + [k.now], c.restart.crashWindowMs, k.now) >= c.restart.crashThreshold;
            && r.books.issued == t + 1
            && (t in r.books.ledger && r.books.ledger[t] == Quarantined <==> slot)
            && (t in r.books.ledger && r.books.ledger[t] == RejectedByTrip <==> !slot && trips)
            && r.books.accepted == k.books.accepted + (if slot || trips then [] else [k.now])
            && r.engine.quarantined == k.engine.quarantined + (if slot then 1 else 0)
  {
    hide Kick, InWindow, Quarantines, NoteBootFailure;
    var s := RecordCrash(c, k, bootFailed, hasOnline);
    var q := AcceptCrash(s, w);
    assert k.books.issued !in k.books.ledger;
    CrashKeeps(c, k, w, bootFailed, hasOnline, forkOk);
    RunnerKeeps(c, q, forkOk);
    KickSettlesOnly(c, q, forkOk, k.books.issued);
  }

  /** The loop gives none of the fates that a crash meets at once. */
  lemma KickSettlesOnly(c: Config, k: Core, forkOk: bool, t: nat)
    requires t !in k.books.ledger
    ensures var r := Kick(c, k, forkOk).books;
            t in r.ledger ==> !r.ledger[t].Quarantined? && !r.ledger[t].RejectedByTrip?
  {
    hide Tripped, Attempt;
    var queue := k.engine.queue;
    if queue != [] {
      var rest := k.(engine := k.engine.(queue := queue[1..]));
      AttemptSettlesOnly(c, rest, queue[0], Wait(c, rest.engine), rest.books.streak, forkOk, t);
    }
  }

  lemma AttemptSettlesOnly(
    c: Config, k: Core, e: Entry, delayMs: real, streak: nat, forkOk: bool, t: nat)
    requires t !in k.books.ledger
    ensures var r := Attempt(c, k, e, delayMs, streak, forkOk).books;
            t in r.ledger ==> !r.ledger[t].Quarantined? && !r.ledger[t].RejectedByTrip?
  {
    hide Tripped, NextBackoff;
  }

  /** The event requests so many refills. */
  ghost function RefillsAsked(c: Config, f: Fleet, e: Event): nat {
    if (e.ResetBreaker? && !f.core.shuttingDown)
       || (e.AdvanceRoll? && f.roll.Rolling? && f.roll.phase.AtTop? && |f.roll.turns| >= |f.roll.targets|)
    then Max(0, c.workers.count - f.core.pool.active)
    else 0
  }

  /** Only crashes and refills are ever queued: the former one ticket each, the latter the missing active workers. */
  lemma TicketsIff(c: Config, f: Fleet, e: Event)
    ensures Step(c, f, e).core.books.issued
            == f.core.books.issued + (if Crashes(f, e) then 1 else 0) + RefillsAsked(c, f, e)
  {
    hide Wake, Resume, RequestRefill, OnWorkerCrash;
    match e
    case Exit(w, graceful, forkOk) => CrashKeeps(c, Left(f, w), w, w !in f.online, f.online - {w} != {}, forkOk);
    case WakeRunner(forkOk) => RunnerKeeps(c, f.core, forkOk);
    case ResumeRunner(forkOk) => RunnerKeeps(c, f.core, forkOk);
    case ResetBreaker(forkOk) => RefillKeeps(c, ResetEngine(f.core), forkOk);
    case AdvanceRoll(forkOk) => RefillKeeps(c, f.core, forkOk);
    case _ =>
  }

  // ------------------------------------------------------------ the backoff reset

  /** A worker comes online for the first time while there is a backoff to reset. */
  predicate Arms(f: Fleet, e: Event) {
    FirstOnline(f, e) && f.core.engine.backoffMs > 0.0
  }

  /** When the stability window that is running began. */
  ghost function StableSince(c: Config, now: int, events: seq<Event>): Option<int> {
    if events == [] then None
    else
      var init, e := events[..|events| - 1], events[|events| - 1];
      var f, since := After(c, now, init), StableSince(c, now, init);
      if Arms(f, e) then Some(f.core.now)
      else if Crashes(f, e) || (e.BeginShutdown? && !f.core.shuttingDown)
              || (e.Stable? && since.Some? && f.core.now >= since.value + c.restart.stabilityWindowMs) then None
      else since
  }

  function Deadline(since: Option<int>, windowMs: int): Option<int> {
    if since.None? then None else Some(since.value + windowMs)
  }

  lemma TimerStep(c: Config, f: Fleet, e: Event)
    requires c.restart.stabilityWindowMs > 0
    ensures var r := Step(c, f, e).core.engine; var g := f.core.engine;
            r.resetAt == (if Arms(f, e) then Some(f.core.now + c.restart.stabilityWindowMs)
                          else if Crashes(f, e) || (e.BeginShutdown? && !f.core.shuttingDown)
                                  || (e.Stable? && g.resetAt.Some? && f.core.now >= g.resetAt.value) then None
                          else g.resetAt)
  {
    hide Wake, Resume, RequestRefill, OnWorkerCrash;
    match e
    case Exit(w, graceful, forkOk) => CrashKeeps(c, Left(f, w), w, w !in f.online, f.online - {w} != {}, forkOk);
    case WakeRunner(forkOk) => RunnerKeeps(c, f.core, forkOk);
    case ResumeRunner(forkOk) => RunnerKeeps(c, f.core, forkOk);
    case ResetBreaker(forkOk) => RefillKeeps(c, ResetEngine(f.core), forkOk);
    case AdvanceRoll(forkOk) => RefillKeeps(c, f.core, forkOk);
    case _ =>
  }

  /** The clock never passes the stability timer. */
  lemma ClockStep(c: Config, f: Fleet, e: Event)
    requires f.core.engine.resetAt.Some? ==> f.core.now <= f.core.engine.resetAt.value
    ensures var r := Step(c, f, e).core; r.engine.resetAt.Some? && e.Tick? ==> r.now <= r.engine.resetAt.value
    ensures f.core.now <= Step(c, f, e).core.now && (!e.Tick? ==> Step(c, f, e).core.now == f.core.now)
  {
    hide Wake, Resume, RequestRefill, OnWorkerCrash;
    match e
    case Exit(w, graceful, forkOk) => CrashKeeps(c, Left(f, w), w, w !in f.online, f.online - {w} != {}, forkOk);
    case WakeRunner(forkOk) => RunnerKeeps(c, f.core, forkOk);
    case ResumeRunner(forkOk) => RunnerKeeps(c, f.core, forkOk);
    case ResetBreaker(forkOk) => RefillKeeps(c, ResetEngine(f.core), forkOk);
    case AdvanceRoll(forkOk) => RefillKeeps(c, f.core, forkOk);
    case _ =>
  }

  /**
   * On every run the stability timer is armed exactly if, since the last crash,
   * firing or shutdown, a live worker came online for the first time while there
   * was a backoff; it is due a whole window after the latest such, and time does
   * not pass it.
   */
  lemma {:induction false} StabilityTimerIff(c: Config, now: int, events: seq<Event>)
    requires ValidConfig(c) && c.restart.stabilityWindowMs > 0
    ensures var k := After(c, now, events).core;
            && k.engine.resetAt == Deadline(StableSince(c, now, events), c.restart.stabilityWindowMs)
            && (k.engine.resetAt.Some? ==> k.now <= k.engine.resetAt.value)
  {
    hide Step;
    if events != [] {
      var n := |events| - 1;
      StabilityTimerIff(c, now, events[..n]);
      TimerStep(c, After(c, now, events[..n]), events[n]);
      ClockStep(c, After(c, now, events[..n]), events[n]);
    }
  }

  /** The event resets the backoff. */
  predicate Resets(c: Config, f: Fleet, e: Event) {
    || e.ResetBreaker?
    || (e.Stable? && !f.core.shuttingDown && f.core.engine.resetAt.Some? && f.core.now >= f.core.engine.resetAt.value)
    || (c.restart.stabilityWindowMs == 0 && FirstOnline(f, e))
  }

  /**
   * On every run a backoff goes back to nothing exactly by a breaker reset, by
   * the stability timer outside shutdown, or, with no window, by a worker that
   * comes online; the next wait is `backoffMs` then.
   */
  lemma {:induction false} BackoffResetsIff(c: Config, now: int, events: seq<Event>, e: Event)
    requires ValidConfig(c) && After(c, now, events).core.engine.backoffMs > 0.0
    ensures var f := After(c, now, events); var r := Step(c, f, e).core.engine;
            && (r.backoffMs == 0.0 <==> Resets(c, f, e))
            && (r.backoffMs == 0.0 ==> Wait(c, r) == c.restart.backoffMs)
  {
    hide Run, Started, Step, BackoffOk;
    RunBackoff(c, now, events);
    BackoffStep(c, After(c, now, events), e);
  }

  lemma BackoffStep(c: Config, f: Fleet, e: Event)
    requires ValidConfig(c) && BackoffOk(c, f.core) && f.core.engine.backoffMs > 0.0
    ensures Step(c, f, e).core.engine.backoffMs == 0.0 <==> Resets(c, f, e)
  {
    hide Wake, Resume, RequestRefill, OnWorkerCrash, BackoffAfter;
    BackoffMeansWait(c, f.core);
    match e
    case Exit(w, graceful, forkOk) => CrashBacksOff(c, Left(f, w), w, w !in f.online, f.online - {w} != {}, forkOk);
    case WakeRunner(forkOk) => RunnerBacksOff(c, f.core, forkOk);
    case ResumeRunner(forkOk) => RunnerBacksOff(c, f.core, forkOk);
    case ResetBreaker(forkOk) => RefillBacksOff(c, ResetEngine(f.core), forkOk);
    case AdvanceRoll(forkOk) => RefillBacksOff(c, f.core, forkOk);
    case _ =>
  }

  /** There is a backoff only if the configuration has one. */
  lemma BackoffMeansWait(c: Config, k: Core)
    requires ValidConfig(c) && BackoffOk(c, k) && k.engine.backoffMs > 0.0
    ensures c.restart.backoffMs > 0.0
  {
    if c.restart.backoffMs == 0.0 { NoBackoff(c, k.books.streak); }
  }

  lemma {:induction false} NoBackoff(c: Config, n: nat)
    requires ValidConfig(c) && c.restart.backoffMs == 0.0
    ensures Uncapped(c, n) == 0.0 && BackoffAfter(c, n) == 0.0
  {
    if n > 0 { NoBackoff(c, n - 1); }
  }

  lemma NextIsPositive(c: Config, delayMs: real)
    requires ValidConfig(c) && delayMs > 0.0
    ensures NextBackoff(c, delayMs) > 0.0
  {
    MulAtLeast(delayMs, c.restart.backoffMultiplier);
  }

  lemma LoopBacksOff(c: Config, k: Core, forkOk: bool)
    requires ValidConfig(c) && c.restart.backoffMs > 0.0
    ensures Loop(c, k, forkOk).engine.backoffMs == k.engine.backoffMs
  {
  }

  /** Apart from a reset the loop leaves the backoff or makes it positive. */
  lemma RunnerBacksOff(c: Config, k: Core, forkOk: bool)
    requires ValidConfig(c) && BackoffOk(c, k) && c.restart.backoffMs > 0.0
    ensures var r := Wake(c, k, forkOk).engine; r.backoffMs == k.engine.backoffMs || r.backoffMs > 0.0
    ensures Resume(c, k, forkOk).engine.backoffMs == Kick(c, k, forkOk).engine.backoffMs == k.engine.backoffMs
  {
    hide Loop, NextBackoff, BackoffAfter;
    LoopBacksOff(c, k, forkOk);
    if k.engine.runner.Parked? {
      NextIsPositive(c, k.engine.runner.delayMs);
    }
  }

  lemma KickBacksOff(c: Config, k: Core, forkOk: bool)
    requires ValidConfig(c) && c.restart.backoffMs > 0.0
    ensures Kick(c, k, forkOk).engine.backoffMs == k.engine.backoffMs
  {
    hide Loop;
    LoopBacksOff(c, k, forkOk);
  }

  lemma RefillBacksOff(c: Config, k: Core, forkOk: bool)
    requires ValidConfig(c) && c.restart.backoffMs > 0.0
    ensures RequestRefill(c, k, forkOk).engine.backoffMs == k.engine.backoffMs
  {
    hide Kick, EnqueueRefills;
    var count := Max(0, c.workers.count - k.pool.active);
    EnqueueRefillsKeeps(k, count);
    KickBacksOff(c, EnqueueRefills(k, count), forkOk);
  }

  lemma CrashBacksOff(c: Config, k: Core, w: int, bootFailed: bool, hasOnline: bool, forkOk: bool)
    requires ValidConfig(c) && c.restart.backoffMs > 0.0
    ensures OnWorkerCrash(c, k, w, bootFailed, hasOnline, forkOk).engine.backoffMs == k.engine.backoffMs
  {
    hide Kick, Tripped;
    KickBacksOff(c, AcceptCrash(RecordCrash(c, k, bootFailed, hasOnline), w), forkOk);
  }

  /** The event disturbs a running stability window: it cancels it, or starts it over. */
  predicate Disturbs(f: Fleet, e: Event) {
    Arms(f, e) || Crashes(f, e) || e.BeginShutdown?
  }

  /** The stability timer fires at `at`, after `j` events of `rest`, and the backoff is gone. */
  ghost predicate FiresAt(c: Config, now: int, events: seq<Event>, rest: seq<Event>, j: int, at: int) {
    && 0 <= j < |rest| && rest[j].Stable? && After(c, now, events + rest[..j]).core.now == at
    && After(c, now, events + rest[..j + 1]).core.engine.backoffMs == 0.0
  }

  ghost predicate Fired(c: Config, now: int, events: seq<Event>, rest: seq<Event>, at: int) {
    exists j :: FiresAt(c, now, events, rest, j, at)
  }

  /** No event of `rest`, after `events`, disturbs the window. */
  ghost predicate Undisturbed(c: Config, now: int, events: seq<Event>, rest: seq<Event>) {
    forall i | 0 <= i < |rest| :: !Disturbs(After(c, now, events + rest[..i]), rest[i])
  }

  /**
   * A window without a crash brings the first wait back: from a worker that came
   * online while there was a backoff, if neither crash nor shutdown nor another
   * such worker comes within the window, then once time has passed it the backoff
   * was reset, exactly at its end.
   */
  lemma {:induction false} QuietWindowResets(c: Config, now: int, events: seq<Event>, rest: seq<Event>)
    requires ValidConfig(c) && c.restart.stabilityWindowMs > 0
    requires StableSince(c, now, events).Some? && !After(c, now, events).core.shuttingDown
    requires Undisturbed(c, now, events, rest)
    ensures var end := StableSince(c, now, events).value + c.restart.stabilityWindowMs;
            After(c, now, events + rest).core.now > end ==> Fired(c, now, events, rest, end)
  {
    hide After, StableSince, Undisturbed, Fired;
    QuietWindow(c, now, events, rest);
    StabilityTimerIff(c, now, events + rest);
  }

  /** The window still runs, or has fired. */
  lemma {:induction false} QuietWindow(c: Config, now: int, events: seq<Event>, rest: seq<Event>)
    requires ValidConfig(c) && c.restart.stabilityWindowMs > 0
    requires StableSince(c, now, events).Some? && !After(c, now, events).core.shuttingDown
    requires Undisturbed(c, now, events, rest)
    ensures var since := StableSince(c, now, events);
            && !After(c, now, events + rest).core.shuttingDown
            && (StableSince(c, now, events + rest) == since
                || Fired(c, now, events, rest, since.value + c.restart.stabilityWindowMs))
  {
    hide After, StableSince, Undisturbed, Fired;
    if rest == [] {
      assert events + rest == events;
    } else {
      var n := |rest| - 1;
      assert rest[..n] + [rest[n]] == rest;
      UndisturbedInit(c, now, events, rest[..n], rest[n]);
      QuietWindow(c, now, events, rest[..n]);
      QuietWindowNext(c, now, events, rest[..n], rest[n]);
    }
  }

  lemma UndisturbedInit(c: Config, now: int, events: seq<Event>, rest: seq<Event>, e: Event)
    requires Undisturbed(c, now, events, rest + [e])
    ensures Undisturbed(c, now, events, rest) && !Disturbs(After(c, now, events + rest), e)
  {
    hide After, Disturbs;
    var longer := rest + [e];
    assert longer[..|rest|] == rest && longer[|rest|] == e;
    assert forall i | 0 <= i < |rest| :: longer[..i] == rest[..i] && longer[i] == rest[i];
  }

  lemma QuietWindowNext(c: Config, now: int, events: seq<Event>, rest: seq<Event>, e: Event)
    requires ValidConfig(c) && c.restart.stabilityWindowMs > 0
    requires StableSince(c, now, events).Some? && !After(c, now, events + rest).core.shuttingDown
    requires !Disturbs(After(c, now, events + rest), e)
    requires var since := StableSince(c, now, events);
             StableSince(c, now, events + rest) == since
             || Fired(c, now, events, rest, since.value + c.restart.stabilityWindowMs)
    ensures var since := StableSince(c, now, events);
            && !After(c, now, events + (rest + [e])).core.shuttingDown
            && (StableSince(c, now, events + (rest + [e])) == since
                || Fired(c, now, events, rest + [e], since.value + c.restart.stabilityWindowMs))
  {
    hide After, StableSince, Disturbs, Step;
    var init, since := events + rest, StableSince(c, now, events);
    var at := since.value + c.restart.stabilityWindowMs;
    assert events + (rest + [e]) == init + [e];
    AfterNext(c, now, init, e);
    QuietStep(c, After(c, now, init), e);
    if Fired(c, now, events, rest, at) {
      StaysFired(c, now, events, rest, e, at);
    } else {
      StableNext(c, now, init, e);
      StabilityTimerIff(c, now, init);
      assert (rest + [e])[..|rest|] == rest && (rest + [e])[..|rest| + 1] == rest + [e];
      if StableSince(c, now, init + [e]) != since {
        assert FiresAt(c, now, events, rest + [e], |rest|, at);
      }
    }
  }

  lemma StaysFired(c: Config, now: int, events: seq<Event>, rest: seq<Event>, e: Event, at: int)
    requires Fired(c, now, events, rest, at)
    ensures Fired(c, now, events, rest + [e], at)
  {
    hide After;
    var j :| FiresAt(c, now, events, rest, j, at);
    assert (rest + [e])[..j] == rest[..j] && (rest + [e])[..j + 1] == rest[..j + 1];
    assert FiresAt(c, now, events, rest + [e], j, at);
  }

  lemma AfterNext(c: Config, now: int, events: seq<Event>, e: Event)
    ensures After(c, now, events + [e]) == Step(c, After(c, now, events), e)
  {
    RunNext(c, Started(c, now), events, e);
  }

  /** Undisturbed, the window ends only by its timer. */
  lemma StableNext(c: Config, now: int, events: seq<Event>, e: Event)
    requires StableSince(c, now, events).Some? && !Disturbs(After(c, now, events), e)
    ensures var since := StableSince(c, now, events);
            StableSince(c, now, events + [e])
            == if e.Stable? && After(c, now, events).core.now >= since.value + c.restart.stabilityWindowMs then None
               else since
  {
    hide Run;
    assert (events + [e])[..|events|] == events;
  }

  lemma QuietStep(c: Config, f: Fleet, e: Event)
    requires !f.core.shuttingDown && !Disturbs(f, e)
    ensures !Step(c, f, e).core.shuttingDown
    ensures e.Stable? && f.core.engine.resetAt.Some? && f.core.now >= f.core.engine.resetAt.value ==>
              Step(c, f, e).core.engine.backoffMs == 0.0
  {
    hide Step;
    ShutdownOnlyByRequest(c, f, e);
    if e.Stable? { StableResets(c, f); }
  }

  lemma StableResets(c: Config, f: Fleet)
    requires !f.core.shuttingDown
    ensures f.core.engine.resetAt.Some? && f.core.now >= f.core.engine.resetAt.value ==>
              Step(c, f, Stable).core.engine.backoffMs == 0.0
  {
  }

  // ----------------------------------------------------------- failures in a row

  /** The event forks a worker other than for a recycle. */
  ghost predicate Forks(f: Fleet, e: Event, r: Fleet) {
    r.core.pool.nextId > f.core.pool.nextId && !e.Recycle? && !e.StaggerFires?
  }

  /** Its fork fails: the restart loop's, or that of a roll turn. */
  ghost predicate ForkFails(f: Fleet, e: Event, r: Fleet) {
    || (r.core.books.attempts > f.core.books.attempts && !Forks(f, e, r))
    || (e.AdvanceRoll? && !e.forkOk && TurnForks(f))
  }

  ghost function FailuresInARow(c: Config, now: int, events: seq<Event>): nat {
    if events == [] then 0
    else
      var init, e := events[..|events| - 1], events[|events| - 1];
      var f, r := After(c, now, init), After(c, now, events);
      var before := if e.ResetBreaker? then 0 else FailuresInARow(c, now, init);
      if Forks(f, e, r) then 0 else if ForkFails(f, e, r) then before + 1 else before
  }

  /** How the engine counts: a fork forgets, a failed attempt adds one. */
  ghost predicate CountsRight(k: Core, r: Core) {
    && k.pool.nextId <= r.pool.nextId && k.books.attempts <= r.books.attempts
    && r.engine.forkFailures == (if r.pool.nextId > k.pool.nextId then 0
                                 else k.engine.forkFailures + if r.books.attempts > k.books.attempts then 1 else 0)
  }

  lemma AttemptCounts(c: Config, k: Core, e: Entry, delayMs: real, streak: nat, forkOk: bool)
    ensures CountsRight(k, Attempt(c, k, e, delayMs, streak, forkOk))
  {
  }

  lemma RunnerCounts(c: Config, k: Core, forkOk: bool)
    ensures CountsRight(k, Wake(c, k, forkOk)) && CountsRight(k, Resume(c, k, forkOk))
    ensures CountsRight(k, Kick(c, k, forkOk))
  {
    hide Attempt, Tripped, Settle;
    var queue := k.engine.queue;
    if k.engine.runner.Parked? {
      AttemptCounts(c, k, k.engine.runner.entry, k.engine.runner.delayMs, k.books.parkedStreak, forkOk);
    } else if queue != [] {
      var rest := k.(engine := k.engine.(queue := queue[1..]));
      AttemptCounts(c, rest, queue[0], Wait(c, rest.engine), rest.books.streak, forkOk);
    }
  }

  lemma RefillCounts(c: Config, k: Core, forkOk: bool)
    ensures CountsRight(k, RequestRefill(c, k, forkOk))
  {
    hide Kick, EnqueueRefills;
    var count := Max(0, c.workers.count - k.pool.active);
    EnqueueRefillsKeeps(k, count);
    RunnerCounts(c, EnqueueRefills(k, count), forkOk);
  }

  lemma CrashCounts(c: Config, k: Core, w: int, bootFailed: bool, hasOnline: bool, forkOk: bool)
    ensures CountsRight(k, OnWorkerCrash(c, k, w, bootFailed, hasOnline, forkOk))
  {
    hide Kick, Tripped;
    RunnerCounts(c, AcceptCrash(RecordCrash(c, k, bootFailed, hasOnline), w), forkOk);
  }

  lemma FailuresStep(c: Config, f: Fleet, e: Event)
    ensures var r := Step(c, f, e);
            var before := if e.ResetBreaker? then 0 else f.core.engine.forkFailures;
            r.core.engine.forkFailures
            == if Forks(f, e, r) then 0 else if ForkFails(f, e, r) then before + 1 else before
  {
    hide Wake, Resume, RequestRefill, OnWorkerCrash;
    match e
    case Exit(w, graceful, forkOk) => CrashCounts(c, Left(f, w), w, w !in f.online, f.online - {w} != {}, forkOk);
    case WakeRunner(forkOk) => RunnerCounts(c, f.core, forkOk);
    case ResumeRunner(forkOk) => RunnerCounts(c, f.core, forkOk);
    case ResetBreaker(forkOk) => RefillCounts(c, ResetEngine(f.core), forkOk);
    case AdvanceRoll(forkOk) => RefillCounts(c, f.core, forkOk);
    case _ =>
  }

  /**
   * On every run the failures on count are the forks, of restarts and of roll
   * turns, that have failed since the last that did not or a breaker reset.
   */
  lemma {:induction false} FailuresAreHistory(c: Config, now: int, events: seq<Event>)
    ensures After(c, now, events).core.engine.forkFailures == FailuresInARow(c, now, events)
  {
    hide Step, Forks, ForkFails;
    if events != [] {
      var n := |events| - 1;
      FailuresAreHistory(c, now, events[..n]);
      FailuresStep(c, After(c, now, events[..n]), events[n]);
    }
  }

  // --------------------------------------------------------------- ages and rolls

  /** When the worker with this id was forked. */
  ghost function ForkedAt(c: Config, now: int, events: seq<Event>, w: int): int {
    if events == [] then now
    else
      var init := events[..|events| - 1];
      var f := After(c, now, init);
      if f.core.pool.nextId <= w < After(c, now, events).core.pool.nextId then f.core.now else ForkedAt(c, now, init, w)
  }

  lemma StartedKept(c: Config, f: Fleet, e: Event, w: int)
    requires Safe(c, f)
    ensures var r := Step(c, f, e);
            w in Live(r) ==>
              r.core.pool.started[w] == if w in Live(f) then f.core.pool.started[w] else f.core.now
  {
    hide Wake, Resume, RequestRefill, OnWorkerCrash, Serving, OnOnline, OnStable;
    match e
    case Exit(x, graceful, forkOk) => CrashForks(c, Left(f, x), x, x !in f.online, f.online - {x} != {}, forkOk);
    case WakeRunner(forkOk) => RunnerForks(c, f.core, forkOk);
    case ResumeRunner(forkOk) => RunnerForks(c, f.core, forkOk);
    case ResetBreaker(forkOk) => RefillForks(c, ResetEngine(f.core), forkOk);
    case AdvanceRoll(forkOk) => RefillForks(c, f.core, forkOk);
    case Online(x) => ComesOnlineOnly(c, f, x);
    case Stable => StableKeepsPool(f.core);
    case _ =>
  }

  /** On every run a live worker's start time is when it was forked. */
  lemma {:induction false} StartIsFork(c: Config, now: int, events: seq<Event>, w: int)
    requires ValidConfig(c)
    ensures var f := After(c, now, events);
            w in Live(f) ==> f.core.pool.started[w] == ForkedAt(c, now, events, w) && w < f.core.pool.nextId
  {
    hide Step, Safe;
    if events == [] {
      FirstStart(c, now, w);
    } else {
      var n := |events| - 1;
      StartIsFork(c, now, events[..n], w);
      RunSafe(c, now, events[..n]);
      StartedKept(c, After(c, now, events[..n]), events[n], w);
      OnlineStep(c, After(c, now, events[..n]), events[n], w);
      RunSafe(c, now, events);
      LiveBelowNext(c, After(c, now, events), w);
    }
  }

  lemma {:induction false} FirstStart(c: Config, now: int, w: int)
    ensures var p := Started(c, now).core.pool; w in p.started ==> p.started[w] == now && w < p.nextId
  {
    FirstForks(now, Max(0, c.workers.count), w);
  }

  lemma {:induction false} FirstForks(now: int, count: nat, w: int)
    ensures var p := ForkMany(Pool(map[], 1, {}, {}, 0), now, count);
            w in p.started ==> p.started[w] == now && w < p.nextId
  {
    if count > 0 { FirstForks(now, count - 1, w); }
  }

  /** On every run a sweep marks and stages exactly the unmarked live workers forked more than `maxAgeMs` ago. */
  lemma {:induction false} SweepMarksIff(c: Config, now: int, events: seq<Event>, w: int)
    requires ValidConfig(c)
    ensures var f := After(c, now, events); var r := Step(c, f, Sweep);
            var aged := w in Live(f) && w !in f.core.pool.marks
                        && f.core.now - ForkedAt(c, now, events, w) > c.workers.maxAgeMs;
            && (w in r.core.pool.marks - f.core.pool.marks <==> !f.core.shuttingDown && c.workers.maxAgeMs > 0 && aged)
            && (w in r.core.pool.staged <==> w in f.core.pool.staged || w in r.core.pool.marks - f.core.pool.marks)
            && Live(r) == Live(f) && r.core.pool.nextId == f.core.pool.nextId
  {
    hide Run, Started, ForkedAt;
    StartIsFork(c, now, events, w);
    RunSafe(c, now, events);
  }

  /** A hot restart is taken up exactly outside shutdown when no roll is running, and changes nothing otherwise. */
  lemma RestartStartsRollIff(c: Config, f: Fleet, targets: seq<int>, staggerMs: int)
    requires LegalTargets(f, targets)
    ensures var r := Step(c, f, RestartWorkers(targets, staggerMs));
            && (f.core.shuttingDown || f.roll.Rolling? ==> r == f)
            && (!f.core.shuttingDown && f.roll.NoRoll? ==>
                  && r.roll == Rolling(targets, [], [], AtTop, staggerMs, f.core.now)
                  && r.core.engine.quarantined == 0 && r.core.pool == f.core.pool)
  {
  }
}
