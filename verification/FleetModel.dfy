/**
 * The worker supervisor as a transition system. Every stretch of code between
 * two awaits or timer callbacks is one event; the environment picks the order.
 * An event whose handler is not armed leaves the fleet as it is.
 */
module FleetModel {
  import opened Wrappers
  import opened Config
  import opened CrashTracking
  import Drain

  const MAX_CONSECUTIVE_FORK_FAILURES := 3

  // ---------------------------------------------------------------- workers

  /**
   * The books of the worker manager. A worker lives from its fork to its exit
   * event; `staged` holds the recycled workers whose replacement is still due.
   */
  datatype Pool = Pool(
    started: map<int, int>, nextId: int, marks: set<int>, staged: set<int>, active: int)

  function Fork(p: Pool, now: int): Pool {
    p.(started := p.started[p.nextId := now], nextId := p.nextId + 1, active := p.active + 1)
  }

  function Cleanup(p: Pool, w: int): Pool {
    p.(started := p.started - {w}, marks := p.marks - {w}, staged := p.staged - {w}, active := Max(0, p.active - 1))
  }

  function Mark(p: Pool, w: int): Pool {
    p.(marks := p.marks + {w})
  }

  function Unmark(p: Pool, w: int): Pool {
    p.(marks := p.marks - {w})
  }

  function Settled(p: Pool): int {
    p.active - |p.marks|
  }

  // --------------------------------------------------------- restart engine

  /** A pending restart; the ticket is the identity of the queued object. */
  datatype Entry = Refill(ticket: nat) | Crash(ticket: nat, workerId: int)

  datatype Outcome =
    | Restarted | AtCapacity | Quarantined
    | RejectedByTrip | ByBreaker | ByShutdown | ByGiveUp

  /** Where the restart loop is suspended: not running, in its backoff wait, or back from a restart. */
  datatype Runner = Idle | Parked(entry: Entry, delayMs: real) | Looping

  datatype Engine = Engine(
    queue: seq<Entry>, runner: Runner, backoffMs: real, resetAt: Option<int>,
    forkFailures: nat, bootFailures: nat, quarantined: nat)

  /**
   * History that no code reads: the fate of every ticket, the crashes accepted
   * since the last reset, fork attempts of the restart loop, successful forks
   * since the last backoff reset (now, and when the parked wait was captured),
   * quarantined slots that a hot restart forgot, and the failed forks by ticket:
   * all, those since the failures were last forgotten, and how often they were.
   */
  datatype Books = Books(
    issued: nat, ledger: map<nat, Outcome>, accepted: seq<int>,
    attempts: nat, streak: nat, parkedStreak: nat, forgotten: nat,
    failed: multiset<nat>, since: multiset<nat>, resets: nat)

  const NO_BOOKS := Books(0, map[], [], 0, 0, 0, 0, multiset{}, multiset{}, 0)

  datatype Core = Core(
    now: int, shuttingDown: bool, pool: Pool, crashes: seq<int>, engine: Engine, books: Books)

  ghost predicate Tripped(c: Config, k: Core) {
    InWindow(k.crashes, c.restart.crashWindowMs, k.now) >= c.restart.crashThreshold
  }

  function Tickets(queue: seq<Entry>): set<nat> {
    set e | e in queue :: e.ticket
  }

  function Settle(b: Books, queue: seq<Entry>, outcome: Outcome): (r: Books)
    ensures r == b.(ledger := r.ledger)
  {
    b.(ledger := b.ledger + map t | t in Tickets(queue) :: outcome)
  }

  function Issue(b: Books, outcome: Outcome): Books {
    b.(issued := b.issued + 1, ledger := b.ledger[b.issued := outcome])
  }

  function NoteFailure(b: Books, ticket: nat): Books {
    b.(failed := b.failed + multiset{ticket}, since := b.since + multiset{ticket})
  }

  /** The failure count goes back to zero. */
  function ForgetFailures(b: Books): Books {
    b.(since := multiset{}, resets := if b.since == multiset{} then b.resets else b.resets + 1)
  }

  function RealMin(a: real, b: real): real {
    if a <= b then a else b
  }

  function Wait(c: Config, g: Engine): real {
    if g.backoffMs > 0.0 then g.backoffMs else c.restart.backoffMs
  }

  function NextBackoff(c: Config, delayMs: real): real {
    RealMin(if delayMs > 0.0 then delayMs * c.restart.backoffMultiplier else c.restart.backoffMs,
            c.restart.maxBackoffMs)
  }

  /** The loop ends by dropping everything that is queued. */
  function DropQueue(k: Core, outcome: Outcome): Core {
    k.(engine := k.engine.(queue := [], runner := Idle), books := Settle(k.books, k.engine.queue, outcome))
  }

  /** The loop runs until it suspends or ends; capacity cannot change before its first fork. */
  ghost function Loop(c: Config, k: Core, forkOk: bool): Core {
    var queue := k.engine.queue;
    if queue == [] then k.(engine := k.engine.(runner := Idle))
    else if k.shuttingDown then DropQueue(k, ByShutdown)
    else if Tripped(c, k) then DropQueue(k, ByBreaker)
    else if Settled(k.pool) >= c.workers.count then DropQueue(k, AtCapacity)
    else BeginRestart(c, k.(engine := k.engine.(queue := queue[1..])), queue[0], forkOk)
  }

  ghost function BeginRestart(c: Config, k: Core, e: Entry, forkOk: bool): Core {
    var delayMs := Wait(c, k.engine);
    if delayMs > 0.0 then
      k.(engine := k.engine.(runner := Parked(e, delayMs)), books := k.books.(parkedStreak := k.books.streak))
    else Attempt(c, k, e, delayMs, k.books.streak, forkOk)
  }

  /** After the wait: the last breaker check, then the fork. */
  ghost function Attempt(c: Config, k: Core, e: Entry, delayMs: real, streak: nat, forkOk: bool): Core {
    var g := k.engine.(runner := Looping);
    var b := k.books.(attempts := k.books.attempts + 1);
    if Tripped(c, k) then k.(engine := g, books := Settle(k.books, [e], ByBreaker))
    else if forkOk then
      k.(pool := Fork(k.pool, k.now),
         engine := g.(forkFailures := 0, backoffMs := NextBackoff(c, delayMs)),
         books := Settle(ForgetFailures(b.(streak := streak + 1)), [e], Restarted))
    else if g.forkFailures + 1 >= MAX_CONSECUTIVE_FORK_FAILURES then
      k.(engine := g.(forkFailures := g.forkFailures + 1, queue := []),
         books := Settle(NoteFailure(b, e.ticket), [e] + g.queue, ByGiveUp))
    else
      k.(engine := g.(forkFailures := g.forkFailures + 1, queue := g.queue + [e]), books := NoteFailure(b, e.ticket))
  }

  ghost function Wake(c: Config, k: Core, forkOk: bool): Core {
    if !k.engine.runner.Parked? then k
    else
      var e := k.engine.runner.entry;
      if k.shuttingDown then
        k.(engine := k.engine.(runner := Looping), books := Settle(k.books, [e], ByShutdown))
      else Attempt(c, k, e, k.engine.runner.delayMs, k.books.parkedStreak, forkOk)
  }

  ghost function Resume(c: Config, k: Core, forkOk: bool): Core {
    if k.engine.runner.Looping? then Loop(c, k, forkOk) else k
  }

  ghost function Kick(c: Config, k: Core, forkOk: bool): Core {
    if k.engine.runner.Idle? then Loop(c, k, forkOk) else k
  }

  function Enqueue(k: Core, e: Entry): Core {
    k.(engine := k.engine.(queue := k.engine.queue + [e]), books := k.books.(issued := k.books.issued + 1))
  }

  function EnqueueRefills(k: Core, count: nat): Core {
    if count == 0 then k
    else
      var rest := EnqueueRefills(k, count - 1);
      Enqueue(rest, Refill(rest.books.issued))
  }

  ghost function RequestRefill(c: Config, k: Core, forkOk: bool): Core {
    Kick(c, EnqueueRefills(k, Max(0, c.workers.count - k.pool.active)), forkOk)
  }

  /** A boot failure counts only while the rest of the fleet serves and the guard is on. */
  predicate Counted(c: Config, bootFailed: bool, hasOnline: bool) {
    bootFailed && c.restart.bootFailQuarantine > 0 && hasOnline
  }

  function NoteBootFailure(c: Config, g: Engine, bootFailed: bool, hasOnline: bool): Engine {
    if Counted(c, bootFailed, hasOnline) then g.(bootFailures := g.bootFailures + 1) else g
  }

  predicate Quarantines(c: Config, g: Engine, bootFailed: bool, hasOnline: bool) {
    Counted(c, bootFailed, hasOnline) && g.bootFailures + 1 >= c.restart.bootFailQuarantine
  }

  function RecordCrash(c: Config, k: Core, bootFailed: bool, hasOnline: bool): Core {
    k.(engine := NoteBootFailure(c, k.engine, bootFailed, hasOnline), crashes := k.crashes + [k.now])
  }

  function AcceptCrash(k: Core, w: int): Core {
    Enqueue(k.(books := k.books.(accepted := k.books.accepted + [k.now])), Crash(k.books.issued, w))
  }

  ghost function OnWorkerCrash(
    c: Config, k: Core, w: int, bootFailed: bool, hasOnline: bool, forkOk: bool): Core
  {
    if Quarantines(c, k.engine, bootFailed, hasOnline) then
      var g := NoteBootFailure(c, k.engine, bootFailed, hasOnline);
      k.(engine := g.(quarantined := g.quarantined + 1), books := Issue(k.books, Quarantined))
    else
      var r := RecordCrash(c, k, bootFailed, hasOnline);
      if Tripped(c, r) then r.(books := Issue(r.books, RejectedByTrip)) else Kick(c, AcceptCrash(r, w), forkOk)
  }

  function ResetBackoff(k: Core): Core {
    k.(engine := k.engine.(backoffMs := 0.0), books := k.books.(streak := 0))
  }

  function OnWorkerOnline(c: Config, k: Core): Core {
    var r := k.(engine := k.engine.(bootFailures := 0));
    if k.engine.backoffMs <= 0.0 then r
    else if c.restart.stabilityWindowMs == 0 then ResetBackoff(r)
    else r.(engine := r.engine.(resetAt := Some(k.now + c.restart.stabilityWindowMs)))
  }

  function OnStable(k: Core): Core {
    if k.engine.resetAt.None? || k.now < k.engine.resetAt.value then k
    else
      var r := k.(engine := k.engine.(resetAt := None));
      if k.shuttingDown || k.engine.backoffMs == 0.0 then r else ResetBackoff(r)
  }

  function ResetEngine(k: Core): Core {
    var r := ResetBackoff(k);
    r.(crashes := [], engine := r.engine.(forkFailures := 0), books := ForgetFailures(r.books.(accepted := [])))
  }

  function ResetQuarantine(k: Core): Core {
    k.(engine := k.engine.(quarantined := 0, bootFailures := 0),
       books := k.books.(forgotten := k.books.forgotten + k.engine.quarantined))
  }

  // ------------------------------------------------------------------ rolls

  datatype Turn = Skipped(worker: int) | ForkFailed(worker: int) | Replaced(worker: int, replacement: int)

  /** Where a roll is suspended. Between turns nothing else may delay it. */
  datatype Phase = AtTop | AwaitingExit(killAt: int) | Killed(until: int) | Staggering(until: int)

  datatype Roll =
    | NoRoll
    | Rolling(targets: seq<int>, turns: seq<Turn>, restarted: seq<int>,
              phase: Phase, staggerMs: int, startedAt: int)

  datatype Fleet = Fleet(
    core: Core, online: set<int>, killList: set<int>, roll: Roll, forcedKills: int,
    surplus: nat, lostExits: nat)

  const KILL_GRACE_MS := 2_000

  function Live(f: Fleet): set<int> {
    f.core.pool.started.Keys
  }

  /** The worker whose exit a roll is waiting for. */
  function Rolled(f: Fleet): int
    requires f.roll.Rolling? && f.roll.turns != []
  {
    f.roll.turns[|f.roll.turns| - 1].worker
  }

  predicate Waiting(f: Fleet) {
    f.roll.Rolling? && (f.roll.phase.AwaitingExit? || f.roll.phase.Killed?) && f.roll.turns != []
  }

  /** The latest instant the clock may reach before the roll has to move. */
  function RollDue(f: Fleet): int
    requires f.roll.Rolling?
  {
    if Waiting(f) && Rolled(f) in Live(f) then
      if f.roll.phase.AwaitingExit? then f.roll.phase.killAt else f.roll.phase.until
    else if f.roll.phase.Staggering? then f.roll.phase.until
    else f.core.now
  }

  /** The clock may go on to `to` without passing the stability timer or a roll that has to move. */
  predicate MayPass(f: Fleet, to: int) {
    && f.core.now <= to
    && (f.core.engine.resetAt.Some? ==> to <= f.core.engine.resetAt.value)
    && (f.roll.Rolling? ==> to <= RollDue(f))
  }

  /** The slots spoken for: those of the serving workers, and the one a waiting restart will fill. */
  function Filled(k: Core): int {
    Settled(k.pool) + if k.engine.runner.Parked? then 1 else 0
  }

  /** `surplus` is the highest excess of filled slots so far; here a step fills one without looking. */
  function SurplusAfter(c: Config, f: Fleet): nat {
    if Filled(f.core) >= c.workers.count + f.surplus then f.surplus + 1 else f.surplus
  }

  function OnRestartWorkers(f: Fleet, targets: seq<int>, staggerMs: int): Fleet {
    if f.core.shuttingDown || f.roll.Rolling? then f
    else f.(core := ResetQuarantine(f.core),
            roll := Rolling(targets, [], [], AtTop, staggerMs, f.core.now))
  }

  ghost function RollTurn(c: Config, f: Fleet, forkOk: bool): Fleet
    requires f.roll.Rolling?
  {
    var r := f.roll;
    if |r.turns| >= |r.targets| then
      f.(roll := NoRoll, core := RequestRefill(c, f.core, forkOk))
    else if f.core.shuttingDown then f.(roll := NoRoll)
    else
      var w := r.targets[|r.turns|];
      var g := f.core.engine;
      if w !in Live(f) then f.(roll := r.(turns := r.turns + [Skipped(w)]))
      else if forkOk then
        f.(core := f.core.(pool := Mark(Fork(f.core.pool, f.core.now), w), engine := g.(forkFailures := 0),
                           books := ForgetFailures(f.core.books)),
           roll := r.(turns := r.turns + [Replaced(w, f.core.pool.nextId)],
                      phase := AwaitingExit(f.core.now + Drain.DrainBudget(c))),
           surplus := if w in f.core.pool.marks then SurplusAfter(c, f) else f.surplus)
      else
        f.(core := f.core.(engine := g.(forkFailures := g.forkFailures + 1)),
           roll := if g.forkFailures + 1 >= MAX_CONSECUTIVE_FORK_FAILURES then NoRoll
                   else r.(turns := r.turns + [ForkFailed(w)]))
  }

  function AfterExit(f: Fleet): Fleet
    requires Waiting(f)
  {
    f.(roll := f.roll.(
         restarted := f.roll.restarted + [Rolled(f)],
         phase := if f.roll.staggerMs > 0 then Staggering(f.core.now + f.roll.staggerMs) else AtTop))
  }

  /** Whatever the roll's suspension point allows now. */
  ghost function RollStep(c: Config, f: Fleet, forkOk: bool): Fleet {
    if !f.roll.Rolling? then f
    else if f.roll.phase.AtTop? then RollTurn(c, f, forkOk)
    else if f.roll.phase.Staggering? then
      if f.core.now >= f.roll.phase.until then f.(roll := f.roll.(phase := AtTop)) else f
    else if !Waiting(f) then f
    else if Rolled(f) !in Live(f) then AfterExit(f)
    else if f.roll.phase.AwaitingExit? then
      if f.core.now >= f.roll.phase.killAt then
        f.(roll := f.roll.(phase := Killed(f.core.now + KILL_GRACE_MS)), forcedKills := f.forcedKills + 1)
      else f
    else if f.core.now >= f.roll.phase.until then AfterExit(f)
    else f
  }

  // ----------------------------------------------------------------- events

  datatype Event =
    | Tick(to: int)
    | Online(w: int)
    | Exit(w: int, graceful: bool, forkOk: bool)
    | WakeRunner(forkOk: bool)
    | ResumeRunner(forkOk: bool)
    | Stable
    | Recycle(w: int, forkOk: bool)
    | Sweep
    | StaggerFires(w: int, forkOk: bool)
    | ResetBreaker(forkOk: bool)
    | RestartWorkers(targets: seq<int>, staggerMs: int)
    | AdvanceRoll(forkOk: bool)
    | BeginShutdown

  ghost function OnExit(c: Config, f: Fleet, w: int, graceful: bool, forkOk: bool): Fleet {
    if w !in Live(f) then f
    else
      var replaced := w in f.core.pool.marks && w !in f.core.pool.staged;
      var k := f.core.(pool := Cleanup(f.core.pool, w));
      var lost := if graceful && replaced then f.lostExits else f.lostExits + 1;
      var online := f.online - {w};
      if f.core.shuttingDown then f.(core := k, online := online, lostExits := f.lostExits + 1)
      else if graceful then f.(core := k, online := online, lostExits := lost)
      else
        f.(core := OnWorkerCrash(c, k.(engine := k.engine.(resetAt := None)),
                                 w, w !in f.online, online != {}, forkOk),
           online := online)
  }

  function OnRecycle(f: Fleet, w: int, forkOk: bool): Fleet {
    var p := f.core.pool;
    if w in p.marks || f.core.shuttingDown || w !in Live(f) || !forkOk then f
    else f.(core := f.core.(pool := Fork(Mark(p, w), f.core.now)))
  }

  function Aged(c: Config, k: Core): set<int> {
    set w | w in k.pool.started && w !in k.pool.marks && k.now - k.pool.started[w] > c.workers.maxAgeMs
  }

  function OnSweep(c: Config, f: Fleet): Fleet {
    if f.core.shuttingDown || c.workers.maxAgeMs <= 0 then f
    else
      var p := f.core.pool;
      var aged := Aged(c, f.core);
      f.(core := f.core.(pool := p.(marks := p.marks + aged, staged := p.staged + aged)))
  }

  function OnStaggerFires(c: Config, f: Fleet, w: int, forkOk: bool): Fleet {
    var p := f.core.pool;
    if w !in p.staged then f
    else
      var q := p.(staged := p.staged - {w});
      if w !in Live(f) || f.core.shuttingDown || !forkOk then
        f.(core := f.core.(pool := Unmark(q, w)), surplus := SurplusAfter(c, f))
      else f.(core := f.core.(pool := Fork(q, f.core.now)), surplus := SurplusAfter(c, f))
  }

  ghost function OnResetBreaker(c: Config, f: Fleet, forkOk: bool): Fleet {
    var k := ResetEngine(f.core);
    if f.core.shuttingDown then f.(core := k) else f.(core := RequestRefill(c, k, forkOk))
  }

  function OnShutdown(f: Fleet): Fleet {
    if f.core.shuttingDown then f
    else
      f.(core := f.core.(
           shuttingDown := true,
           pool := f.core.pool.(marks := {}, staged := {}),
           engine := f.core.engine.(resetAt := None)),
         killList := Live(f))
  }

  function OnOnline(c: Config, f: Fleet, w: int): Fleet {
    if w !in Live(f) || w in f.online then f
    else f.(core := OnWorkerOnline(c, f.core), online := f.online + {w})
  }

  predicate Distinct(ids: seq<int>) {
    forall i, j | 0 <= i < j < |ids| :: ids[i] != ids[j]
  }

  /** A hot restart rolls workers that are alive when it is requested, each once. */
  predicate LegalTargets(f: Fleet, targets: seq<int>) {
    Distinct(targets) && forall w | w in targets :: w in Live(f)
  }

  ghost function Step(c: Config, f: Fleet, e: Event): Fleet {
    match e
    case Tick(to) =>
      if MayPass(f, to) then f.(core := f.core.(now := to)) else f
    case Online(w) => OnOnline(c, f, w)
    case Exit(w, graceful, forkOk) => OnExit(c, f, w, graceful, forkOk)
    case WakeRunner(forkOk) => f.(core := Wake(c, f.core, forkOk))
    case ResumeRunner(forkOk) => f.(core := Resume(c, f.core, forkOk))
    case Stable => f.(core := OnStable(f.core))
    case Recycle(w, forkOk) => OnRecycle(f, w, forkOk)
    case Sweep => OnSweep(c, f)
    case StaggerFires(w, forkOk) => OnStaggerFires(c, f, w, forkOk)
    case ResetBreaker(forkOk) => OnResetBreaker(c, f, forkOk)
    case RestartWorkers(targets, staggerMs) =>
      if LegalTargets(f, targets) then OnRestartWorkers(f, targets, staggerMs) else f
    case AdvanceRoll(forkOk) => RollStep(c, f, forkOk)
    case BeginShutdown => OnShutdown(f)
  }

  ghost function Run(c: Config, f: Fleet, events: seq<Event>): Fleet {
    if events == [] then f
    else Step(c, Run(c, f, events[..|events| - 1]), events[|events| - 1])
  }

  function ForkMany(p: Pool, now: int, count: nat): Pool {
    if count == 0 then p else Fork(ForkMany(p, now, count - 1), now)
  }

  /** The fleet right after its first `count` forks. */
  function Started(c: Config, now: int): Fleet {
    Fleet(
      Core(now, false, ForkMany(Pool(map[], 1, {}, {}, 0), now, Max(0, c.workers.count)), [],
           Engine([], Idle, 0.0, None, 0, 0, 0),
           NO_BOOKS),
      {}, {}, NoRoll, 0, 0, 0)
  }
}
