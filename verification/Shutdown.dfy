/**
 * Coordinated shutdown: ACK waits, the exit wait, and the signal escalation,
 * with timers that fire at their deadline and workers that may do anything.
 */
module Shutdown {
  import opened Wrappers
  import opened Config
  import opened Signals

  /** Where the escalation of one survivor stands. */
  datatype Stage = Termed(until: int) | Inted(until: int) | Finished

  datatype Phase = Acking(until: int) | Exiting(until: int) | Killing(stages: map<int, Stage>) | Done

  /**
   * `waiting` holds the workers whose ACK wait has its listeners up; `settled`
   * counts how often each wait resolved, and `sent` the signals per worker.
   */
  datatype State = State(
    startedAt: int, now: int, workers: set<int>, dead: set<int>, connected: set<int>,
    phase: Phase, waiting: set<int>, acked: map<int, bool>, settled: map<int, nat>,
    sent: map<int, seq<Signal>>, forcedKills: nat)

  datatype Event =
    | Tick(to: int)
    | Acks(w: int) | Disconnects(w: int) | Exits(w: int) | Errors(w: int) | AckTimesOut(w: int)
    | Proceed
    | DelayElapses(w: int)

  /** An ACK wait resolves: listeners down, result recorded. */
  function SettleAck(s: State, w: int, ack: bool): State {
    s.(waiting := s.waiting - {w}, acked := s.acked[w := ack],
       settled := s.settled[w := 1 + if w in s.settled then s.settled[w] else 0])
  }

  /** One worker's ACK wait begins: listeners, timer, and the shutdown message, which may fail to be sent. */
  function OpenAck(s: State, w: int, sendFails: bool): State {
    if w in s.dead || w !in s.connected then SettleAck(s, w, true)
    else if sendFails then SettleAck(s, w, false).(connected := s.connected - {w})
    else s.(waiting := s.waiting + {w})
  }

  function OpenAcks(s: State, list: seq<int>, sendFails: set<int>): State {
    if list == [] then s
    else
      var w := list[|list| - 1];
      OpenAck(OpenAcks(s, list[..|list| - 1], sendFails), w, w in sendFails)
  }

  function Latched(c: Config, now: int, list: seq<int>, dead: set<int>, connected: set<int>): State {
    var workers := set w | w in list;
    State(now, now, workers, dead, connected, Acking(now + c.shutdown.ackTimeoutMs), {}, map[],
          map w | w in workers :: 0, map w | w in workers :: [], 0)
  }

  /** What a shutdown of the listed workers starts from, with what the environment knows about them. */
  datatype Start = Start(now: int, list: seq<int>, dead: set<int>, connected: set<int>, sendFails: set<int>)

  predicate Listed(b: Start) {
    forall i, j | 0 <= i < j < |b.list| :: b.list[i] != b.list[j]
  }

  function Begin(c: Config, b: Start): State {
    OpenAcks(Latched(c, b.now, b.list, b.dead, b.connected), b.list, b.sendFails)
  }

  predicate AllDead(s: State) {
    forall w | w in s.workers :: w in s.dead
  }

  predicate InTime(stage: Stage, to: int) {
    !stage.Finished? ==> to <= stage.until
  }

  predicate AllSettled(s: State) {
    forall w | w in s.workers :: w !in s.waiting
  }

  /** May the clock move to `to` without passing a timer or a pending continuation? */
  predicate MayTick(s: State, to: int) {
    match s.phase
    case Acking(until) => !AllSettled(s) && to <= until
    case Exiting(until) => !AllDead(s) && to <= until
    case Killing(stages) =>
      (exists w :: w in stages && !stages[w].Finished?) && forall w | w in stages :: InTime(stages[w], to)
    case Done => true
  }

  function Survivors(s: State): set<int> {
    s.workers - s.dead
  }

  function Signalled(s: State, w: int, signal: Signal): State
    requires w in s.sent
  {
    s.(sent := s.sent[w := s.sent[w] + [signal]])
  }

  function AllTermed(survivors: set<int>, until: int): map<int, Stage> {
    map w | w in survivors :: Termed(until)
  }

  function SigtermTo(sent: map<int, seq<Signal>>, survivors: set<int>): map<int, seq<Signal>> {
    map w | w in sent :: if w in survivors then sent[w] + [SIGTERM] else sent[w]
  }

  function OnProceed(c: Config, s: State): State {
    match s.phase
    case Acking(_) =>
      if AllSettled(s) then s.(phase := Exiting(s.now + c.shutdown.timeoutMs)) else s
    case Exiting(until) =>
      if !AllDead(s) && s.now < until then s
      else if AllDead(s) then s.(phase := Done)
      else
        s.(phase := Killing(AllTermed(Survivors(s), s.now + c.shutdown.sigtermDelayMs)),
           sent := SigtermTo(s.sent, Survivors(s)))
    case Killing(stages) =>
      if forall w | w in stages :: stages[w].Finished? then s.(phase := Done) else s
    case Done => s
  }

  function OnDelay(c: Config, s: State, w: int): State {
    if !s.phase.Killing? || w !in s.phase.stages || s.phase.stages[w].Finished?
       || s.now < s.phase.stages[w].until || w !in s.sent then s
    else
      var stages := s.phase.stages;
      if w in s.dead then s.(phase := Killing(stages[w := Finished]))
      else if stages[w].Termed? then
        Signalled(s, w, SIGINT).(phase := Killing(stages[w := Inted(s.now + c.shutdown.sigintDelayMs)]))
      else
        Signalled(s, w, SIGKILL).(phase := Killing(stages[w := Finished]), forcedKills := s.forcedKills + 1)
  }

  function Step(c: Config, s: State, e: Event): State {
    match e
    case Tick(to) => if s.now <= to && MayTick(s, to) then s.(now := to) else s
    case Acks(w) =>
      if w in s.waiting then SettleAck(s, w, true).(connected := s.connected - {w}) else s
    case Disconnects(w) =>
      var r := s.(connected := s.connected - {w});
      if w in s.waiting then SettleAck(r, w, false) else r
    case Exits(w) =>
      var r := s.(connected := s.connected - {w}, dead := s.dead + {w});
      if w in s.waiting then SettleAck(r, w, false) else r
    case Errors(w) => if w in s.waiting then SettleAck(s, w, false) else s
    case AckTimesOut(w) =>
      if s.phase.Acking? && w in s.waiting && s.phase.until <= s.now then
        SettleAck(s, w, false).(connected := s.connected - {w})
      else s
    case Proceed => OnProceed(c, s)
    case DelayElapses(w) => OnDelay(c, s, w)
  }

  function Run(c: Config, s: State, events: seq<Event>): State {
    if events == [] then s else Step(c, Run(c, s, events[..|events| - 1]), events[|events| - 1])
  }

  // ------------------------------------------------------------- properties

  /** When the sequence must be over. */
  function Budget(c: Config): int {
    c.shutdown.ackTimeoutMs + c.shutdown.timeoutMs + c.shutdown.sigtermDelayMs + c.shutdown.sigintDelayMs
  }

  /** No SIGKILL is sent earlier than this after the start. */
  function FirstKill(c: Config): int {
    c.shutdown.timeoutMs + c.shutdown.sigtermDelayMs + c.shutdown.sigintDelayMs
  }

  /** Each wait is open with no result, or closed with exactly one. */
  predicate AcksOk(s: State) {
    && s.waiting <= s.workers
    && s.settled.Keys == s.workers
    && forall w | w in s.workers ::
         && s.settled[w] == (if w in s.waiting then 0 else 1)
         && (w in s.acked <==> w !in s.waiting)
  }

  predicate StageOk(c: Config, s: State, w: int, stage: Stage) {
    && w in s.sent
    && match stage
       case Termed(until) =>
         && s.now <= until <= s.startedAt + Budget(c) - c.shutdown.sigintDelayMs
         && s.startedAt + c.shutdown.timeoutMs + c.shutdown.sigtermDelayMs <= until
         && s.sent[w] == [SIGTERM]
       case Inted(until) =>
         && s.now <= until <= s.startedAt + Budget(c)
         && s.startedAt + FirstKill(c) <= until
         && s.sent[w] == [SIGTERM, SIGINT]
       case Finished =>
         || (w in s.dead && (s.sent[w] == [SIGTERM] || s.sent[w] == [SIGTERM, SIGINT]))
         || (s.sent[w] == [SIGTERM, SIGINT, SIGKILL] && s.startedAt + FirstKill(c) <= s.now)
  }

  predicate DeadOrKilled(s: State, w: int) {
    w in s.dead || (w in s.sent && s.sent[w] == [SIGTERM, SIGINT, SIGKILL])
  }

  predicate PhaseOk(c: Config, s: State) {
    && s.startedAt <= s.now && s.sent.Keys == s.workers
    && match s.phase
       case Acking(until) =>
         && s.now <= until == s.startedAt + c.shutdown.ackTimeoutMs
         && (forall w | w in s.workers :: s.sent[w] == [])
       case Exiting(until) =>
         && AllSettled(s)
         && s.startedAt + c.shutdown.timeoutMs <= until
         && s.now <= until <= s.startedAt + c.shutdown.ackTimeoutMs + c.shutdown.timeoutMs
         && (forall w | w in s.workers :: s.sent[w] == [])
       case Killing(stages) =>
         && AllSettled(s) && s.now <= s.startedAt + Budget(c)
         && stages.Keys <= s.workers
         && (forall w | w in stages :: StageOk(c, s, w, stages[w]))
         && (forall w | w in s.workers && w !in stages :: w in s.dead && s.sent[w] == [])
       case Done =>
         && AllSettled(s)
         && forall w | w in s.workers ::
              DeadOrKilled(s, w) && (SIGKILL in s.sent[w] ==> s.startedAt + FirstKill(c) <= s.now)
  }

  /** The waits of `done` are open or settled once, the others have not begun. */
  ghost predicate Opened(s: State, done: seq<int>) {
    && s.waiting <= (set w | w in done)
    && s.settled.Keys == s.workers
    && (forall w | w in s.workers :: s.settled[w] == (if w in done && w !in s.waiting then 1 else 0))
    && (forall w :: w in s.acked <==> w in done && w !in s.waiting)
  }

  lemma OpenAckOk(s: State, init: seq<int>, w: int, sendFails: bool)
    requires Opened(s, init) && w !in init && w in s.workers
    ensures Opened(OpenAck(s, w, sendFails), init + [w])
  {
    assert forall x :: x in init + [w] <==> x in init || x == w;
  }

  lemma {:induction false} OpenAcksOk(s: State, list: seq<int>, sendFails: set<int>)
    requires forall i, j | 0 <= i < j < |list| :: list[i] != list[j]
    requires forall w | w in list :: w in s.workers
    requires Opened(s, [])
    ensures var r := OpenAcks(s, list, sendFails);
            && Opened(r, list)
            && r == s.(waiting := r.waiting, acked := r.acked, settled := r.settled, connected := r.connected)
  {
    hide Opened;
    if list != [] {
      var init, w := list[..|list| - 1], list[|list| - 1];
      OpenAcksOk(s, init, sendFails);
      assert list == init + [w] && w !in init;
      OpenAckOk(OpenAcks(s, init, sendFails), init, w, w in sendFails);
    }
  }

  lemma BeginOk(c: Config, b: Start)
    requires ValidConfig(c) && Listed(b)
    ensures var s := Begin(c, b); AcksOk(s) && PhaseOk(c, s) && s.startedAt == b.now
    ensures Begin(c, b).workers == set w | w in b.list
  {
    OpenAcksOk(Latched(c, b.now, b.list, b.dead, b.connected), b.list, b.sendFails);
  }

  lemma StepOk(c: Config, s: State, e: Event)
    requires ValidConfig(c) && AcksOk(s) && PhaseOk(c, s)
    ensures var r := Step(c, s, e);
            AcksOk(r) && PhaseOk(c, r) && r.startedAt == s.startedAt && r.workers == s.workers
  {
    hide AcksOk, PhaseOk;
    match e
    case Tick(to) => TickOk(c, s, to);
    case Proceed => ProceedOk(c, s);
    case DelayElapses(w) => DelayOk(c, s, w);
    case _ => EventOk(c, s, e);
  }

  lemma TickOk(c: Config, s: State, to: int)
    requires ValidConfig(c) && AcksOk(s) && PhaseOk(c, s)
    ensures AcksOk(Step(c, s, Tick(to))) && PhaseOk(c, Step(c, s, Tick(to)))
  {
  }

  lemma EventOk(c: Config, s: State, e: Event)
    requires ValidConfig(c) && AcksOk(s) && PhaseOk(c, s) && !e.Tick? && !e.Proceed? && !e.DelayElapses?
    ensures AcksOk(Step(c, s, e)) && PhaseOk(c, Step(c, s, e))
  {
  }

  lemma ProceedOk(c: Config, s: State)
    requires ValidConfig(c) && AcksOk(s) && PhaseOk(c, s)
    ensures AcksOk(OnProceed(c, s)) && PhaseOk(c, OnProceed(c, s))
  {
  }

  lemma DelayOk(c: Config, s: State, w: int)
    requires ValidConfig(c) && AcksOk(s) && PhaseOk(c, s)
    ensures AcksOk(OnDelay(c, s, w)) && PhaseOk(c, OnDelay(c, s, w))
  {
    hide StageOk;
    DelayStageOk(c, s, w);
    var r := OnDelay(c, s, w);
    if s.phase.Killing? {
      forall x | x in s.phase.stages && x != w
        ensures StageOk(c, r, x, s.phase.stages[x])
      {
        OtherStageOk(c, s, w, x);
      }
    }
  }

  lemma DelayStageOk(c: Config, s: State, w: int)
    requires ValidConfig(c) && s.phase.Killing? && w in s.phase.stages ==> StageOk(c, s, w, s.phase.stages[w])
    requires ValidConfig(c)
    ensures var r := OnDelay(c, s, w);
            s.phase.Killing? && w in s.phase.stages ==>
              r.phase.Killing? && w in r.phase.stages && StageOk(c, r, w, r.phase.stages[w])
  {
  }

  lemma OtherStageOk(c: Config, s: State, w: int, x: int)
    requires s.phase.Killing? && x in s.phase.stages && x != w && StageOk(c, s, x, s.phase.stages[x])
    ensures StageOk(c, OnDelay(c, s, w), x, s.phase.stages[x])
  {
  }

  lemma {:induction false} RunOk(c: Config, s: State, events: seq<Event>)
    requires ValidConfig(c) && AcksOk(s) && PhaseOk(c, s)
    ensures var r := Run(c, s, events);
            AcksOk(r) && PhaseOk(c, r) && r.startedAt == s.startedAt && r.workers == s.workers
  {
    hide AcksOk, PhaseOk, Step;
    if events != [] {
      RunOk(c, s, events[..|events| - 1]);
      StepOk(c, Run(c, s, events[..|events| - 1]), events[|events| - 1]);
    }
  }

  /** Whatever the workers do, the sequence is over within its budget, which is below three timeouts. */
  lemma ShutdownIsBounded(c: Config, b: Start, events: seq<Event>)
    requires ValidConfig(c) && Listed(b)
    ensures var s := Run(c, Begin(c, b), events);
            && (s.now > b.now + Budget(c) ==> s.phase.Done?)
            && Budget(c) < 3 * c.shutdown.timeoutMs
  {
    hide Run, Begin;
    BeginOk(c, b);
    RunOk(c, Begin(c, b), events);
  }

  /** When it is over, every listed worker is dead or went through SIGTERM, SIGINT and SIGKILL. */
  lemma NobodyIsForgotten(c: Config, b: Start, events: seq<Event>)
    requires ValidConfig(c) && Listed(b)
    ensures var s := Run(c, Begin(c, b), events);
            s.phase.Done? ==> forall w | w in b.list :: DeadOrKilled(s, w)
  {
    hide Run, Begin;
    BeginOk(c, b);
    RunOk(c, Begin(c, b), events);
  }

  /** SIGKILL never falls inside `timeoutMs`: the whole exit wait and both signal delays come first. */
  lemma NoKillWithinTimeout(c: Config, b: Start, events: seq<Event>, w: int)
    requires ValidConfig(c) && Listed(b)
    ensures var s := Run(c, Begin(c, b), events);
            w in s.sent && SIGKILL in s.sent[w] ==> s.now > b.now + c.shutdown.timeoutMs
  {
    hide Run, Begin;
    BeginOk(c, b);
    RunOk(c, Begin(c, b), events);
  }

  lemma RunNext(c: Config, s: State, events: seq<Event>, i: nat)
    requires i < |events|
    ensures Run(c, s, events[..i + 1]) == Step(c, Run(c, s, events[..i]), events[i])
  {
    hide Step;
    assert events[..i + 1][..i] == events[..i];
  }

  /** The slowest escalation of a single worker that never reacts. */
  function Slowest(c: Config, now: int): seq<Event> {
    var acked := now + c.shutdown.ackTimeoutMs;
    var waited := acked + c.shutdown.timeoutMs;
    var termed := waited + c.shutdown.sigtermDelayMs;
    [Tick(acked), AckTimesOut(1), Proceed, Tick(waited), Proceed, Tick(termed), DelayElapses(1),
     Tick(termed + c.shutdown.sigintDelayMs), DelayElapses(1)]
  }

  function Alone(now: int): Start {
    Start(now, [1], {}, {1}, {})
  }

  /** The only listed worker is alive in the given phase, and was sent the given signals. */
  predicate AloneIn(s: State, at: int, phase: Phase, waiting: set<int>, sent: seq<Signal>) {
    && s.now == at && s.workers == {1} && s.dead == {}
    && s.phase == phase && s.waiting == waiting && s.sent == map[1 := sent]
  }

  lemma BeginAlone(c: Config, now: int)
    ensures AloneIn(Begin(c, Alone(now)), now, Acking(now + c.shutdown.ackTimeoutMs), {1}, [])
  {
    var b := Alone(now);
    assert b.list[..0] == [];
    assert OpenAcks(Latched(c, now, b.list, {}, {1}), [], {}) == Latched(c, now, b.list, {}, {1});
    assert (set w | w in b.list) == {1};
  }

  /** SIGKILL does come, and with a worker that never reacts it comes when the whole budget is used up. */
  lemma SlowestEscalation(c: Config, now: int)
    requires ValidConfig(c)
    ensures var before := Run(c, Begin(c, Alone(now)), Slowest(c, now)[..8]);
            && before.now == now + Budget(c) && 1 !in before.dead
            && 1 in before.sent && before.sent[1] == [SIGTERM, SIGINT]
    ensures var after := Run(c, Begin(c, Alone(now)), Slowest(c, now));
            && after.now == now + Budget(c) && 1 in after.sent && after.sent[1] == [SIGTERM, SIGINT, SIGKILL]
  {
    hide Run, Begin, Step, AloneIn;
    var s, events := Begin(c, Alone(now)), Slowest(c, now);
    var acked := now + c.shutdown.ackTimeoutMs;
    var waited := acked + c.shutdown.timeoutMs;
    var termed := waited + c.shutdown.sigtermDelayMs;
    var end := termed + c.shutdown.sigintDelayMs;
    BeginAlone(c, now);
    assert Run(c, s, events[..0]) == s by { NoEvents(c, s); assert events[..0] == []; }
    RunNext(c, s, events, 0);
    RunNext(c, s, events, 1);
    AckPhase(c, s, now, acked);
    RunNext(c, s, events, 2);
    RunNext(c, s, events, 3);
    RunNext(c, s, events, 4);
    ExitPhase(c, Run(c, s, events[..2]), acked, waited);
    RunNext(c, s, events, 5);
    RunNext(c, s, events, 6);
    KillPhase(c, Run(c, s, events[..5]), waited, termed, Termed(termed), [SIGTERM], Inted(end), SIGINT);
    assert [SIGTERM] + [SIGINT] == [SIGTERM, SIGINT] && [SIGTERM, SIGINT] + [SIGKILL] == [SIGTERM, SIGINT, SIGKILL];
    RunNext(c, s, events, 7);
    RunNext(c, s, events, 8);
    KillPhase(c, Run(c, s, events[..7]), termed, end, Inted(end), [SIGTERM, SIGINT], Finished, SIGKILL);
    AloneMeans(Run(c, s, events[..8]), end, Killing(map[1 := Inted(end)]), [SIGTERM, SIGINT]);
    AloneMeans(Run(c, s, events[..9]), end, Killing(map[1 := Finished]), [SIGTERM, SIGINT, SIGKILL]);
    assert events[..9] == events;
  }

  lemma NoEvents(c: Config, s: State)
    ensures Run(c, s, []) == s
  {
  }

  lemma AloneMeans(s: State, at: int, phase: Phase, sent: seq<Signal>)
    requires AloneIn(s, at, phase, {}, sent)
    ensures s.now == at && 1 !in s.dead && 1 in s.sent && s.sent[1] == sent
  {
  }

  lemma AckPhase(c: Config, s: State, now: int, until: int)
    requires now <= until && AloneIn(s, now, Acking(until), {1}, [])
    ensures AloneIn(Step(c, Step(c, s, Tick(until)), AckTimesOut(1)), until, Acking(until), {}, [])
  {
    assert 1 in s.workers;
  }

  lemma ExitPhase(c: Config, s: State, now: int, until: int)
    requires ValidConfig(c) && until == now + c.shutdown.timeoutMs && AloneIn(s, now, Acking(now), {}, [])
    ensures AloneIn(Step(c, Step(c, Step(c, s, Proceed), Tick(until)), Proceed), until,
                    Killing(map[1 := Termed(until + c.shutdown.sigtermDelayMs)]), {}, [SIGTERM])
  {
    var waiting := Step(c, s, Proceed);
    assert AloneIn(waiting, now, Exiting(until), {}, []);
    var due := Step(c, waiting, Tick(until));
    assert 1 in waiting.workers && 1 !in waiting.dead;
    assert AloneIn(due, until, Exiting(until), {}, []);
    assert 1 in due.workers && 1 !in due.dead;
    var r := Step(c, due, Proceed);
    assert Survivors(due) == {1};
    assert due.sent[1] + [SIGTERM] == [SIGTERM];
    assert r.sent[1] == [SIGTERM];
    assert r.sent == map[1 := [SIGTERM]];
    assert r.phase == Killing(map[1 := Termed(until + c.shutdown.sigtermDelayMs)]);
  }

  lemma KillPhase(
    c: Config, s: State, now: int, until: int, stage: Stage, sent: seq<Signal>, next: Stage, signal: Signal)
    requires now <= until && AloneIn(s, now, Killing(map[1 := stage]), {}, sent)
    requires (stage == Termed(until) && next == Inted(until + c.shutdown.sigintDelayMs) && signal == SIGINT)
             || (stage == Inted(until) && next == Finished && signal == SIGKILL)
    ensures var due := Step(c, s, Tick(until));
            && AloneIn(due, until, Killing(map[1 := stage]), {}, sent)
            && AloneIn(Step(c, due, DelayElapses(1)), until, Killing(map[1 := next]), {}, sent + [signal])
  {
    assert !s.phase.stages[1].Finished?;
    assert MayTick(s, until);
  }

  predicate AllDeadOrKilled(s: State, list: seq<int>) {
    forall w | w in list :: DeadOrKilled(s, w)
  }

  /** Whatever is shut down and whatever happens, nobody is left once the platform's grace period is over. */
  ghost predicate KeepsGrace(c: Config, graceMs: int) {
    forall b: Start, events: seq<Event> | Listed(b) ::
      Run(c, Begin(c, b), events).now > b.now + graceMs ==> AllDeadOrKilled(Run(c, Begin(c, b), events), b.list)
  }

  /** A grace period is kept exactly if it covers the ACK wait, the timeout and both signal delays. */
  lemma GraceKeptIff(c: Config, graceMs: int)
    requires ValidConfig(c)
    ensures KeepsGrace(c, graceMs) <==> graceMs >= Budget(c)
  {
    hide Run, Begin, DeadOrKilled;
    if graceMs >= Budget(c) {
      forall b: Start, events: seq<Event> | Listed(b)
        ensures Run(c, Begin(c, b), events).now > b.now + graceMs
                ==> AllDeadOrKilled(Run(c, Begin(c, b), events), b.list)
      {
        ShutdownIsBounded(c, b, events);
        NobodyIsForgotten(c, b, events);
      }
    } else {
      var b, events := Alone(0), Slowest(c, 0)[..8];
      SlowestEscalation(c, 0);
      var s := Run(c, Begin(c, b), events);
      assert 1 in b.list && !DeadOrKilled(s, 1) by { StillAlive(s); }
    }
  }

  lemma StillAlive(s: State)
    requires 1 !in s.dead && 1 in s.sent && s.sent[1] == [SIGTERM, SIGINT]
    ensures !DeadOrKilled(s, 1)
  {
  }

  /** No ACK wait ever resolves twice, and past the ACK phase each has resolved once. */
  lemma EachAckSettlesOnce(c: Config, b: Start, events: seq<Event>)
    requires ValidConfig(c) && Listed(b)
    ensures var s := Run(c, Begin(c, b), events);
            && s.settled.Keys == (set w | w in b.list)
            && (forall w | w in b.list :: s.settled[w] <= 1 && (s.settled[w] == 1 <==> w in s.acked))
            && (!s.phase.Acking? ==> forall w | w in b.list :: s.settled[w] == 1)
  {
    hide Run, Begin;
    BeginOk(c, b);
    RunOk(c, Begin(c, b), events);
  }

  /** Where the clock may not pass, some continuation or timer can go. */
  lemma ClockNeverStuck(c: Config, b: Start, events: seq<Event>)
    requires ValidConfig(c) && Listed(b)
    ensures var s := Run(c, Begin(c, b), events);
            !MayTick(s, s.now + 1) ==>
              exists e: Event :: (e.Proceed? || e.AckTimesOut? || e.DelayElapses?) && Step(c, s, e) != s
  {
    hide Run, Begin, AcksOk, PhaseOk;
    BeginOk(c, b);
    RunOk(c, Begin(c, b), events);
    var s := Run(c, Begin(c, b), events);
    if !MayTick(s, s.now + 1) {
      Unstick(c, s);
    }
  }

  lemma Unstick(c: Config, s: State)
    requires ValidConfig(c) && AcksOk(s) && PhaseOk(c, s) && !MayTick(s, s.now + 1)
    ensures exists e: Event :: (e.Proceed? || e.AckTimesOut? || e.DelayElapses?) && Step(c, s, e) != s
  {
    match s.phase
    case Acking(until) =>
      if AllSettled(s) {
        assert Step(c, s, Proceed) != s;
      } else {
        var w :| w in s.workers && w in s.waiting;
        assert w !in Step(c, s, AckTimesOut(w)).waiting;
        assert Step(c, s, AckTimesOut(w)) != s;
      }
    case Exiting(until) =>
      assert Step(c, s, Proceed) != s;
    case Killing(stages) =>
      if forall w | w in stages :: stages[w].Finished? {
        assert Step(c, s, Proceed) != s;
      } else {
        var w :| w in stages && !InTime(stages[w], s.now + 1);
        assert Step(c, s, DelayElapses(w)).phase.stages[w] != stages[w];
        assert Step(c, s, DelayElapses(w)) != s;
      }
    case Done =>
  }

  // --------------------------------------------- one worker at a time, by events

  /** The result of one worker's ACK wait, read off the events that concern it; None while it is open. */
  function AckOf(c: Config, b: Start, events: seq<Event>, w: int): Option<bool> {
    if events == [] then
      if w in b.dead || w !in b.connected then Some(true) else if w in b.sendFails then Some(false) else None
    else
      var init, e := events[..|events| - 1], events[|events| - 1];
      if AckOf(c, b, init, w).Some? then AckOf(c, b, init, w)
      else if e == Acks(w) then Some(true)
      else if e == Disconnects(w) || e == Exits(w) || e == Errors(w) || TimesOut(c, b, init, e, w) then Some(false)
      else None
  }

  predicate TimesOut(c: Config, b: Start, events: seq<Event>, e: Event, w: int) {
    e == AckTimesOut(w) && Run(c, Begin(c, b), events).now >= b.now + c.shutdown.ackTimeoutMs
  }

  /** Whether the worker is still connected: an ACK and a timeout disconnect it, and so does a message that fails. */
  predicate ConnectedOf(c: Config, b: Start, events: seq<Event>, w: int) {
    if events == [] then w in b.connected && (w in b.dead || w !in b.sendFails)
    else
      var init, e := events[..|events| - 1], events[|events| - 1];
      && ConnectedOf(c, b, init, w)
      && e != Disconnects(w) && e != Exits(w)
      && !(AckOf(c, b, init, w).None? && (e == Acks(w) || TimesOut(c, b, init, e, w)))
  }

  /** What the state says of one worker. */
  datatype Standing = Standing(ack: Option<bool>, waiting: bool, connected: bool, dead: bool)

  function StandingOf(s: State, w: int): Standing {
    Standing(if w in s.acked then Some(s.acked[w]) else None, w in s.waiting, w in s.connected, w in s.dead)
  }

  /** Opening one wait concerns its worker only. */
  lemma OpenAckStanding(s: State, x: int, sendFails: bool, w: int)
    requires w !in s.acked && w !in s.waiting
    ensures var r := OpenAck(s, x, sendFails);
            && (x != w ==> StandingOf(r, w) == StandingOf(s, w))
            && (x == w ==>
                  StandingOf(r, w) ==
                    if w in s.dead || w !in s.connected then Standing(Some(true), false, w in s.connected, w in s.dead)
                    else if sendFails then Standing(Some(false), false, false, w in s.dead)
                    else Standing(None, true, true, w in s.dead))
  {
  }

  lemma OpenAckKeeps(s: State, x: int, sendFails: bool, w: int)
    requires x != w
    ensures StandingOf(OpenAck(s, x, sendFails), w) == StandingOf(s, w)
  {
  }

  lemma {:induction false} OpenAcksStanding(s: State, list: seq<int>, sendFails: set<int>, w: int)
    requires w !in s.acked && w !in s.waiting
    requires forall i, j | 0 <= i < j < |list| :: list[i] != list[j]
    ensures StandingOf(OpenAcks(s, list, sendFails), w)
            == if w in list then StandingOf(OpenAck(s, w, w in sendFails), w) else StandingOf(s, w)
  {
    hide OpenAck;
    if list != [] {
      var n := |list| - 1;
      OpenAcksStanding(s, list[..n], sendFails, w);
      assert list == list[..n] + [list[n]];
      var r := OpenAcks(s, list[..n], sendFails);
      if list[n] == w {
        assert w !in list[..n];
        OpenAckStanding(s, w, w in sendFails, w);
        StandingMeans(s, r, w);
        OpenAckStanding(r, w, w in sendFails, w);
      } else {
        OpenAckKeeps(r, list[n], list[n] in sendFails, w);
      }
    }
  }

  lemma StandingMeans(s: State, r: State, w: int)
    requires StandingOf(s, w) == StandingOf(r, w)
    ensures (w in s.acked <==> w in r.acked) && (w in s.waiting <==> w in r.waiting)
    ensures (w in s.connected <==> w in r.connected) && (w in s.dead <==> w in r.dead)
  {
  }

  lemma BeginStanding(c: Config, b: Start, w: int)
    requires Listed(b) && w in b.list
    ensures StandingOf(Begin(c, b), w)
            == Standing(AckOf(c, b, [], w), AckOf(c, b, [], w).None?, ConnectedOf(c, b, [], w), w in b.dead)
  {
    var s := Latched(c, b.now, b.list, b.dead, b.connected);
    OpenAcksStanding(s, b.list, b.sendFails, w);
    OpenAckStanding(s, w, w in b.sendFails, w);
  }

  /** One event, for one worker. */
  lemma StandingStep(c: Config, s: State, e: Event, w: int)
    requires w in s.waiting ==> w !in s.acked && s.phase.Acking?
    requires w !in s.waiting ==> w in s.acked
    ensures var r, v := Step(c, s, e), StandingOf(s, w);
            var timesOut := e == AckTimesOut(w) && v.waiting && s.phase.Acking? && s.now >= s.phase.until;
            && StandingOf(r, w).ack == (if v.ack.Some? then v.ack
                                        else if e == Acks(w) then Some(true)
                                        else if e == Disconnects(w) || e == Exits(w) || e == Errors(w) || timesOut
                                        then Some(false)
                                        else None)
            && (StandingOf(r, w).waiting <==> StandingOf(r, w).ack.None?)
            && (StandingOf(r, w).connected <==>
                  v.connected && e != Disconnects(w) && e != Exits(w) && !(v.ack.None? && (e == Acks(w) || timesOut)))
            && (StandingOf(r, w).dead <==> v.dead || e == Exits(w))
  {
    hide OnDelay, OnProceed;
    match e
    case Proceed => PhaseOnly(c, s, w);
    case DelayElapses(x) => DelayOnly(c, s, x, w);
    case _ =>
  }

  lemma PhaseOnly(c: Config, s: State, w: int)
    ensures StandingOf(OnProceed(c, s), w) == StandingOf(s, w)
  {
  }

  lemma DelayOnly(c: Config, s: State, x: int, w: int)
    ensures StandingOf(OnDelay(c, s, x), w) == StandingOf(s, w)
  {
  }

  /**
   * On every run, what is known of each listed worker is what the events that
   * concern it say: acknowledged if it was gone at the start or its ACK came
   * before any error, disconnect, exit or timeout; disconnected by the ACK, the
   * timeout, a failed message, or itself; dead if it was or has exited.
   */
  lemma {:induction false} StandingIsHistory(c: Config, b: Start, events: seq<Event>, w: int)
    requires ValidConfig(c) && Listed(b) && w in b.list
    ensures var s := Run(c, Begin(c, b), events);
            && StandingOf(s, w) == Standing(AckOf(c, b, events, w), AckOf(c, b, events, w).None?,
                                            ConnectedOf(c, b, events, w), w in b.dead || Exits(w) in events)
  {
    hide Step, Begin, StandingOf, AcksOk, PhaseOk;
    BeginOk(c, b);
    if events == [] {
      BeginStanding(c, b, w);
    } else {
      var n := |events| - 1;
      var init := events[..n];
      StandingIsHistory(c, b, init, w);
      RunOk(c, Begin(c, b), init);
      var s := Run(c, Begin(c, b), init);
      WaitingMeansAcking(c, b, s, w);
      StandingStep(c, s, events[n], w);
      assert events == init + [events[n]];
      StandingParts(s, w);
      StandingParts(Step(c, s, events[n]), w);
    }
  }

  lemma StandingParts(s: State, w: int)
    ensures StandingOf(s, w).waiting <==> w in s.waiting
    ensures StandingOf(s, w).ack.Some? <==> w in s.acked
  {
  }

  lemma WaitingMeansAcking(c: Config, b: Start, s: State, w: int)
    requires AcksOk(s) && PhaseOk(c, s) && w in s.workers && s.startedAt == b.now
    ensures w in s.waiting ==> w !in s.acked && s.phase.Acking? && s.phase.until == b.now + c.shutdown.ackTimeoutMs
    ensures w !in s.waiting ==> w in s.acked
  {
  }

  // ----------------------------------------------------------- forced kills

  function SigkilledIn(sent: map<int, seq<Signal>>): set<int> {
    set w | w in sent && SIGKILL in sent[w]
  }

  lemma KillCounts(c: Config, s: State, e: Event)
    requires PhaseOk(c, s) && s.forcedKills == |SigkilledIn(s.sent)|
    ensures var r := Step(c, s, e); r.forcedKills == |SigkilledIn(r.sent)|
  {
    hide SettleAck;
    match e
    case Proceed => ProceedKillsNone(c, s);
    case DelayElapses(w) => DelayKills(c, s, w);
    case _ => EventSendsNothing(c, s, e);
  }

  lemma EventSendsNothing(c: Config, s: State, e: Event)
    requires !e.Proceed? && !e.DelayElapses?
    ensures Step(c, s, e).sent == s.sent && Step(c, s, e).forcedKills == s.forcedKills
  {
  }

  lemma ProceedKillsNone(c: Config, s: State)
    ensures SigkilledIn(OnProceed(c, s).sent) == SigkilledIn(s.sent) && OnProceed(c, s).forcedKills == s.forcedKills
  {
  }

  lemma DelayKills(c: Config, s: State, w: int)
    requires PhaseOk(c, s) && s.forcedKills == |SigkilledIn(s.sent)|
    ensures OnDelay(c, s, w).forcedKills == |SigkilledIn(OnDelay(c, s, w).sent)|
  {
    var r := OnDelay(c, s, w);
    if r.forcedKills > s.forcedKills {
      assert s.sent[w] == [SIGTERM, SIGINT];
      assert SigkilledIn(r.sent) == SigkilledIn(s.sent) + {w};
    } else {
      assert SigkilledIn(r.sent) == SigkilledIn(s.sent);
    }
  }

  /** On every run the forced kills counted are the workers that were sent SIGKILL. */
  lemma {:induction false} ForcedKillsAreSigkills(c: Config, b: Start, events: seq<Event>)
    requires ValidConfig(c) && Listed(b)
    ensures var s := Run(c, Begin(c, b), events); s.forcedKills == |SigkilledIn(s.sent)|
  {
    hide Step, Begin, AcksOk, PhaseOk;
    BeginOk(c, b);
    if events == [] {
      NobodySigkilled(c, b);
    } else {
      ForcedKillsAreSigkills(c, b, events[..|events| - 1]);
      RunOk(c, Begin(c, b), events[..|events| - 1]);
      KillCounts(c, Run(c, Begin(c, b), events[..|events| - 1]), events[|events| - 1]);
    }
  }

  lemma NobodySigkilled(c: Config, b: Start)
    requires ValidConfig(c) && Listed(b)
    ensures Begin(c, b).forcedKills == 0 && SigkilledIn(Begin(c, b).sent) == {}
  {
    var s := Latched(c, b.now, b.list, b.dead, b.connected);
    OpenAcksOk(s, b.list, b.sendFails);
  }

  // --------------------------------------------------------- the coordinator

  lemma OpenNext(s: State, list: seq<int>, i: nat, sendFails: set<int>)
    requires i < |list|
    ensures OpenAcks(s, list[..i + 1], sendFails)
            == OpenAck(OpenAcks(s, list[..i], sendFails), list[i], list[i] in sendFails)
  {
    hide OpenAck;
    assert list[..i + 1][..i] == list[..i];
  }

  lemma NoneOpen(s: State, sendFails: set<int>)
    ensures OpenAcks(s, [], sendFails) == s
  {
  }

  class ShutdownCoordinator {
    const cfg: Config
    var isShuttingDown: bool
    var workers: set<int>
    var startedAt: int
    var phase: Phase
    /** Workers with their ACK listeners up, and the results of the other waits. */
    var ackListeners: set<int>
    var ackResults: map<int, bool>
    var forcedKills: nat
    /** worker.isDead() and worker.isConnected(). */
    var dead: set<int>
    var connected: set<int>
    ghost var settled: map<int, nat>
    ghost var sent: map<int, seq<Signal>>

    ghost function View(now: int): State
      reads this
    {
      State(startedAt, now, workers, dead, connected, phase, ackListeners, ackResults, settled, sent, forcedKills)
    }

    constructor (cfg: Config)
      ensures this.cfg == cfg && !isShuttingDown && forcedKills == 0
    {
      this.cfg, isShuttingDown, forcedKills := cfg, false, 0;
      workers, startedAt, phase, ackListeners, ackResults := {}, 0, Done, {}, map[];
      dead, connected, settled, sent := {}, {}, map[], map[];
    }

    method Settle(w: int, ack: bool, ghost now: int)
      modifies this`ackListeners, this`ackResults, this`settled
      ensures View(now) == SettleAck(old(View(now)), w, ack)
    {
      ackListeners := ackListeners - {w};
      ackResults := ackResults[w := ack];
      settled := settled[w := 1 + if w in settled then settled[w] else 0];
    }

    /** The synchronous part of one ACK wait: listeners, timer, and the shutdown message. */
    method WaitForWorkerAck(w: int, sendFails: bool, ghost now: int)
      modifies this`ackListeners, this`ackResults, this`settled, this`connected
      ensures var s := old(View(now));
              View(now) == OpenAck(s, w, sendFails)
    {
      if w in dead || w !in connected {
        Settle(w, true, now);
        return;
      }
      ackListeners := ackListeners + {w};
      if sendFails {
        Settle(w, false, now);
        connected := connected - {w};
        assert ackListeners == old(ackListeners) - {w};
      }
    }

    /** Up to the ACK phase: the latch, then one wait per listed worker. */
    method InitiateShutdown(b: Start)
      modifies this
      ensures isShuttingDown
      ensures View(b.now) == if old(isShuttingDown) then old(View(b.now)) else Begin(cfg, b)
    {
      hide OpenAck, OpenAcks, Latched;
      if isShuttingDown { return; }
      Latch(b);
      ghost var start := View(b.now);
      assert b.list[..0] == [] && OpenAcks(start, [], b.sendFails) == start by { NoneOpen(start, b.sendFails); }
      for i := 0 to |b.list|
        invariant isShuttingDown
        invariant View(b.now) == OpenAcks(start, b.list[..i], b.sendFails)
      {
        OpenNext(start, b.list, i, b.sendFails);
        WaitForWorkerAck(b.list[i], b.list[i] in b.sendFails, b.now);
      }
      assert b.list[..|b.list|] == b.list;
    }

    /** The latch, and the listed workers as the shutdown finds them. */
    method Latch(b: Start)
      modifies this
      ensures isShuttingDown && View(b.now) == Latched(cfg, b.now, b.list, b.dead, b.connected)
    {
      isShuttingDown := true;
      workers := set w | w in b.list;
      startedAt, phase, forcedKills := b.now, Acking(b.now + cfg.shutdown.ackTimeoutMs), 0;
      ackListeners, ackResults, dead, connected := {}, map[], b.dead, b.connected;
      settled := map w | w in workers :: 0;
      sent := map w | w in workers :: [];
    }

    method OnMessageAck(w: int, ghost now: int)
      modifies this
      ensures View(now) == Step(cfg, old(View(now)), Acks(w))
    {
      if w !in ackListeners { return; }
      Settle(w, true, now);
      connected := connected - {w};
    }

    method OnDisconnect(w: int, ghost now: int)
      modifies this
      ensures View(now) == Step(cfg, old(View(now)), Disconnects(w))
    {
      connected := connected - {w};
      if w in ackListeners { Settle(w, false, now); }
    }

    method OnExit(w: int, ghost now: int)
      modifies this
      ensures View(now) == Step(cfg, old(View(now)), Exits(w))
    {
      connected := connected - {w};
      dead := dead + {w};
      if w in ackListeners { Settle(w, false, now); }
    }

    method OnError(w: int, ghost now: int)
      modifies this
      ensures View(now) == Step(cfg, old(View(now)), Errors(w))
    {
      if w in ackListeners { Settle(w, false, now); }
    }

    method OnAckTimeout(w: int, now: int)
      modifies this
      ensures View(now) == Step(cfg, old(View(now)), AckTimesOut(w))
    {
      if phase.Acking? && w in ackListeners && phase.until <= now {
        Settle(w, false, now);
        connected := connected - {w};
      }
    }

    /** The awaiting sequence gets a turn: ACKs in, exits in or timed out, survivors signalled, all delays over. */
    method Continue(now: int)
      modifies this
      ensures View(now) == Step(cfg, old(View(now)), Proceed)
    {
      match phase
      case Acking(_) =>
        if forall w | w in workers :: w !in ackListeners {
          phase := Exiting(now + cfg.shutdown.timeoutMs);
        }
      case Exiting(until) =>
        if (forall w | w in workers :: w in dead) || now >= until {
          var survivors := workers - dead;
          if forall w | w in workers :: w in dead {
            phase := Done;
          } else {
            sent := SigtermTo(sent, survivors);
            phase := Killing(AllTermed(survivors, now + cfg.shutdown.sigtermDelayMs));
          }
        }
      case Killing(stages) =>
        if forall w | w in stages :: stages[w].Finished? {
          phase := Done;
        }
      case Done =>
    }

    /** killWorkerGradually of one survivor after one of its delays. */
    method EscalateKill(w: int, now: int)
      requires w in workers && sent.Keys == workers
      modifies this
      ensures View(now) == Step(cfg, old(View(now)), DelayElapses(w))
    {
      if !phase.Killing? || w !in phase.stages || phase.stages[w].Finished? || now < phase.stages[w].until { return; }
      var stages := phase.stages;
      if w in dead {
        phase := Killing(stages[w := Finished]);
      } else if stages[w].Termed? {
        sent := sent[w := sent[w] + [SIGINT]];
        phase := Killing(stages[w := Inted(now + cfg.shutdown.sigintDelayMs)]);
      } else {
        sent := sent[w := sent[w] + [SIGKILL]];
        phase := Killing(stages[w := Finished]);
        forcedKills := forcedKills + 1;
      }
    }
  }
}
