/**
 * The file watcher's debounce machine: three timers, a minimum interval between
 * restarts, and a pending payload that must reach exactly one restart.
 */
module FileWatcher {
  import opened Wrappers

  type Env = map<string, string>

  datatype Options = Options(debounceMs: int, debounceMaxWaitMs: int, minRestartIntervalMs: int, dryRun: bool)

  predicate ValidOptions(o: Options) {
    o.debounceMs >= 0 && o.debounceMaxWaitMs >= 0 && o.minRestartIntervalMs >= 0
  }

  /** One change the watcher saw: when, why, and the .env payload if it had one. */
  datatype Change = Change(at: int, reason: string, env: Option<Env>)

  /**
   * One restartWorkers call, and (history) which changes it carries: those from
   * `from` up to `to`, the ones seen since the last teardown from `own` on, and
   * the ones since the flush before from `unflushed` on.
   */
  datatype Call = Call(
    at: int, env: Option<Env>, reason: string,
    from: nat, own: nat, unflushed: nat, to: nat, install: nat, previousAt: int)

  /**
   * The closure variables, the teardown calls that wait for their watchers to
   * close, and history: `paceFrom` is the restart whose interval still paces the
   * next one, `resumedAt` how many changes there were at the last teardown, and
   * `unflushedFrom` how many at the last flush or teardown.
   */
  datatype State = State(
    now: int, watching: bool, closed: bool, teardowns: nat,
    debounce: Option<int>, maxWait: Option<int>, trailing: Option<int>,
    pendingReason: Option<string>, pendingEnv: Option<Env>, lastRestartAt: int,
    changes: seq<Change>, calls: seq<Call>, installs: nat, resumedAt: nat, paceFrom: int,
    unflushedFrom: nat)

  datatype Event =
    | Tick(to: int) | Changes(reason: string, env: Option<Env>)
    | DebounceFires | MaxWaitFires | TrailingFires
    | Install | TeardownBegins | TeardownEnds

  function Merge(pending: Option<Env>, env: Option<Env>): Option<Env> {
    if env.None? then pending
    else Some((if pending.Some? then pending.value else map[]) + env.value)
  }

  /** The right-biased merge of the payloads of a stretch of changes. */
  function MergeAll(changes: seq<Change>): Option<Env> {
    if changes == [] then None
    else Merge(MergeAll(changes[..|changes| - 1]), changes[|changes| - 1].env)
  }

  function Trigger(o: Options, s: State, reason: string, env: Option<Env>): State {
    s.(pendingReason := Some(reason), pendingEnv := Merge(s.pendingEnv, env),
       debounce := Some(s.now + o.debounceMs),
       maxWait := if o.debounceMaxWaitMs > 0 && s.maxWait.None? then Some(s.now + o.debounceMaxWaitMs) else s.maxWait,
       changes := s.changes + [Change(s.now, reason, env)])
  }

  /** How many changes the calls so far have carried. */
  function Carried(calls: seq<Call>): nat {
    if calls == [] then 0 else calls[|calls| - 1].to
  }

  /** Changes since the last teardown that no call has carried yet start here. */
  function FreshFrom(s: State): nat {
    Max(Carried(s.calls), s.resumedAt)
  }

  function MakeCall(s: State, reason: string): Call {
    Call(s.now, s.pendingEnv, reason,
         Carried(s.calls), FreshFrom(s), s.unflushedFrom, |s.changes|, s.installs, s.paceFrom)
  }

  function Flush(o: Options, s: State): State {
    var r := s.(debounce := None, maxWait := None, trailing := None, unflushedFrom := |s.changes|);
    var reason := if s.pendingReason.Some? then s.pendingReason.value else "file-change";
    if o.dryRun then r.(pendingReason := None, pendingEnv := None)
    else if o.minRestartIntervalMs > 0 && s.now - s.lastRestartAt < o.minRestartIntervalMs then
      r.(trailing := Some(s.now + (o.minRestartIntervalMs - (s.now - s.lastRestartAt))), paceFrom := s.lastRestartAt)
    else
      r.(pendingReason := None, pendingEnv := None, lastRestartAt := s.now, paceFrom := s.now,
         calls := s.calls + [MakeCall(s, reason)])
  }

  predicate Due(timer: Option<int>, now: int) {
    timer.Some? && timer.value <= now
  }

  predicate NotPast(timer: Option<int>, to: int) {
    timer.Some? ==> to <= timer.value
  }

  function Step(o: Options, s: State, e: Event): State {
    match e
    case Tick(to) =>
      if s.now <= to && NotPast(s.debounce, to) && NotPast(s.maxWait, to) && NotPast(s.trailing, to) then
        s.(now := to)
      else s
    case Changes(reason, env) => Trigger(o, s, reason, env)
    case DebounceFires => if Due(s.debounce, s.now) then Flush(o, s) else s
    case MaxWaitFires => if Due(s.maxWait, s.now) then Flush(o, s) else s
    case TrailingFires => if Due(s.trailing, s.now) then Flush(o, s) else s
    case Install => OnInstall(s)
    case TeardownBegins => s.(closed := true, teardowns := s.teardowns + 1)
    case TeardownEnds =>
      if s.teardowns == 0 then s
      else s.(watching := false, teardowns := s.teardowns - 1, debounce := None, maxWait := None, trailing := None,
              resumedAt := |s.changes|, unflushedFrom := |s.changes|)
  }

  /** An install forgets when the last restart was, but a trailing timer it finds armed keeps its pace. */
  function OnInstall(s: State): State {
    s.(closed := false, lastRestartAt := 0, watching := true, installs := s.installs + 1,
       paceFrom := if s.trailing.Some? then s.paceFrom else 0)
  }

  function Begin(now: int): State {
    State(now, false, false, 0, None, None, None, None, None, 0, [], [], 0, 0, 0, 0)
  }

  function Run(o: Options, now: int, events: seq<Event>): State {
    if events == [] then Begin(now)
    else Step(o, Run(o, now, events[..|events| - 1]), events[|events| - 1])
  }

  // ------------------------------------------------------------- properties

  predicate Armed(s: State) {
    s.debounce.Some? || s.maxWait.Some? || s.trailing.Some?
  }

  /** A call carries at least one change, the merge of their payloads, and the last reason given. */
  ghost predicate Faithful(changes: seq<Change>, call: Call) {
    && call.from < call.to <= |changes|
    && call.env == MergeAll(changes[call.from..call.to])
    && call.reason == changes[call.to - 1].reason
  }

  /** The `i`-th call carries at least one change, starting where the call before it stopped. */
  ghost predicate Linked(calls: seq<Call>, i: nat)
    requires i < |calls|
  {
    calls[i].from == (if i == 0 then 0 else calls[i - 1].to) && calls[i].from < calls[i].to
  }

  ghost predicate Chained(calls: seq<Call>) {
    forall i | 0 <= i < |calls| :: Linked(calls, i)
  }

  /** Every call is faithful to its stretch, and what is pending is the stretch after the last. */
  ghost predicate Partitions(
    changes: seq<Change>, calls: seq<Call>, pendingEnv: Option<Env>, pendingReason: Option<string>)
  {
    && Carried(calls) <= |changes|
    && Chained(calls)
    && (forall i | 0 <= i < |calls| :: Faithful(changes, calls[i]))
    && pendingEnv == MergeAll(changes[Carried(calls)..])
    && pendingReason == if Carried(calls) < |changes| then Some(changes[|changes| - 1].reason) else None
  }

  /** When the current install last restarted the workers, 0 if it has not. */
  function LastRestart(calls: seq<Call>, installs: nat): int {
    if calls != [] && calls[|calls| - 1].install == installs then calls[|calls| - 1].at else 0
  }

  /** Calls of one install are at least the minimum interval apart. */
  ghost predicate Spaced(o: Options, s: State) {
    && (forall i | 0 <= i < |s.calls| :: s.calls[i].at <= s.now && s.calls[i].install <= s.installs)
    && s.lastRestartAt == LastRestart(s.calls, s.installs)
    && (forall i | 0 < i < |s.calls| && s.calls[i - 1].install == s.calls[i].install ::
          s.calls[i].at - s.calls[i - 1].at >= o.minRestartIntervalMs)
  }

  /** The timers are armed exactly as the pending changes need them. */
  ghost predicate InTime(o: Options, s: State) {
    && NotPast(s.debounce, s.now) && NotPast(s.maxWait, s.now) && NotPast(s.trailing, s.now)
    && s.resumedAt <= |s.changes| && Carried(s.calls) <= |s.changes|
    && (forall i | 0 <= i < |s.changes| :: s.changes[i].at <= s.now)
    && (forall i, j | 0 <= i < j < |s.changes| :: s.changes[i].at <= s.changes[j].at)
    && (Armed(s) <==> FreshFrom(s) < |s.changes|)
    && (s.trailing.Some? ==> s.trailing.value <= s.paceFrom + o.minRestartIntervalMs)
    && (o.debounceMaxWaitMs > 0 && FreshFrom(s) < |s.changes| ==>
          || s.trailing.Some?
          || (s.maxWait.Some? && s.maxWait.value <= s.changes[FreshFrom(s)].at + o.debounceMaxWaitMs))
  }

  /** A call came in time for every change since the teardown before it. */
  ghost predicate Punctual(o: Options, changes: seq<Change>, call: Call) {
    && call.to <= |changes|
    && forall i | call.own <= i < call.to ::
         call.at <= Max(changes[i].at + o.debounceMaxWaitMs, call.previousAt + o.minRestartIntervalMs)
  }

  ghost predicate AllPunctual(o: Options, changes: seq<Change>, calls: seq<Call>) {
    o.debounceMaxWaitMs > 0 ==> forall i | 0 <= i < |calls| :: Punctual(o, changes, calls[i])
  }

  lemma FaithfulStays(changes: seq<Change>, next: Change, call: Call)
    requires Faithful(changes, call)
    ensures Faithful(changes + [next], call)
  {
    assert (changes + [next])[call.from..call.to] == changes[call.from..call.to];
  }

  lemma {:induction false} TriggerPartitions(o: Options, s: State, reason: string, env: Option<Env>)
    requires Partitions(s.changes, s.calls, s.pendingEnv, s.pendingReason)
    ensures var r := Trigger(o, s, reason, env); Partitions(r.changes, r.calls, r.pendingEnv, r.pendingReason)
  {
    hide Faithful;
    var next := Change(s.now, reason, env);
    forall i | 0 <= i < |s.calls|
      ensures Faithful(s.changes + [next], s.calls[i])
    {
      FaithfulStays(s.changes, next, s.calls[i]);
    }
    var pending := s.changes[Carried(s.calls)..];
    assert (s.changes + [next])[Carried(s.calls)..] == pending + [next];
    MergeAllAppends(pending, next);
  }

  lemma MergeAllAppends(changes: seq<Change>, next: Change)
    ensures MergeAll(changes + [next]) == Merge(MergeAll(changes), next.env)
  {
    assert (changes + [next])[..|changes|] == changes;
  }

  lemma NewCallFaithful(s: State)
    requires Partitions(s.changes, s.calls, s.pendingEnv, s.pendingReason) && Carried(s.calls) < |s.changes|
    ensures s.pendingReason.Some? && Faithful(s.changes, MakeCall(s, s.pendingReason.value))
  {
    assert s.changes[Carried(s.calls)..|s.changes|] == s.changes[Carried(s.calls)..];
  }

  lemma FlushPartitions(o: Options, s: State)
    requires Partitions(s.changes, s.calls, s.pendingEnv, s.pendingReason)
    requires !o.dryRun && Carried(s.calls) < |s.changes|
    ensures var r := Flush(o, s); Partitions(r.changes, r.calls, r.pendingEnv, r.pendingReason)
  {
    hide Faithful, Chained;
    NewCallFaithful(s);
    ChainAppends(s.calls, MakeCall(s, s.pendingReason.value));
    assert s.changes[|s.changes|..] == [];
  }

  lemma ChainAppends(calls: seq<Call>, next: Call)
    requires Chained(calls) && next.from == Carried(calls) && next.from < next.to
    ensures Chained(calls + [next])
  {
    var more := calls + [next];
    forall i | 0 <= i < |more|
      ensures Linked(more, i)
    {
      if i < |calls| {
        assert Linked(calls, i);
      }
    }
  }

  lemma TriggerInTime(o: Options, s: State, reason: string, env: Option<Env>)
    requires ValidOptions(o) && InTime(o, s)
    ensures InTime(o, Trigger(o, s, reason, env))
  {
  }

  lemma FlushInTime(o: Options, s: State)
    requires ValidOptions(o) && InTime(o, s) && Armed(s) && !o.dryRun
    ensures InTime(o, Flush(o, s))
  {
  }

  lemma FlushPunctual(o: Options, s: State)
    requires ValidOptions(o) && InTime(o, s) && Armed(s) && !o.dryRun && AllPunctual(o, s.changes, s.calls)
    ensures AllPunctual(o, Flush(o, s).changes, Flush(o, s).calls)
  {
    hide Punctual, InTime, Carried, FreshFrom, MakeCall;
    if o.debounceMaxWaitMs > 0 {
      var reason := if s.pendingReason.Some? then s.pendingReason.value else "file-change";
      CallPunctual(o, s, reason);
    }
  }

  lemma CallPunctual(o: Options, s: State, reason: string)
    requires InTime(o, s) && o.debounceMaxWaitMs > 0
    ensures Punctual(o, s.changes, MakeCall(s, reason))
  {
    PendingIsYoung(o, s);
  }

  ghost predicate Ok(o: Options, s: State) {
    && Partitions(s.changes, s.calls, s.pendingEnv, s.pendingReason)
    && Spaced(o, s) && InTime(o, s) && AllPunctual(o, s.changes, s.calls)
  }

  lemma {:induction false} FlushOk(o: Options, s: State)
    requires ValidOptions(o) && Ok(o, s) && Armed(s) && !o.dryRun
    ensures Ok(o, Flush(o, s))
  {
    hide Flush, AllPunctual, Spaced;
    FlushPartitions(o, s);
    FlushInTime(o, s);
    FlushPunctual(o, s);
    FlushSpaced(o, s);
  }

  lemma FlushSpaced(o: Options, s: State)
    requires ValidOptions(o) && Spaced(o, s)
    ensures Spaced(o, Flush(o, s))
  {
    hide Carried, FreshFrom;
  }

  lemma TriggerOk(o: Options, s: State, reason: string, env: Option<Env>)
    requires ValidOptions(o) && Ok(o, s)
    ensures Ok(o, Trigger(o, s, reason, env))
  {
    hide Partitions, InTime, Punctual, Merge;
    TriggerPartitions(o, s, reason, env);
    TriggerInTime(o, s, reason, env);
    forall i | 0 <= i < |s.calls|
      ensures Punctual(o, s.changes, s.calls[i]) ==>
                Punctual(o, s.changes + [Change(s.now, reason, env)], s.calls[i])
    {
      PunctualStays(o, s.changes, Change(s.now, reason, env), s.calls[i]);
    }
  }

  lemma PunctualStays(o: Options, changes: seq<Change>, next: Change, call: Call)
    ensures Punctual(o, changes, call) ==> Punctual(o, changes + [next], call)
  {
  }

  lemma StepOk(o: Options, s: State, e: Event)
    requires ValidOptions(o) && !o.dryRun && Ok(o, s)
    ensures Ok(o, Step(o, s, e))
  {
    hide Ok, Trigger, Flush;
    match e
    case Changes(reason, env) => TriggerOk(o, s, reason, env);
    case DebounceFires => if Due(s.debounce, s.now) { FlushOk(o, s); }
    case MaxWaitFires => if Due(s.maxWait, s.now) { FlushOk(o, s); }
    case TrailingFires => if Due(s.trailing, s.now) { FlushOk(o, s); }
    case _ => LifecycleOk(o, s, e);
  }

  lemma LifecycleOk(o: Options, s: State, e: Event)
    requires ValidOptions(o) && Ok(o, s)
    requires e.Tick? || e.Install? || e.TeardownBegins? || e.TeardownEnds?
    ensures Ok(o, Step(o, s, e))
  {
    hide Partitions, AllPunctual, Trigger, Flush;
  }

  lemma {:induction false} RunOk(o: Options, now: int, events: seq<Event>)
    requires ValidOptions(o) && !o.dryRun
    ensures Ok(o, Run(o, now, events))
  {
    if events != [] {
      hide Ok;
      RunOk(o, now, events[..|events| - 1]);
      StepOk(o, Run(o, now, events[..|events| - 1]), events[|events| - 1]);
    }
  }

  /**
   * However installs and teardowns overlap, uncarried changes and armed timers go
   * together, and the pending payload is the right-biased merge of all since the
   * last call.
   */
  lemma {:induction false} PendingIffArmed(o: Options, now: int, events: seq<Event>)
    requires ValidOptions(o) && !o.dryRun
    ensures var s := Run(o, now, events);
            && (Armed(s) <==> FreshFrom(s) < |s.changes|)
            && Carried(s.calls) <= |s.changes|
            && s.pendingEnv == MergeAll(s.changes[Carried(s.calls)..])
  {
    hide Run;
    RunOk(o, now, events);
  }

  /** Every carried change is in exactly one call, and the call carries the merge of its stretch. */
  lemma {:induction false} EachChangeInOneCall(o: Options, now: int, events: seq<Event>, i: nat)
    requires ValidOptions(o) && !o.dryRun
    requires i < Carried(Run(o, now, events).calls)
    ensures var s := Run(o, now, events);
            exists k :: 0 <= k < |s.calls| && CarriesIn(s.calls, k, i) && Faithful(s.changes, s.calls[k])
                        && forall l | 0 <= l < |s.calls| && CarriesIn(s.calls, l, i) :: l == k
  {
    hide Run, Faithful;
    RunOk(o, now, events);
    var s := Run(o, now, events);
    var k := CallOf(s.calls, |s.calls|, i);
    forall l | 0 <= l < |s.calls| && CarriesIn(s.calls, l, i)
      ensures l == k
    {
      if l < k { StretchesAscend(s.calls, l, k); }
      if k < l { StretchesAscend(s.calls, k, l); }
    }
  }

  predicate CarriesIn(calls: seq<Call>, k: nat, i: nat)
    requires k < |calls|
  {
    calls[k].from <= i < calls[k].to
  }

  lemma {:induction false} StretchesAscend(calls: seq<Call>, k: nat, l: nat)
    requires Chained(calls) && k < l < |calls|
    ensures calls[k].to <= calls[l].from
  {
    assert Linked(calls, l);
    if k + 1 < l {
      StretchesAscend(calls, k, l - 1);
      assert Linked(calls, l - 1);
    }
  }

  lemma {:induction false} CallOf(calls: seq<Call>, n: nat, i: nat) returns (k: nat)
    requires Chained(calls) && 0 < n <= |calls| && i < calls[n - 1].to
    ensures k < n && CarriesIn(calls, k, i)
  {
    assert Linked(calls, n - 1);
    if calls[n - 1].from <= i {
      k := n - 1;
    } else {
      k := CallOf(calls, n - 1, i);
    }
  }

  /** Two calls of one install in a row are at least the minimum interval apart. */
  lemma {:induction false} CallsAreSpaced(o: Options, now: int, events: seq<Event>, i: nat)
    requires ValidOptions(o) && !o.dryRun
    requires var s := Run(o, now, events);
             i + 1 < |s.calls| && s.calls[i].install == s.calls[i + 1].install
    ensures var s := Run(o, now, events);
            s.calls[i + 1].at - s.calls[i].at >= o.minRestartIntervalMs
  {
    hide Run;
    RunOk(o, now, events);
    var s := Run(o, now, events);
    var j := i + 1;
    assert s.calls[j - 1].install == s.calls[j].install;
  }

  /**
   * With a maximum wait, a change is carried by the later of its own maximum wait
   * and the end of the interval after the previous call: no call is later than
   * that, and no change is still pending after it.
   */
  lemma {:induction false} ChangesAreCarriedInTime(o: Options, now: int, events: seq<Event>)
    requires ValidOptions(o) && !o.dryRun && o.debounceMaxWaitMs > 0
    ensures var s := Run(o, now, events);
            && (forall k | 0 <= k < |s.calls| :: Punctual(o, s.changes, s.calls[k]))
            && (forall i | FreshFrom(s) <= i < |s.changes| ::
                  s.now <= Max(s.changes[i].at + o.debounceMaxWaitMs, s.paceFrom + o.minRestartIntervalMs))
  {
    hide Run, Punctual, Partitions, Spaced, InTime;
    RunOk(o, now, events);
    PendingIsYoung(o, Run(o, now, events));
  }

  lemma PendingIsYoung(o: Options, s: State)
    requires InTime(o, s) && o.debounceMaxWaitMs > 0
    ensures forall i | FreshFrom(s) <= i < |s.changes| ::
              s.now <= Max(s.changes[i].at + o.debounceMaxWaitMs, s.paceFrom + o.minRestartIntervalMs)
  {
    forall i | FreshFrom(s) <= i < |s.changes|
      ensures s.now <= Max(s.changes[i].at + o.debounceMaxWaitMs, s.paceFrom + o.minRestartIntervalMs)
    {
      assert s.changes[FreshFrom(s)].at <= s.changes[i].at;
    }
  }

  // -------------------------------------------- time bounds from the last change

  /** With a trailing timer or the debounce armed, uncarried changes cannot wait longer than those. */
  ghost predicate Settling(o: Options, s: State) {
    FreshFrom(s) < |s.changes| ==>
      || s.trailing.Some?
      || (s.debounce.Some? && s.debounce.value <= s.changes[|s.changes| - 1].at + o.debounceMs)
  }

  /** A call came by the debounce of its last change, or by the end of the interval after the call before. */
  ghost predicate Settled(o: Options, changes: seq<Change>, call: Call) {
    && call.to <= |changes|
    && (call.own < call.to ==>
          call.at <= Max(changes[call.to - 1].at + o.debounceMs, call.previousAt + o.minRestartIntervalMs))
  }

  ghost predicate AllSettled(o: Options, changes: seq<Change>, calls: seq<Call>) {
    forall i | 0 <= i < |calls| :: Settled(o, changes, calls[i])
  }

  lemma SettledStays(o: Options, changes: seq<Change>, next: Change, calls: seq<Call>)
    requires AllSettled(o, changes, calls)
    ensures AllSettled(o, changes + [next], calls)
  {
    assert forall i | 0 <= i < |calls| :: Settled(o, changes, calls[i]);
  }

  lemma PendingSettles(o: Options, s: State)
    requires InTime(o, s) && Settling(o, s) && FreshFrom(s) < |s.changes|
    ensures s.now <= Max(s.changes[|s.changes| - 1].at + o.debounceMs, s.paceFrom + o.minRestartIntervalMs)
  {
  }

  lemma FlushSettles(o: Options, s: State)
    requires ValidOptions(o) && !o.dryRun && InTime(o, s) && Armed(s) && Settling(o, s)
    requires AllSettled(o, s.changes, s.calls)
    ensures var r := Flush(o, s); Settling(o, r) && AllSettled(o, r.changes, r.calls)
  {
    PendingSettles(o, s);
  }

  lemma StepSettles(o: Options, s: State, e: Event)
    requires ValidOptions(o) && !o.dryRun && InTime(o, s) && Settling(o, s) && AllSettled(o, s.changes, s.calls)
    ensures var r := Step(o, s, e); Settling(o, r) && AllSettled(o, r.changes, r.calls)
  {
    hide Flush, InTime, AllSettled, MakeCall, Carried;
    match e
    case Changes(reason, env) => SettledStays(o, s.changes, Change(s.now, reason, env), s.calls);
    case DebounceFires => if Due(s.debounce, s.now) { FlushSettles(o, s); }
    case MaxWaitFires => if Due(s.maxWait, s.now) { FlushSettles(o, s); }
    case TrailingFires => if Due(s.trailing, s.now) { FlushSettles(o, s); }
    case _ =>
  }

  lemma {:induction false} RunSettles(o: Options, now: int, events: seq<Event>)
    requires ValidOptions(o) && !o.dryRun
    ensures var s := Run(o, now, events); Settling(o, s) && AllSettled(o, s.changes, s.calls)
  {
    hide Step, Partitions, Spaced, AllPunctual, InTime;
    if events != [] {
      RunSettles(o, now, events[..|events| - 1]);
      RunOk(o, now, events[..|events| - 1]);
      StepSettles(o, Run(o, now, events[..|events| - 1]), events[|events| - 1]);
    }
  }

  /**
   * Maximum wait or not: once changes stop, they are carried by the later of the
   * last one's debounce and the end of the interval after the previous call. No
   * call is later than that, and nothing is pending after it.
   */
  lemma {:induction false} ChangesSettleInTime(o: Options, now: int, events: seq<Event>)
    requires ValidOptions(o) && !o.dryRun
    ensures var s := Run(o, now, events);
            && (forall k | 0 <= k < |s.calls| :: Settled(o, s.changes, s.calls[k]))
            && (FreshFrom(s) < |s.changes| ==>
                  s.now <= Max(s.changes[|s.changes| - 1].at + o.debounceMs, s.paceFrom + o.minRestartIntervalMs))
  {
    hide Run, Settled, Settling, Partitions, Spaced, InTime, AllPunctual;
    RunOk(o, now, events);
    RunSettles(o, now, events);
    var s := Run(o, now, events);
    if FreshFrom(s) < |s.changes| { PendingSettles(o, s); }
  }

  /** Where the clock may not pass, a timer is due, and its firing disarms it or carries the changes. */
  lemma {:induction false} ClockNeverStuck(o: Options, now: int, events: seq<Event>)
    requires ValidOptions(o) && !o.dryRun
    ensures var s := Run(o, now, events);
            Step(o, s, Tick(s.now + 1)) == s ==>
              exists e: Event :: (e.DebounceFires? || e.MaxWaitFires? || e.TrailingFires?) && Step(o, s, e) != s
  {
    hide Run, Partitions, Spaced, InTime, AllPunctual;
    RunOk(o, now, events);
    var s := Run(o, now, events);
    if Step(o, s, Tick(s.now + 1)) == s {
      Unstick(o, s);
    }
  }

  lemma Unstick(o: Options, s: State)
    requires ValidOptions(o) && !o.dryRun && InTime(o, s) && Step(o, s, Tick(s.now + 1)) == s
    ensures exists e: Event :: (e.DebounceFires? || e.MaxWaitFires? || e.TrailingFires?) && Step(o, s, e) != s
  {
    if Due(s.debounce, s.now) {
      assert Step(o, s, DebounceFires) != s;
    } else if Due(s.maxWait, s.now) {
      assert Step(o, s, MaxWaitFires) != s;
    } else {
      assert Step(o, s, TrailingFires) != s;
    }
  }

  /** A dry run makes no call and never waits out the interval after one. */
  lemma {:induction false} DryRunNeverCalls(o: Options, now: int, events: seq<Event>)
    requires o.dryRun
    ensures var s := Run(o, now, events); s.calls == [] && s.trailing.None? && s.lastRestartAt == 0
  {
    if events != [] {
      DryRunNeverCalls(o, now, events[..|events| - 1]);
    }
  }

  /** A due timer in a dry run forgets what was pending. */
  lemma DryRunForgets(o: Options, s: State, e: Event)
    requires o.dryRun
    requires (e.DebounceFires? && Due(s.debounce, s.now)) || (e.MaxWaitFires? && Due(s.maxWait, s.now))
             || (e.TrailingFires? && Due(s.trailing, s.now))
    ensures var r := Step(o, s, e); !Armed(r) && r.pendingReason.None? && r.pendingEnv.None? && r.calls == s.calls
  {
  }

  /** The latest of the events that the flag follows. */
  function Latest(events: seq<Event>, up: Event, down: Event): bool {
    if events == [] then false
    else
      var e := events[|events| - 1];
      if e == up then true else if e == down then false else Latest(events[..|events| - 1], up, down)
  }

  /** The plugin is closed exactly after a teardown began with no install since. */
  lemma {:induction false} ClosedIff(o: Options, now: int, events: seq<Event>)
    ensures Run(o, now, events).closed <==> Latest(events, TeardownBegins, Install)
  {
    hide Step;
    if events != [] {
      ClosedIff(o, now, events[..|events| - 1]);
      StepCloses(o, Run(o, now, events[..|events| - 1]), events[|events| - 1]);
    }
  }

  lemma StepCloses(o: Options, s: State, e: Event)
    ensures Step(o, s, e).closed <==> e == TeardownBegins || (s.closed && e != Install)
    ensures Step(o, s, e).watching <==>
              e == Install || (s.watching && !(e == TeardownEnds && s.teardowns > 0))
    ensures Step(o, s, e).teardowns == (if e == TeardownBegins then s.teardowns + 1
                                        else if e == TeardownEnds && s.teardowns > 0 then s.teardowns - 1
                                        else s.teardowns)
  {
  }

  // -------------------------------------------------- when exactly a call comes

  /** Each timer is armed for its exact instant, counted from the changes it waits after. */
  ghost predicate TimersExact(o: Options, s: State) {
    && FreshFrom(s) <= s.unflushedFrom <= |s.changes|
    && s.debounce == (if s.unflushedFrom < |s.changes|
                      then Some(s.changes[|s.changes| - 1].at + o.debounceMs) else None)
    && s.maxWait == (if o.debounceMaxWaitMs > 0 && s.unflushedFrom < |s.changes|
                     then Some(s.changes[s.unflushedFrom].at + o.debounceMaxWaitMs) else None)
    && (s.trailing.Some? ==>
          o.minRestartIntervalMs > 0 && s.trailing.value == s.paceFrom + o.minRestartIntervalMs)
  }

  /**
   * The call came exactly when the debounce of its last change was over, or the
   * maximum wait of the first after the flush before, or the interval that such
   * a flush had found running; and no change it does not carry came before it.
   */
  ghost predicate Timed(o: Options, changes: seq<Change>, call: Call) {
    && call.own <= call.unflushed <= call.to <= |changes|
    && (forall j | call.to <= j < |changes| :: call.at <= changes[j].at)
    && (|| (call.unflushed < call.to && call.at == changes[call.to - 1].at + o.debounceMs)
        || (o.debounceMaxWaitMs > 0 && call.unflushed < call.to
            && call.at == changes[call.unflushed].at + o.debounceMaxWaitMs)
        || (o.minRestartIntervalMs > 0 && call.at == call.previousAt + o.minRestartIntervalMs))
  }

  ghost predicate AllTimed(o: Options, changes: seq<Change>, calls: seq<Call>) {
    forall i | 0 <= i < |calls| :: Timed(o, changes, calls[i])
  }

  lemma TimedStays(o: Options, s: State, next: Change, calls: seq<Call>)
    requires AllTimed(o, s.changes, calls) && next.at == s.now && forall i | 0 <= i < |calls| :: calls[i].at <= s.now
    ensures AllTimed(o, s.changes + [next], calls)
  {
    assert forall i | 0 <= i < |calls| :: Timed(o, s.changes, calls[i]);
  }

  lemma CallIsTimed(o: Options, s: State, reason: string)
    requires TimersExact(o, s) && InTime(o, s)
    requires Due(s.debounce, s.now) || Due(s.maxWait, s.now) || Due(s.trailing, s.now)
    ensures Timed(o, s.changes, MakeCall(s, reason))
  {
  }

  lemma FlushTimed(o: Options, s: State)
    requires ValidOptions(o) && !o.dryRun && InTime(o, s) && TimersExact(o, s) && AllTimed(o, s.changes, s.calls)
    requires Due(s.debounce, s.now) || Due(s.maxWait, s.now) || Due(s.trailing, s.now)
    ensures var r := Flush(o, s); TimersExact(o, r) && AllTimed(o, r.changes, r.calls)
  {
    hide Timed, InTime, TimersExact, MakeCall, Carried;
    FlushExact(o, s);
    CallIsTimed(o, s, if s.pendingReason.Some? then s.pendingReason.value else "file-change");
  }

  lemma FlushExact(o: Options, s: State)
    requires TimersExact(o, s) && InTime(o, s)
    ensures TimersExact(o, Flush(o, s))
  {
  }

  lemma StepTimed(o: Options, s: State, e: Event)
    requires ValidOptions(o) && !o.dryRun && Ok(o, s) && TimersExact(o, s) && AllTimed(o, s.changes, s.calls)
    ensures var r := Step(o, s, e); TimersExact(o, r) && AllTimed(o, r.changes, r.calls)
  {
    hide Flush, InTime, AllTimed, MakeCall, Carried, Partitions, AllPunctual;
    match e
    case Changes(reason, env) => TimedStays(o, s, Change(s.now, reason, env), s.calls);
    case DebounceFires => if Due(s.debounce, s.now) { FlushTimed(o, s); }
    case MaxWaitFires => if Due(s.maxWait, s.now) { FlushTimed(o, s); }
    case TrailingFires => if Due(s.trailing, s.now) { FlushTimed(o, s); }
    case _ =>
  }

  lemma {:induction false} RunTimed(o: Options, now: int, events: seq<Event>)
    requires ValidOptions(o) && !o.dryRun
    ensures var s := Run(o, now, events); TimersExact(o, s) && AllTimed(o, s.changes, s.calls)
  {
    if events != [] {
      hide Step, Ok;
      RunTimed(o, now, events[..|events| - 1]);
      RunOk(o, now, events[..|events| - 1]);
      StepTimed(o, Run(o, now, events[..|events| - 1]), events[|events| - 1]);
    }
  }

  /** On every run each call comes at one of those instants, never before. */
  lemma {:induction false} CallsAreTimed(o: Options, now: int, events: seq<Event>, k: nat)
    requires ValidOptions(o) && !o.dryRun && k < |Run(o, now, events).calls|
    ensures var s := Run(o, now, events); Timed(o, s.changes, s.calls[k])
  {
    hide Run, Timed;
    RunTimed(o, now, events);
  }

  /** With no maximum wait and no interval, changes closer than the debounce leave together. */
  lemma {:induction false} CloseChangesLeaveTogether(o: Options, now: int, events: seq<Event>, k: nat, i: nat)
    requires ValidOptions(o) && !o.dryRun && o.debounceMaxWaitMs == 0 && o.minRestartIntervalMs == 0
    requires var s := Run(o, now, events);
             && k < |s.calls| && s.calls[k].own <= i < s.calls[k].to && i + 1 < |s.changes|
             && s.changes[i + 1].at - s.changes[i].at < o.debounceMs
    ensures i + 1 < Run(o, now, events).calls[k].to
  {
    hide Run;
    CallsAreTimed(o, now, events, k);
  }

  /**
   * A due timer calls for a restart exactly unless the current install restarted
   * less than the interval ago; otherwise it waits for the end of the interval.
   */
  lemma {:induction false} DueTimerCallsIff(o: Options, now: int, events: seq<Event>, e: Event)
    requires ValidOptions(o) && !o.dryRun
    requires var s := Run(o, now, events);
             || (e.DebounceFires? && Due(s.debounce, s.now)) || (e.MaxWaitFires? && Due(s.maxWait, s.now))
             || (e.TrailingFires? && Due(s.trailing, s.now))
    ensures var s, r := Run(o, now, events), Step(o, Run(o, now, events), e);
            var last := LastRestart(s.calls, s.installs);
            && (|r.calls| == |s.calls| + 1 <==> s.now - last >= o.minRestartIntervalMs || o.minRestartIntervalMs == 0)
            && (|r.calls| == |s.calls| ==> r.trailing == Some(last + o.minRestartIntervalMs))
            && s.installs == Installs(events)
  {
    hide Run, Partitions, InTime, AllPunctual;
    RunOk(o, now, events);
    InstallsAreEvents(o, now, events);
  }

  function Installs(events: seq<Event>): nat {
    if events == [] then 0
    else Installs(events[..|events| - 1]) + if events[|events| - 1].Install? then 1 else 0
  }

  lemma {:induction false} InstallsAreEvents(o: Options, now: int, events: seq<Event>)
    ensures Run(o, now, events).installs == Installs(events)
  {
    hide Step;
    if events != [] {
      InstallsAreEvents(o, now, events[..|events| - 1]);
      StepInstalls(o, Run(o, now, events[..|events| - 1]), events[|events| - 1]);
    }
  }

  lemma StepInstalls(o: Options, s: State, e: Event)
    ensures Step(o, s, e).installs == s.installs + if e.Install? then 1 else 0
  {
  }

  /** The changes of a run are those that were seen, at the time and with what they brought. */
  function Seen(o: Options, now: int, events: seq<Event>): seq<Change> {
    if events == [] then []
    else
      var init, e := events[..|events| - 1], events[|events| - 1];
      if e.Changes? then Seen(o, now, init) + [Change(Run(o, now, init).now, e.reason, e.env)] else Seen(o, now, init)
  }

  lemma {:induction false} ChangesAreSeen(o: Options, now: int, events: seq<Event>)
    ensures Run(o, now, events).changes == Seen(o, now, events)
  {
    hide Step;
    if events != [] {
      ChangesAreSeen(o, now, events[..|events| - 1]);
      StepSees(o, Run(o, now, events[..|events| - 1]), events[|events| - 1]);
    }
  }

  lemma StepSees(o: Options, s: State, e: Event)
    ensures Step(o, s, e).changes == if e.Changes? then s.changes + [Change(s.now, e.reason, e.env)] else s.changes
  {
  }

  // ------------------------------------------------------- across a teardown

  /** `later` goes on from `calls`, and the first new call starts where `calls` stopped. */
  ghost predicate GoesOn(calls: seq<Call>, later: seq<Call>) {
    && |calls| <= |later| && later[..|calls|] == calls
    && (|calls| < |later| ==> later[|calls|].from == Carried(calls) && later[|calls|].from < later[|calls|].to)
  }

  lemma {:induction false} CallsGoOn(o: Options, now: int, events: seq<Event>, rest: seq<Event>)
    requires ValidOptions(o) && !o.dryRun
    ensures GoesOn(Run(o, now, events).calls, Run(o, now, events + rest).calls)
  {
    hide Ok, Step;
    var all := events + rest;
    var s := Run(o, now, events);
    if rest == [] {
      assert all == events;
    } else {
      assert all[..|all| - 1] == events + rest[..|rest| - 1];
      CallsGoOn(o, now, events, rest[..|rest| - 1]);
      StepAddsCalls(o, Run(o, now, all[..|all| - 1]), all[|all| - 1]);
    }
    RunOk(o, now, all);
    var r := Run(o, now, all);
    NextLinked(o, r, |s.calls|);
    assert |s.calls| < |r.calls| ==> r.calls[..|s.calls|] == s.calls;
  }

  lemma StepAddsCalls(o: Options, s: State, e: Event)
    ensures |s.calls| <= |Step(o, s, e).calls| && Step(o, s, e).calls[..|s.calls|] == s.calls
  {
  }

  lemma NextLinked(o: Options, s: State, n: nat)
    requires Ok(o, s)
    ensures n < |s.calls| ==>
              s.calls[n].from == Carried(s.calls[..n]) && s.calls[n].from < s.calls[n].to <= |s.changes|
              && Faithful(s.changes, s.calls[n])
  {
    if n < |s.calls| {
      assert Linked(s.calls, n);
    }
  }

  predicate Carries(call: Call, i: int) {
    call.from <= i < call.to
  }

  /** The call carries a change that was there in `s`. */
  ghost predicate CarriesOlder(s: State, call: Call) {
    exists i :: 0 <= i < |s.changes| && Carries(call, i)
  }

  /**
   * What is pending survives a teardown: from any state in which a teardown ends,
   * the next call carries a change from before it if and only if something was
   * pending then, and then it carries every such change.
   */
  lemma {:induction false} PendingSurvivesTeardownIff(o: Options, now: int, events: seq<Event>, rest: seq<Event>)
    requires ValidOptions(o) && !o.dryRun
    requires Run(o, now, events).teardowns > 0
    requires |Run(o, now, events + ([TeardownEnds] + rest)).calls| > |Run(o, now, events).calls|
    ensures var s := Run(o, now, events);
            var call := Run(o, now, events + ([TeardownEnds] + rest)).calls[|s.calls|];
            && (CarriesOlder(s, call) <==> s.pendingReason.Some?)
            && (s.pendingReason.Some? ==> forall i | Carried(s.calls) <= i < |s.changes| :: Carries(call, i))
  {
    hide Run, Ok, Step;
    var s, later := Run(o, now, events), events + ([TeardownEnds] + rest);
    var r := Run(o, now, later);
    CallsGoOn(o, now, events, [TeardownEnds] + rest);
    ChangesGoOn(o, now, events, [TeardownEnds] + rest);
    CallReachesChanges(o, now, events, [TeardownEnds] + rest);
    RunOk(o, now, events);
    PendingMeansUncarried(o, s);
    var call := r.calls[|s.calls|];
    if s.pendingReason.Some? {
      assert Carries(call, |s.changes| - 1);
    }
  }

  lemma PendingMeansUncarried(o: Options, s: State)
    requires Ok(o, s)
    ensures Carried(s.calls) <= |s.changes| && (s.pendingReason.Some? <==> Carried(s.calls) < |s.changes|)
  {
  }

  lemma {:induction false} ChangesGoOn(o: Options, now: int, events: seq<Event>, rest: seq<Event>)
    ensures |Run(o, now, events).changes| <= |Run(o, now, events + rest).changes|
  {
    hide Step;
    var all := events + rest;
    if rest == [] {
      assert all == events;
    } else {
      assert all[..|all| - 1] == events + rest[..|rest| - 1];
      ChangesGoOn(o, now, events, rest[..|rest| - 1]);
      StepAddsChanges(o, Run(o, now, all[..|all| - 1]), all[|all| - 1]);
    }
  }

  lemma StepAddsChanges(o: Options, s: State, e: Event)
    ensures |s.changes| <= |Step(o, s, e).changes|
  {
  }

  /** A call carries all changes seen up to it, so a later one reaches past those of an earlier state. */
  lemma {:induction false} CallReachesChanges(o: Options, now: int, events: seq<Event>, rest: seq<Event>)
    ensures var s, r := Run(o, now, events), Run(o, now, events + rest);
            && |s.calls| <= |r.calls|
            && forall k | |s.calls| <= k < |r.calls| :: r.calls[k].to >= |s.changes|
  {
    hide Step;
    var all := events + rest;
    if rest == [] {
      assert all == events;
    } else {
      var init := all[..|all| - 1];
      assert init == events + rest[..|rest| - 1];
      CallReachesChanges(o, now, events, rest[..|rest| - 1]);
      ChangesGoOn(o, now, events, rest[..|rest| - 1]);
      StepReaches(o, Run(o, now, init), all[|all| - 1]);
    }
  }

  lemma StepReaches(o: Options, s: State, e: Event)
    ensures var r := Step(o, s, e);
            && |s.calls| <= |r.calls| && r.calls[..|s.calls|] == s.calls
            && forall k | |s.calls| <= k < |r.calls| :: r.calls[k].to >= |s.changes|
  {
  }

  lemma NoEvents(o: Options, now: int)
    ensures Run(o, now, []) == Begin(now)
  {
  }

  lemma RunPrefix(o: Options, now: int, events: seq<Event>, i: nat)
    requires i < |events|
    ensures Run(o, now, events[..i + 1]) == Step(o, Run(o, now, events[..i]), events[i])
  {
    hide Step;
    assert events[..i + 1][..i] == events[..i];
  }

  lemma PayloadStays(o: Options, e: Env)
    requires o == Options(0, 0, 0, false)
    ensures var s := Step(o, Step(o, Begin(1), Install), Changes("a", Some(e)));
            var r := Step(o, Step(o, s, TeardownBegins), TeardownEnds);
            r.pendingEnv == Some(e) && |r.changes| == 1 && r.calls == [] && r.resumedAt == 1 && !Armed(r) && r.now == 1
  {
    assert map[] + e == e;
  }

  lemma PayloadLeaves(o: Options, s: State, e: Env)
    requires o == Options(0, 0, 0, false)
    requires s.pendingEnv == Some(e) && |s.changes| == 1 && s.calls == [] && s.resumedAt == 1 && !Armed(s) && s.now == 1
    ensures var r := Step(o, Step(o, Step(o, s, Install), Changes("b", None)), DebounceFires);
            && |r.calls| == 1 && r.calls[0].env == Some(e) && r.calls[0].reason == "b"
            && r.calls[0].from == 0 && r.calls[0].own == 1 && r.calls[0].to == 2
  {
  }

  /** So an environment pending at an uninstall reaches the workers after the next install, whatever it watches. */
  lemma StalePayloadIsSent(e: Env)
    ensures var o := Options(0, 0, 0, false);
            var events := [Install, Changes("a", Some(e)), TeardownBegins, TeardownEnds,
                           Install, Changes("b", None), DebounceFires];
            var s := Run(o, 1, events);
            && |s.calls| == 1 && s.calls[0].env == Some(e) && s.calls[0].reason == "b"
            && s.calls[0].from == 0 && s.calls[0].own == 1 && s.calls[0].to == 2
  {
    var o := Options(0, 0, 0, false);
    var events := [Install, Changes("a", Some(e)), TeardownBegins, TeardownEnds,
                   Install, Changes("b", None), DebounceFires];
    hide Run;
    assert events[..0] == [] && Run(o, 1, []) == Begin(1) by { NoEvents(o, 1); }
    RunPrefix(o, 1, events, 0);
    RunPrefix(o, 1, events, 1);
    RunPrefix(o, 1, events, 2);
    RunPrefix(o, 1, events, 3);
    RunPrefix(o, 1, events, 4);
    RunPrefix(o, 1, events, 5);
    RunPrefix(o, 1, events, 6);
    hide Step;
    PayloadStays(o, e);
    PayloadLeaves(o, Run(o, 1, events[..4]), e);
    assert events[..7] == events;
  }

  /** The plugin's closure. The environment fires its timers and awaits restartWorkers. */
  class FileWatcherPlugin {
    const options: Options
    var closed: bool
    var watching: bool
    /** Teardown calls suspended until their watchers have closed. */
    var teardowns: nat
    var debounceTimer: Option<int>
    var maxWaitTimer: Option<int>
    var trailingTimer: Option<int>
    var pendingReason: Option<string>
    var pendingEnv: Option<Env>
    var lastRestartAt: int
    ghost var changes: seq<Change>
    ghost var calls: seq<Call>
    ghost var installs: nat
    ghost var resumedAt: nat
    ghost var paceFrom: int
    ghost var unflushedFrom: nat

    ghost function View(now: int): State
      reads this
    {
      State(now, watching, closed, teardowns, debounceTimer, maxWaitTimer, trailingTimer,
            pendingReason, pendingEnv, lastRestartAt, changes, calls, installs, resumedAt, paceFrom, unflushedFrom)
    }

    constructor (options: Options, ghost now: int)
      ensures this.options == options && View(now) == Begin(now)
    {
      this.options := options;
      closed, watching, debounceTimer, maxWaitTimer, trailingTimer := false, false, None, None, None;
      pendingReason, pendingEnv, lastRestartAt := None, None, 0;
      teardowns, changes, calls, installs, resumedAt, paceFrom, unflushedFrom := 0, [], [], 0, 0, 0, 0;
    }

    method TriggerRestart(reason: string, env: Option<Env>, now: int)
      modifies this
      ensures View(now) == Step(options, old(View(now)), Changes(reason, env))
    {
      pendingReason := Some(reason);
      if env.Some? {
        pendingEnv := Some((if pendingEnv.Some? then pendingEnv.value else map[]) + env.value);
      }
      debounceTimer := Some(now + options.debounceMs);
      if options.debounceMaxWaitMs > 0 && maxWaitTimer.None? {
        maxWaitTimer := Some(now + options.debounceMaxWaitMs);
      }
      changes := changes + [Change(now, reason, env)];
    }

    method ClearTimers(ghost now: int)
      modifies this`debounceTimer, this`maxWaitTimer, this`trailingTimer
      ensures View(now) == old(View(now)).(debounce := None, maxWait := None, trailing := None)
    {
      debounceTimer := None;
      maxWaitTimer := None;
      trailingTimer := None;
    }

    /** flushRestart up to its await; the result is the restartWorkers call it makes, if any. */
    method FlushRestart(now: int) returns (call: Option<(Option<Env>, string)>)
      modifies this
      ensures View(now) == Flush(options, old(View(now)))
      ensures call.Some? <==> |calls| > |old(calls)|
      ensures call.Some? ==> call.value == (calls[|calls| - 1].env, calls[|calls| - 1].reason)
    {
      hide MakeCall, Step;
      ghost var before := View(now);
      ClearTimers(now);
      unflushedFrom := |changes|;
      var reason := if pendingReason.Some? then pendingReason.value else "file-change";
      if options.dryRun {
        pendingReason, pendingEnv := None, None;
        return None;
      }
      if options.minRestartIntervalMs > 0 && now - lastRestartAt < options.minRestartIntervalMs {
        var remaining := options.minRestartIntervalMs - (now - lastRestartAt);
        trailingTimer := Some(now + remaining);
        paceFrom := lastRestartAt;
        return None;
      }
      var env := IssueCall(reason, before, now);
      call := Some((env, reason));
    }

    /** The pending payload leaves for one restartWorkers call. */
    method IssueCall(reason: string, ghost before: State, now: int) returns (env: Option<Env>)
      requires before.pendingEnv == pendingEnv
      modifies this`pendingReason, this`pendingEnv, this`lastRestartAt, this`paceFrom, this`calls
      ensures View(now) == old(View(now)).(pendingReason := None, pendingEnv := None, lastRestartAt := now,
                                           paceFrom := now, calls := old(calls) + [MakeCall(before, reason)])
      ensures env == MakeCall(before, reason).env && reason == MakeCall(before, reason).reason
    {
      hide Carried, FreshFrom;
      env := pendingEnv;
      calls := calls + [MakeCall(before, reason)];
      pendingReason, pendingEnv := None, None;
      lastRestartAt, paceFrom := now, now;
    }

    method OnInstall(ghost now: int)
      modifies this
      ensures View(now) == Step(options, old(View(now)), Install)
    {
      closed := false;
      lastRestartAt := 0;
      watching := true;
      installs, paceFrom := installs + 1, if trailingTimer.Some? then paceFrom else 0;
    }

    method BeginTeardown(ghost now: int)
      modifies this
      ensures View(now) == Step(options, old(View(now)), TeardownBegins)
    {
      closed := true;
      teardowns := teardowns + 1;
    }

    method EndTeardown(ghost now: int)
      requires teardowns > 0
      modifies this
      ensures View(now) == Step(options, old(View(now)), TeardownEnds)
    {
      ClearTimers(now);
      watching := false;
      teardowns := teardowns - 1;
      resumedAt, unflushedFrom := |changes|, |changes|;
    }
  }
}
