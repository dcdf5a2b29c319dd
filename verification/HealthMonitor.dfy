/**
 * The primary-side health policies. What the streaming counters decide is
 * specified over the whole history of a worker's reports.
 */
module HealthMonitoring {
  import opened Wrappers
  import opened Config

  const MB := 1024 * 1024

  datatype Report = Report(rss: int, lag: int)

  datatype Trigger = Rss | Lag

  // ------------------------------------------------- specification by history

  predicate Over(c: Config, r: Report) {
    c.health.maxEventLoopLagMs > 0 && r.lag > c.health.maxEventLoopLagMs
  }

  predicate Spike(c: Config, r: Report) {
    c.health.lagSpikeMs > 0 && r.lag > c.health.lagSpikeMs
  }

  /** The history ends in `lagRecycleBeats` consecutive reports over the threshold. */
  ghost predicate Sustained(c: Config, history: seq<Report>) {
    && |history| >= c.health.lagRecycleBeats
    && forall i | |history| - c.health.lagRecycleBeats <= i < |history| :: 0 <= i && Over(c, history[i])
  }

  /** The last report of the history is a reason to recycle. */
  ghost predicate Provokes(c: Config, t: Trigger, history: seq<Report>) {
    && history != []
    && match t
       case Rss => c.workers.maxRssMb > 0 && history[|history| - 1].rss > c.workers.maxRssMb * MB
       case Lag => Spike(c, history[|history| - 1]) || Sustained(c, history)
  }

  /** Some report of the history was a reason. */
  ghost predicate Provoked(c: Config, t: Trigger, history: seq<Report>) {
    exists k :: 0 <= k <= |history| && Provokes(c, t, history[..k])
  }

  /** A policy fires at a worker's first provoking report and never again. */
  ghost predicate Fires(c: Config, t: Trigger, history: seq<Report>) {
    Provokes(c, t, history) && !Provoked(c, t, history[..|history| - 1])
  }

  /** How many reports in a row, up to the last, were over the threshold. */
  ghost function Beats(c: Config, history: seq<Report>): nat {
    if history == [] || !Over(c, history[|history| - 1]) then 0
    else 1 + Beats(c, history[..|history| - 1])
  }

  lemma {:induction false} BeatsAreConsecutive(c: Config, history: seq<Report>)
    ensures Beats(c, history) <= |history|
    ensures forall i | |history| - Beats(c, history) <= i < |history| :: Over(c, history[i])
    ensures Beats(c, history) < |history| ==> !Over(c, history[|history| - Beats(c, history) - 1])
  {
    if history != [] {
      BeatsAreConsecutive(c, history[..|history| - 1]);
    }
  }

  /** The running count reaches the limit exactly when the policy's window is full. */
  lemma BeatsMeanSustained(c: Config, history: seq<Report>)
    requires c.health.lagRecycleBeats >= 1
    ensures Sustained(c, history) <==> Beats(c, history) >= c.health.lagRecycleBeats
  {
    BeatsAreConsecutive(c, history);
  }

  /** How the running count and the lag policy move with one more report. */
  lemma NextReport(c: Config, history: seq<Report>, r: Report)
    requires c.health.lagRecycleBeats >= 1
    ensures var next := history + [r];
            && next[..|next| - 1] == history
            && Beats(c, next) == (if Over(c, r) then 1 + Beats(c, history) else 0)
            && (c.health.maxEventLoopLagMs <= 0 ==> Beats(c, history) == 0)
            && (Provokes(c, Lag, next) <==> Spike(c, r) || Beats(c, next) >= c.health.lagRecycleBeats)
  {
    assert (history + [r])[..|history|] == history;
    BeatsMeanSustained(c, history + [r]);
  }

  lemma ProvokedExtends(c: Config, t: Trigger, history: seq<Report>, r: Report)
    ensures Provoked(c, t, history + [r]) <==> Provoked(c, t, history) || Provokes(c, t, history + [r])
  {
    var longer := history + [r];
    assert longer[..|longer|] == longer;
    assert forall k | 0 <= k <= |history| :: longer[..k] == history[..k];
    if Provoked(c, t, history) {
      var k :| 0 <= k <= |history| && Provokes(c, t, history[..k]);
      assert Provokes(c, t, longer[..k]);
    }
  }

  /** Over any history a policy fires at most once. */
  lemma FiresAtMostOnce(c: Config, t: Trigger, history: seq<Report>, j: nat, k: nat)
    requires j <= |history| && k <= |history|
    requires Fires(c, t, history[..j]) && Fires(c, t, history[..k])
    ensures j == k
  {
    if j < k {
      NotBefore(c, t, history, j, k);
    } else if k < j {
      NotBefore(c, t, history, k, j);
    }
  }

  lemma NotBefore(c: Config, t: Trigger, history: seq<Report>, j: nat, k: nat)
    requires j < k <= |history| && Provokes(c, t, history[..j])
    ensures !Fires(c, t, history[..k])
  {
    var earlier := history[..k][..k - 1];
    assert earlier[..j] == history[..j];
  }

  /** And it fires somewhere exactly if some report was a reason. */
  lemma {:induction false} FiresIffProvoked(c: Config, t: Trigger, history: seq<Report>)
    ensures Provoked(c, t, history) <==> exists k :: 0 <= k <= |history| && Fires(c, t, history[..k])
  {
    if history == [] {
      assert forall k | 0 <= k <= 0 :: history[..k] == [];
    } else {
      var init, n := history[..|history| - 1], |history| - 1;
      FiresIffProvoked(c, t, init);
      assert history == init + [history[n]];
      ProvokedExtends(c, t, init, history[n]);
      assert forall k | 0 <= k <= n :: history[..k] == init[..k];
      assert history[..|history|] == history;
      if Provoked(c, t, init) {
        var k :| 0 <= k <= n && Fires(c, t, init[..k]);
        assert Fires(c, t, history[..k]);
      } else if Provoked(c, t, history) {
        assert Fires(c, t, history[..|history|]);
      }
      if k :| 0 <= k <= |history| && Fires(c, t, history[..k]) {
        assert Provokes(c, t, history[..k]);
      }
    }
  }

  // ---------------------------------------------------------------- streaming

  ghost function HistoryOf(history: map<int, seq<Report>>, w: int): seq<Report> {
    if w in history then history[w] else []
  }

  ghost function FiringsOf(fired: map<(int, Trigger), nat>, w: int, t: Trigger): nat {
    if (w, t) in fired then fired[(w, t)] else 0
  }

  /** Every firing so far is counted: one per worker and policy that had a reason. */
  ghost predicate Counts(c: Config, history: map<int, seq<Report>>, fired: map<(int, Trigger), nat>) {
    forall w, t :: FiringsOf(fired, w, t) == if Provoked(c, t, HistoryOf(history, w)) then 1 else 0
  }

  function Count(fired: map<(int, Trigger), nat>, w: int, t: Trigger, now: bool): map<(int, Trigger), nat> {
    if now then fired[(w, t) := if (w, t) in fired then fired[(w, t)] + 1 else 1] else fired
  }

  lemma CountsNext(c: Config, history: map<int, seq<Report>>, fired: map<(int, Trigger), nat>, w: int, r: Report)
    requires Counts(c, history, fired)
    ensures var next := HistoryOf(history, w) + [r];
            Counts(c, history[w := next],
                   Count(Count(fired, w, Rss, Fires(c, Rss, next)), w, Lag, Fires(c, Lag, next)))
  {
    hide Provokes, Provoked;
    var before := HistoryOf(history, w);
    var next := before + [r];
    assert next[..|next| - 1] == before;
    ProvokedExtends(c, Rss, before, r);
    ProvokedExtends(c, Lag, before, r);
    var counted := Count(Count(fired, w, Rss, Fires(c, Rss, next)), w, Lag, Fires(c, Lag, next));
    forall x, t
      ensures FiringsOf(counted, x, t) == if Provoked(c, t, HistoryOf(history[w := next], x)) then 1 else 0
    {
      assert FiringsOf(fired, x, t) == if Provoked(c, t, HistoryOf(history, x)) then 1 else 0;
      assert HistoryOf(history[w := next], x) == if x == w then next else HistoryOf(history, x);
      match t
      case Rss =>
      case Lag =>
    }
  }

  /** The counters kept for one worker say what its history says. */
  ghost predicate LagAgrees(c: Config, history: seq<Report>, recycled: bool, beats: int) {
    && (recycled <==> Provoked(c, Lag, history))
    && (!recycled ==> beats == Beats(c, history))
  }

  function BeatsOf(lagBeats: map<int, int>, w: int): int {
    if w in lagBeats then lagBeats[w] else 0
  }

  // ---------------------------------------------------- the wedged watch, over runs

  /** The registered workers that a sweep finds silent for longer than the timeout. */
  function Silent(c: Config, registry: map<int, int>, now: int): set<int> {
    set w | w in registry && now - registry[w] > c.health.wedgedTimeoutMs
  }

  /** A worker flagged at an instant, for being silent since its last report. */
  datatype Flag = Flag(w: int, at: int, last: int)

  /**
   * The registry, when the next sweep is due, and history: the last report of
   * every worker that has reported and not exited, and all flags.
   */
  datatype Watch = Watch(
    now: int, sweepDue: int, stopped: bool, registry: map<int, int>, gone: set<int>,
    last: map<int, int>, flags: multiset<Flag>)

  datatype WatchEvent = Tick(to: int) | Reports(w: int) | Exits(w: int) | SweepFires | Stops

  function FlagsOf(registry: map<int, int>, silent: set<int>, now: int): set<Flag> {
    set w | w in silent && w in registry :: Flag(w, now, registry[w])
  }

  function WatchStep(c: Config, s: Watch, e: WatchEvent): Watch {
    match e
    case Tick(to) => if s.now <= to && (s.stopped || to <= s.sweepDue) then s.(now := to) else s
    case Reports(w) =>
      if s.stopped || w in s.gone then s else s.(registry := s.registry[w := s.now], last := s.last[w := s.now])
    case Exits(w) => s.(registry := s.registry - {w}, last := s.last - {w}, gone := s.gone + {w})
    case SweepFires =>
      if s.stopped || s.now < s.sweepDue then s
      else
        var silent := Silent(c, s.registry, s.now);
        s.(registry := s.registry - silent, sweepDue := s.sweepDue + c.health.heartbeatMs,
           flags := s.flags + multiset(FlagsOf(s.registry, silent, s.now)))
    case Stops => s.(stopped := true, registry := map[])
  }

  function WatchRun(c: Config, now: int, events: seq<WatchEvent>): Watch {
    if events == [] then Watch(now, now + c.health.heartbeatMs, false, map[], {}, map[], multiset{})
    else WatchStep(c, WatchRun(c, now, events[..|events| - 1]), events[|events| - 1])
  }

  /** Each flag is justified and the only one for its silence. */
  ghost predicate FlagsOk(c: Config, s: Watch) {
    && (forall f | f in s.flags ::
          && s.flags[f] == 1 && f.at <= s.now
          && c.health.wedgedTimeoutMs < f.at - f.last <= c.health.wedgedTimeoutMs + c.health.heartbeatMs)
    && (forall f, g | f in s.flags && g in s.flags && f.w == g.w && f.last == g.last :: f == g)
  }

  ghost predicate Flagged(s: Watch, w: int) {
    exists f :: f in s.flags && f.w == w && w in s.last && f.last == s.last[w]
  }

  /** If it reported, the worker is registered with its last report, or flagged for its silence since. */
  ghost predicate WorkerOk(c: Config, s: Watch, w: int) {
    && (w in s.last ==> s.last[w] <= s.now && w !in s.gone)
    && (w in s.registry ==>
          && w in s.last && s.last[w] == s.registry[w]
          && s.sweepDue - c.health.heartbeatMs - s.registry[w] <= c.health.wedgedTimeoutMs)
    && (!s.stopped && w in s.last && w !in s.registry ==> Flagged(s, w))
  }

  /** What a worker was flagged for is older than what it is registered with. */
  ghost predicate FlagsAreOlder(s: Watch) {
    forall f | f in s.flags && f.w in s.registry :: f.last < s.registry[f.w]
  }

  ghost predicate RegistryOk(c: Config, s: Watch) {
    FlagsAreOlder(s) && forall w :: WorkerOk(c, s, w)
  }

  ghost predicate WatchOk(c: Config, s: Watch) {
    && (!s.stopped ==> s.sweepDue - c.health.heartbeatMs <= s.now <= s.sweepDue)
    && FlagsOk(c, s) && RegistryOk(c, s)
  }

  lemma SweepFlagsOk(c: Config, s: Watch)
    requires ValidConfig(c) && WatchOk(c, s) && !s.stopped && s.now == s.sweepDue
    ensures FlagsOk(c, WatchStep(c, s, SweepFires))
  {
    var added := FlagsOf(s.registry, Silent(c, s.registry, s.now), s.now);
    assert forall w | w in s.registry :: WorkerOk(c, s, w);
    assert forall f | f in added :: f !in s.flags;
  }

  lemma SweepRegistryOk(c: Config, s: Watch)
    requires ValidConfig(c) && WatchOk(c, s) && !s.stopped && s.now == s.sweepDue
    ensures RegistryOk(c, WatchStep(c, s, SweepFires))
  {
    hide FlagsOk, WorkerOk;
    forall w
      ensures WorkerOk(c, WatchStep(c, s, SweepFires), w)
    {
      SweepWorkerOk(c, s, w);
    }
  }

  lemma SweepWorkerOk(c: Config, s: Watch, w: int)
    requires WorkerOk(c, s, w) && !s.stopped && s.now == s.sweepDue
    ensures WorkerOk(c, WatchStep(c, s, SweepFires), w)
  {
    var silent := Silent(c, s.registry, s.now);
    var added, r := FlagsOf(s.registry, silent, s.now), WatchStep(c, s, SweepFires);
    if w in silent {
      assert Flag(w, s.now, s.registry[w]) in added;
      assert Flag(w, s.now, s.registry[w]) in r.flags;
    } else if Flagged(s, w) {
      StaysFlagged(s, r, w);
    }
  }

  lemma StaysFlagged(s: Watch, r: Watch, w: int)
    requires Flagged(s, w) && w in r.last && r.last[w] == s.last[w] && s.flags <= r.flags
    ensures Flagged(r, w)
  {
    var f :| f in s.flags && f.w == w && w in s.last && f.last == s.last[w];
    assert f in r.flags;
  }

  lemma OtherFlagsOk(c: Config, s: Watch, e: WatchEvent)
    requires FlagsOk(c, s) && !e.SweepFires?
    ensures FlagsOk(c, WatchStep(c, s, e))
  {
  }

  lemma FlagsArePast(c: Config, s: Watch)
    requires ValidConfig(c) && FlagsOk(c, s)
    ensures forall f | f in s.flags :: f.at <= s.now && f.last < f.at
  {
  }

  lemma OtherEventOk(c: Config, s: Watch, e: WatchEvent)
    requires ValidConfig(c) && WatchOk(c, s) && !e.SweepFires?
    ensures WatchOk(c, WatchStep(c, s, e))
  {
    hide WorkerOk;
    OtherFlagsOk(c, s, e);
    FlagsArePast(c, s);
    hide FlagsOk, Silent, FlagsOf;
    forall w
      ensures WorkerOk(c, WatchStep(c, s, e), w)
    {
      OtherWorkerOk(c, s, e, w);
    }
  }

  lemma OtherWorkerOk(c: Config, s: Watch, e: WatchEvent, w: int)
    requires c.health.wedgedTimeoutMs >= 0 && WorkerOk(c, s, w) && !e.SweepFires?
    requires !s.stopped ==> s.sweepDue - c.health.heartbeatMs <= s.now
    ensures WorkerOk(c, WatchStep(c, s, e), w)
  {
    if Flagged(s, w) && w in WatchStep(c, s, e).last && WatchStep(c, s, e).last[w] == s.last[w] {
      StaysFlagged(s, WatchStep(c, s, e), w);
    }
  }

  lemma WatchStepOk(c: Config, s: Watch, e: WatchEvent)
    requires ValidConfig(c) && c.health.wedgedTimeoutMs > 0 && WatchOk(c, s)
    ensures WatchOk(c, WatchStep(c, s, e))
  {
    hide FlagsOk, RegistryOk;
    if e.SweepFires? {
      if !s.stopped && s.now == s.sweepDue {
        SweepFlagsOk(c, s);
        SweepRegistryOk(c, s);
      }
    } else {
      OtherEventOk(c, s, e);
    }
  }

  lemma {:induction false} WatchRunOk(c: Config, now: int, events: seq<WatchEvent>)
    requires ValidConfig(c) && c.health.wedgedTimeoutMs > 0
    ensures WatchOk(c, WatchRun(c, now, events))
  {
    if events != [] {
      hide WatchOk;
      WatchRunOk(c, now, events[..|events| - 1]);
      WatchStepOk(c, WatchRun(c, now, events[..|events| - 1]), events[|events| - 1]);
    }
  }

  /**
   * On every run each silence is flagged once at most, after more than T and at
   * most T plus one heartbeat, and, unless the watch is stopped, it is flagged if
   * it lasts longer than that; a worker silent for no more than T is not.
   */
  lemma {:induction false} SilenceIsFlaggedOnce(c: Config, now: int, events: seq<WatchEvent>)
    requires ValidConfig(c) && c.health.wedgedTimeoutMs > 0
    ensures var s := WatchRun(c, now, events); var t := c.health.wedgedTimeoutMs;
            && FlagsOk(c, s)
            && (forall w | w in s.last && s.now - s.last[w] <= t :: !Flagged(s, w))
            && (!s.stopped ==> forall w | w in s.last && s.now - s.last[w] > t + c.health.heartbeatMs :: Flagged(s, w))
  {
    hide WatchRun;
    WatchRunOk(c, now, events);
    var s := WatchRun(c, now, events);
    assert forall w | w in s.last :: WorkerOk(c, s, w);
  }

  /** Where the clock may not pass, the sweep is due, and firing it lets the clock go on. */
  lemma {:induction false} WatchNeverStuck(c: Config, now: int, events: seq<WatchEvent>)
    requires ValidConfig(c) && c.health.wedgedTimeoutMs > 0
    ensures var s := WatchRun(c, now, events);
            WatchStep(c, s, Tick(s.now + 1)) == s ==> WatchStep(c, s, SweepFires).sweepDue > s.now
  {
    hide WatchRun, FlagsOk, RegistryOk;
    WatchRunOk(c, now, events);
  }

  class HealthMonitor {
    const cfg: Config
    /** Last report time per registered worker. */
    var registry: map<int, int>
    var rssRecycled: set<int>
    var lagRecycled: set<int>
    var lagBeats: map<int, int>
    var exitedWorkerIds: set<int>

    /** Reports each worker's policies have seen; workers that ever exited; firings per worker and policy. */
    ghost var history: map<int, seq<Report>>
    ghost var gone: set<int>
    ghost var fired: map<(int, Trigger), nat>
    /** The last wedged sweep (or the start of the watch), and whether stop() was called. */
    ghost var sweptAt: int
    ghost var stopped: bool

    ghost function History(w: int): seq<Report>
      reads this`history
    {
      HistoryOf(history, w)
    }

    ghost predicate Tracks(w: int)
      reads this
    {
      && (w in rssRecycled <==> Provoked(cfg, Rss, History(w)))
      && LagAgrees(cfg, History(w), w in lagRecycled, BeatsOf(lagBeats, w))
    }

    ghost predicate Valid()
      reads this
    {
      && ValidConfig(cfg)
      && (!stopped ==> exitedWorkerIds == gone && forall w | w !in gone :: Tracks(w))
      && Counts(cfg, history, fired)
      && (!stopped ==> forall w | w in registry :: sweptAt - registry[w] <= cfg.health.wedgedTimeoutMs)
    }

    constructor (cfg: Config, now: int)
      requires ValidConfig(cfg)
      ensures Valid() && this.cfg == cfg && !stopped && history == map[] && registry == map[] && sweptAt == now
    {
      this.cfg := cfg;
      registry, rssRecycled, lagRecycled, lagBeats, exitedWorkerIds := map[], {}, {}, map[], {};
      history, gone, fired, sweptAt, stopped := map[], {}, map[], now, false;
    }

    /** Neither policy fires more than once for a worker id, over the whole run. */
    lemma OneShot(w: int, t: Trigger)
      requires Valid()
      ensures FiringsOf(fired, w, t) <= 1
      ensures FiringsOf(fired, w, t) == 1 <==> exists k :: 0 <= k <= |History(w)| && Fires(cfg, t, History(w)[..k])
    {
      FiresIffProvoked(cfg, t, History(w));
    }

    /** A heartbeat arrives; `msg` is None when it is not a well-formed health report. */
    method OnWorkerMessage(w: int, msg: Option<Report>, now: int, isShuttingDown: bool)
      returns (rss: bool, lag: bool)
      requires Valid() && (stopped ==> isShuttingDown) && sweptAt <= now
      modifies this
      ensures Valid() && gone == old(gone) && sweptAt == old(sweptAt) && stopped == old(stopped)
      ensures msg.None? || w in old(exitedWorkerIds) || isShuttingDown ==>
                !rss && !lag && history == old(history) && fired == old(fired)
      ensures msg.None? || w in old(exitedWorkerIds) ==> registry == old(registry)
      ensures msg.Some? && w !in old(exitedWorkerIds) ==> registry == old(registry)[w := now]
      ensures msg.Some? && w !in old(exitedWorkerIds) && !isShuttingDown ==>
                && history == old(history)[w := old(History(w)) + [msg.value]]
                && (rss <==> Fires(cfg, Rss, History(w)))
                && (lag <==> Fires(cfg, Lag, History(w)))
    {
      hide Fires, Provoked, Beats, Counts;
      rss, lag := false, false;
      if msg.None? || w in exitedWorkerIds { return; }
      registry := registry[w := now];
      if isShuttingDown { return; }
      rss, lag := ApplyPolicies(w, msg.value);
    }

    /** Both policies see the report. */
    method ApplyPolicies(w: int, report: Report) returns (rss: bool, lag: bool)
      requires Valid() && !stopped && w !in exitedWorkerIds
      modifies this`rssRecycled, this`lagRecycled, this`lagBeats, this`history, this`fired
      ensures Valid() && history == old(history)[w := old(History(w)) + [report]]
      ensures (rss <==> Fires(cfg, Rss, History(w))) && (lag <==> Fires(cfg, Lag, History(w)))
    {
      hide Provokes, Provoked, Beats, Counts;
      ghost var before := History(w);
      assert (before + [report])[..|before|] == before;
      ProvokedExtends(cfg, Rss, before, report);
      ProvokedExtends(cfg, Lag, before, report);
      assert Tracks(w);
      rss := CheckRssLimit(w, report);
      lag := CheckLagLimit(w, report);
      CountsNext(cfg, history, fired, w, report);
      fired := Count(Count(fired, w, Rss, rss), w, Lag, lag);
      history := history[w := before + [report]];
      assert Tracks(w);
      assert forall x | x != w && x !in gone :: old(Tracks(x)) ==> Tracks(x);
    }

    method CheckRssLimit(w: int, report: Report) returns (recycle: bool)
      requires w in rssRecycled <==> Provoked(cfg, Rss, History(w))
      modifies this`rssRecycled
      ensures recycle <==> Fires(cfg, Rss, History(w) + [report])
      ensures rssRecycled == if recycle then old(rssRecycled) + {w} else old(rssRecycled)
    {
      ghost var next := History(w) + [report];
      assert next[..|next| - 1] == History(w);
      var limitMb := cfg.workers.maxRssMb;
      if limitMb <= 0 { return false; }
      if w in rssRecycled { return false; }
      if report.rss <= limitMb * 1024 * 1024 { return false; }
      rssRecycled := rssRecycled + {w};
      return true;
    }

    method CheckLagLimit(w: int, report: Report) returns (recycle: bool)
      requires ValidConfig(cfg) && LagAgrees(cfg, History(w), w in lagRecycled, BeatsOf(lagBeats, w))
      modifies this`lagRecycled, this`lagBeats
      ensures recycle <==> Fires(cfg, Lag, History(w) + [report])
      ensures lagRecycled == if recycle then old(lagRecycled) + {w} else old(lagRecycled)
      ensures LagAgrees(cfg, History(w) + [report], w in lagRecycled, BeatsOf(lagBeats, w))
      ensures forall x | x != w :: BeatsOf(lagBeats, x) == BeatsOf(old(lagBeats), x)
    {
      hide Provoked, Provokes, Beats;
      ghost var next := History(w) + [report];
      ProvokedExtends(cfg, Lag, History(w), report);
      NextReport(cfg, History(w), report);
      if w in lagRecycled { return false; }
      if cfg.health.lagSpikeMs > 0 && report.lag > cfg.health.lagSpikeMs {
        lagBeats := lagBeats - {w};
        lagRecycled := lagRecycled + {w};
        return true;
      }
      if cfg.health.maxEventLoopLagMs <= 0 {
        return false;
      }
      if report.lag > cfg.health.maxEventLoopLagMs {
        var beats := BeatsOf(lagBeats, w) + 1;
        if beats < cfg.health.lagRecycleBeats {
          lagBeats := lagBeats[w := beats];
          return false;
        }
        lagBeats := lagBeats - {w};
        lagRecycled := lagRecycled + {w};
        return true;
      }
      lagBeats := lagBeats - {w};
      return false;
    }

    /**
     * One tick of the wedged watch, a heartbeat after the last. Exactly the
     * registered workers silent for longer than the timeout are flagged, and
     * none has been silent for more than one heartbeat beyond it.
     */
    method WedgedSweep(order: seq<int>, now: int, isShuttingDown: bool) returns (flagged: set<int>)
      requires Valid() && (stopped ==> isShuttingDown)
      requires cfg.health.wedgedTimeoutMs > 0 && now == sweptAt + cfg.health.heartbeatMs
      requires forall w :: w in order <==> w in registry
      modifies this`registry, this`sweptAt
      ensures Valid()
      ensures isShuttingDown ==> flagged == {} && registry == old(registry) && sweptAt == old(sweptAt)
      ensures !isShuttingDown ==>
                && flagged == Silent(cfg, old(registry), now)
                && (forall w | w in flagged ::
                      now - old(registry)[w] <= cfg.health.wedgedTimeoutMs + cfg.health.heartbeatMs)
                && registry == old(registry) - flagged
                && sweptAt == now
    {
      flagged := {};
      if isShuttingDown { return; }
      for i := 0 to |order|
        invariant forall w :: w in flagged <==>
                    w in order[..i] && now - old(registry)[w] > cfg.health.wedgedTimeoutMs
        invariant registry == old(registry) - flagged
      {
        var w := order[i];
        assert order[..i + 1] == order[..i] + [w];
        if w in registry {
          var silentMs := now - registry[w];
          if silentMs > cfg.health.wedgedTimeoutMs {
            registry := registry - {w};
            flagged := flagged + {w};
          }
        }
      }
      assert order[..|order|] == order;
      assert forall w :: w in flagged <==> w in Silent(cfg, old(registry), now);
      sweptAt := now;
    }

    method OnWorkerExit(w: int)
      requires Valid()
      modifies this
      ensures Valid() && history == old(history) && fired == old(fired)
      ensures gone == old(gone) + {w} && registry == old(registry) - {w}
      ensures sweptAt == old(sweptAt) && stopped == old(stopped)
    {
      exitedWorkerIds := exitedWorkerIds + {w};
      registry := registry - {w};
      rssRecycled := rssRecycled - {w};
      lagRecycled := lagRecycled - {w};
      lagBeats := lagBeats - {w};
      gone := gone + {w};
    }

    /** Called by the shutdown sequence, which latches isShuttingDown in the same stretch. */
    method Stop()
      requires Valid()
      modifies this
      ensures Valid() && stopped && registry == map[] && history == old(history) && fired == old(fired)
    {
      registry, rssRecycled, exitedWorkerIds := map[], {}, {};
      stopped := true;
    }
  }
}
