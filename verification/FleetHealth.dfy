/**
 * Degradation hysteresis: a shortfall has to last before it is announced, and
 * recovery is announced only after a degradation was.
 */
module FleetHealth {
  import opened Wrappers
  import opened Config

  /** One recompute of fleet health: when, and how many workers were active. */
  datatype Sample = Sample(at: int, active: int)

  /** Fewer active workers than the target. */
  predicate Short(c: Config, s: Sample) {
    s.active < c.workers.count
  }

  /** `count` is how many recomputes there had been of the shortfall announced (history). */
  datatype Announcement = Degraded(at: int, count: nat) | Recovered(at: int, durationMs: int, count: nat)

  /** The flags, the hysteresis timer, and the history of recomputes and announcements. */
  datatype State = State(
    now: int, shuttingDown: bool, degraded: bool, since: int, timer: Option<int>,
    samples: seq<Sample>, announced: seq<Announcement>)

  datatype Event = Tick(to: int) | Recompute(active: int) | TimerFires | ShutdownBegins

  function Begin(now: int): State {
    State(now, false, false, 0, None, [], [])
  }

  function OnRecompute(c: Config, s: State, active: int): State {
    if s.shuttingDown || c.health.degradedAfterMs <= 0 then s
    else
      var below := active < c.workers.count;
      var r := s.(samples := s.samples + [Sample(s.now, active)]);
      if !below then
        if s.degraded then
          r.(timer := None, degraded := false,
             announced := r.announced + [Recovered(s.now, s.now - s.since, |s.samples|)])
        else r.(timer := None)
      else if s.degraded || s.timer.Some? then r
      else r.(since := s.now, timer := Some(s.now + c.health.degradedAfterMs))
  }

  function Step(c: Config, s: State, e: Event): State {
    match e
    case Tick(to) => if s.now <= to && (s.timer.Some? ==> to <= s.timer.value) then s.(now := to) else s
    case Recompute(active) => OnRecompute(c, s, active)
    case TimerFires =>
      if s.timer.None? || s.now < s.timer.value then s
      else if s.shuttingDown then s.(timer := None)
      else s.(timer := None, degraded := true, announced := s.announced + [Degraded(s.now, |s.samples|)])
    case ShutdownBegins =>
      if s.shuttingDown then s else s.(shuttingDown := true, timer := None, degraded := false)
  }

  function Run(c: Config, now: int, events: seq<Event>): State {
    if events == [] then Begin(now)
    else Step(c, Run(c, now, events[..|events| - 1]), events[|events| - 1])
  }

  // ------------------------------------------------ specification by history

  /** The instant the current shortfall began: the first of the samples below target since the last that was not. */
  ghost function ShortSince(c: Config, samples: seq<Sample>): Option<int> {
    if samples == [] || !Short(c, samples[|samples| - 1]) then None
    else
      var earlier := ShortSince(c, samples[..|samples| - 1]);
      if earlier.Some? then earlier else Some(samples[|samples| - 1].at)
  }

  /** Recompute `i`, at `from`, was the first below target, and so were all up to the first `count`. */
  ghost predicate ShortFrom(c: Config, samples: seq<Sample>, i: int, from: int, count: nat) {
    && 0 <= i < count <= |samples| && samples[i].at == from
    && (i == 0 || !Short(c, samples[i - 1]))
    && forall j | i <= j < count :: Short(c, samples[j])
  }

  /** The first `count` recomputes end in a shortfall that began at `from`. */
  ghost predicate ShortThroughout(c: Config, samples: seq<Sample>, from: int, count: nat) {
    exists i :: ShortFrom(c, samples, i, from, count)
  }

  /** The first `count` recomputes are those up to `at`, the others come no earlier. */
  ghost predicate CountsUpTo(samples: seq<Sample>, at: int, count: nat) {
    && count <= |samples|
    && (forall j | 0 <= j < count :: samples[j].at <= at)
    && (forall j | count <= j < |samples| :: at <= samples[j].at)
  }

  predicate Alternates(announced: seq<Announcement>) {
    forall i | 0 <= i < |announced| :: announced[i].Degraded? <==> i % 2 == 0
  }

  /**
   * A degradation comes a full delay after the shortfall began that all
   * recomputes since have seen; a recovery ends, at its own recompute, a
   * shortfall of exactly the duration it reports.
   */
  ghost predicate Justified(c: Config, samples: seq<Sample>, a: Announcement) {
    match a
    case Degraded(at, count) =>
      ShortThroughout(c, samples, at - c.health.degradedAfterMs, count) && CountsUpTo(samples, at, count)
    case Recovered(at, durationMs, count) =>
      && durationMs >= c.health.degradedAfterMs && CountsUpTo(samples, at, count)
      && ShortThroughout(c, samples, at - durationMs, count)
      && count < |samples| && samples[count].at == at && !Short(c, samples[count])
  }

  ghost predicate Sound(c: Config, s: State) {
    && Alternates(s.announced)
    && (forall i | 0 <= i < |s.announced| ::
          s.announced[i].at <= s.now && Justified(c, s.samples, s.announced[i]))
    && (forall j | 0 <= j < |s.samples| :: s.samples[j].at <= s.now)
    && (!s.shuttingDown ==> Follows(c, s))
    && (s.shuttingDown ==> s.timer.None? && !s.degraded)
  }

  /** Outside shutdown the flags are functions of the history. */
  ghost predicate Follows(c: Config, s: State) {
    && (s.degraded <==> |s.announced| % 2 == 1)
    && (s.degraded ==> s.timer.None?)
    && match ShortSince(c, s.samples)
       case None => !s.degraded && s.timer.None?
       case Some(from) =>
         && s.since == from
         && (s.degraded || s.timer == Some(from + c.health.degradedAfterMs))
         && (s.timer.Some? ==> s.now <= s.timer.value)
         && (s.degraded ==> s.now >= from + c.health.degradedAfterMs)
  }

  lemma {:induction false} ShortSinceMeansShort(c: Config, samples: seq<Sample>)
    requires ShortSince(c, samples).Some?
    ensures ShortThroughout(c, samples, ShortSince(c, samples).value, |samples|)
  {
    var n := |samples| - 1;
    var init := samples[..n];
    assert init + [samples[n]] == samples;
    if ShortSince(c, init).Some? {
      ShortSinceMeansShort(c, init);
      ShortExtends(c, init, samples[n], ShortSince(c, samples).value, n);
    } else {
      NotShortBefore(c, init);
      assert ShortFrom(c, samples, n, samples[n].at, |samples|);
    }
  }

  lemma NotShortBefore(c: Config, samples: seq<Sample>)
    requires ShortSince(c, samples).None?
    ensures samples == [] || !Short(c, samples[|samples| - 1])
  {
  }

  lemma ShortExtends(c: Config, samples: seq<Sample>, next: Sample, from: int, count: nat)
    requires ShortThroughout(c, samples, from, count)
    ensures ShortThroughout(c, samples + [next], from, count)
    ensures count == |samples| && Short(c, next) ==> ShortThroughout(c, samples + [next], from, count + 1)
  {
    var i :| ShortFrom(c, samples, i, from, count);
    assert ShortFrom(c, samples + [next], i, from, count);
    if count == |samples| && Short(c, next) {
      assert ShortFrom(c, samples + [next], i, from, count + 1);
    }
  }

  /** Later samples cannot unsettle an announcement already justified. */
  lemma JustifiedStays(c: Config, samples: seq<Sample>, next: Sample, a: Announcement)
    requires Justified(c, samples, a) && a.at <= next.at
    ensures Justified(c, samples + [next], a)
  {
    hide ShortThroughout;
    match a
    case Degraded(at, count) => ShortExtends(c, samples, next, at - c.health.degradedAfterMs, count);
    case Recovered(at, durationMs, count) => ShortExtends(c, samples, next, at - durationMs, count);
  }

  lemma RecomputeJustified(c: Config, s: State, active: int)
    requires Sound(c, s)
    ensures var r := OnRecompute(c, s, active);
            forall i | 0 <= i < |r.announced| :: r.announced[i].at <= r.now && Justified(c, r.samples, r.announced[i])
  {
    hide ShortThroughout, ShortSince;
    var next := Sample(s.now, active);
    forall i | 0 <= i < |s.announced|
      ensures Justified(c, s.samples + [next], s.announced[i])
    {
      JustifiedStays(c, s.samples, next, s.announced[i]);
    }
    if !s.shuttingDown && s.degraded {
      ShortSinceMeansShort(c, s.samples);
      ShortExtends(c, s.samples, next, s.since, |s.samples|);
    }
  }

  lemma RecomputeSound(c: Config, s: State, active: int)
    requires ValidConfig(c) && Sound(c, s)
    ensures Sound(c, OnRecompute(c, s, active))
  {
    hide Justified, ShortSince;
    RecomputeJustified(c, s, active);
    ShortSinceNext(c, s.samples, Sample(s.now, active));
  }

  lemma ShortSinceNext(c: Config, samples: seq<Sample>, next: Sample)
    ensures ShortSince(c, samples + [next]) == if !Short(c, next) then None
                                               else if ShortSince(c, samples).Some? then ShortSince(c, samples)
                                               else Some(next.at)
  {
    assert (samples + [next])[..|samples|] == samples;
  }

  lemma StepSound(c: Config, s: State, e: Event)
    requires ValidConfig(c) && Sound(c, s)
    ensures Sound(c, Step(c, s, e))
  {
    match e
    case Recompute(active) => RecomputeSound(c, s, active);
    case TimerFires =>
      if s.timer.Some? && s.now >= s.timer.value && !s.shuttingDown {
        ShortSinceMeansShort(c, s.samples);
      }
    case _ =>
  }

  lemma {:induction false} RunSound(c: Config, now: int, events: seq<Event>)
    requires ValidConfig(c)
    ensures Sound(c, Run(c, now, events))
  {
    if events != [] {
      RunSound(c, now, events[..|events| - 1]);
      StepSound(c, Run(c, now, events[..|events| - 1]), events[|events| - 1]);
    }
  }

  /** Announcements strictly alternate, starting with a degradation, and each had its full reason. */
  lemma AnnouncementsAlternate(c: Config, now: int, events: seq<Event>)
    requires ValidConfig(c)
    ensures var s := Run(c, now, events);
            && Alternates(s.announced)
            && (forall i | 0 <= i < |s.announced| :: Justified(c, s.samples, s.announced[i]))
  {
    RunSound(c, now, events);
  }

  /**
   * Outside shutdown the degraded flag is a function of the history: set once the
   * current shortfall has lasted `degradedAfterMs`, clear while it has not.
   */
  lemma DegradedIffShortLongEnough(c: Config, now: int, events: seq<Event>)
    requires ValidConfig(c)
    ensures var s := Run(c, now, events);
            var from := ShortSince(c, s.samples);
            && (!s.shuttingDown && s.degraded ==> from.Some? && s.now >= from.value + c.health.degradedAfterMs)
            && (!s.shuttingDown && from.Some? && s.now > from.value + c.health.degradedAfterMs ==> s.degraded)
  {
    RunSound(c, now, events);
  }

  /** Nothing is announced once shutdown has begun. */
  lemma SilentInShutdown(c: Config, now: int, events: seq<Event>, e: Event)
    requires ValidConfig(c)
    ensures var s := Run(c, now, events);
            s.shuttingDown ==> Step(c, s, e).announced == s.announced && Step(c, s, e).shuttingDown
  {
    RunSound(c, now, events);
  }

  // --------------------------------------------------- held against the events

  /** The recomputes of a run, read off its events: those before shutdown, if the policy is on. */
  function Recomputes(c: Config, now: int, events: seq<Event>): seq<Sample> {
    if events == [] then []
    else
      var init, e := events[..|events| - 1], events[|events| - 1];
      if e.Recompute? && c.health.degradedAfterMs > 0 && ShutdownBegins !in init then
        Recomputes(c, now, init) + [Sample(Run(c, now, init).now, e.active)]
      else Recomputes(c, now, init)
  }

  lemma StepRecords(c: Config, s: State, e: Event)
    ensures var r := Step(c, s, e);
            && (r.shuttingDown <==> s.shuttingDown || e == ShutdownBegins)
            && r.samples == if e.Recompute? && c.health.degradedAfterMs > 0 && !s.shuttingDown
                            then s.samples + [Sample(s.now, e.active)] else s.samples
  {
  }

  /** What the announcements are justified by is what happened. */
  lemma {:induction false} SamplesAreRecomputes(c: Config, now: int, events: seq<Event>)
    ensures var s := Run(c, now, events);
            s.samples == Recomputes(c, now, events) && (s.shuttingDown <==> ShutdownBegins in events)
  {
    hide Step;
    if events != [] {
      var n := |events| - 1;
      SamplesAreRecomputes(c, now, events[..n]);
      StepRecords(c, Run(c, now, events[..n]), events[n]);
      assert events == events[..n] + [events[n]];
    }
  }

  /** A fleet that is at its target whenever it is looked at is never announced degraded. */
  lemma {:induction false} FullFleetIsNeverAnnounced(c: Config, now: int, events: seq<Event>)
    requires ValidConfig(c)
    requires forall i | 0 <= i < |events| && events[i].Recompute? :: events[i].active >= c.workers.count
    ensures Run(c, now, events).announced == []
  {
    hide Run;
    var s := Run(c, now, events);
    RunSound(c, now, events);
    SamplesAreRecomputes(c, now, events);
    FullSamples(c, now, events);
    if s.announced != [] {
      AnnouncedWasShort(c, s);
    }
  }

  lemma AnnouncedWasShort(c: Config, s: State)
    requires Sound(c, s) && s.announced != []
    ensures exists i :: 0 <= i < |s.samples| && Short(c, s.samples[i])
  {
    var a := s.announced[0];
    assert a.Degraded? && Justified(c, s.samples, a);
    var i :| ShortFrom(c, s.samples, i, a.at - c.health.degradedAfterMs, a.count);
    assert Short(c, s.samples[i]);
  }

  lemma {:induction false} FullSamples(c: Config, now: int, events: seq<Event>)
    requires forall i | 0 <= i < |events| && events[i].Recompute? :: events[i].active >= c.workers.count
    ensures forall i | 0 <= i < |Recomputes(c, now, events)| :: !Short(c, Recomputes(c, now, events)[i])
  {
    hide Run;
    if events != [] {
      FullSamples(c, now, events[..|events| - 1]);
    }
  }

  /**
   * The announcement follows from the shortfall: if a run ends outside shutdown,
   * later than the delay after recomputes that were all below target, the fleet
   * has been announced degraded, and not recovered since.
   */
  lemma {:induction false} ShortFleetIsAnnounced(c: Config, now: int, events: seq<Event>)
    requires ValidConfig(c) && ShutdownBegins !in events
    requires var from := ShortSince(c, Recomputes(c, now, events));
             from.Some? && Run(c, now, events).now > from.value + c.health.degradedAfterMs
    ensures var announced := Run(c, now, events).announced;
            announced != [] && announced[|announced| - 1].Degraded?
  {
    hide Run, Recomputes, ShortSince;
    SamplesAreRecomputes(c, now, events);
    RunSound(c, now, events);
  }

  /** And a recovery from the recompute that sees the target met again. */
  lemma {:induction false} MetTargetRecovers(c: Config, now: int, events: seq<Event>, active: int)
    requires ValidConfig(c) && ShutdownBegins !in events && active >= c.workers.count
    requires var announced := Run(c, now, events).announced;
             announced != [] && announced[|announced| - 1].Degraded?
    ensures var s := Run(c, now, events); var r := Step(c, s, Recompute(active));
            && |r.announced| == |s.announced| + 1 && r.announced[|s.announced|].Recovered?
            && r.announced[|s.announced|].at == s.now && ShortSince(c, s.samples).Some?
            && r.announced[|s.announced|].durationMs == s.now - ShortSince(c, s.samples).value
  {
    hide Run, ShortSince, Justified;
    SamplesAreRecomputes(c, now, events);
    RunSound(c, now, events);
    if c.health.degradedAfterMs <= 0 { OffIsSilent(c, now, events); }
  }

  /** With the policy off nothing is sampled, so nothing can be announced. */
  lemma {:induction false} OffIsSilent(c: Config, now: int, events: seq<Event>)
    requires ValidConfig(c) && c.health.degradedAfterMs <= 0
    ensures Run(c, now, events).announced == []
  {
    hide Run;
    NothingSampled(c, now, events);
    SamplesAreRecomputes(c, now, events);
    RunSound(c, now, events);
    var s := Run(c, now, events);
    if s.announced != [] {
      AnnouncedWasShort(c, s);
    }
  }

  lemma {:induction false} NothingSampled(c: Config, now: int, events: seq<Event>)
    requires c.health.degradedAfterMs <= 0
    ensures Recomputes(c, now, events) == []
  {
    hide Run;
    if events != [] { NothingSampled(c, now, events[..|events| - 1]); }
  }

  /** The orchestrator's fields for fleet health. */
  class FleetHealthWatch {
    const cfg: Config
    var isShuttingDown: bool
    var fleetDegraded: bool
    var degradedSince: int
    var degradedTimer: Option<int>
    ghost var samples: seq<Sample>
    ghost var announced: seq<Announcement>

    ghost function View(now: int): State
      reads this
    {
      State(now, isShuttingDown, fleetDegraded, degradedSince, degradedTimer, samples, announced)
    }

    constructor (cfg: Config, ghost now: int)
      ensures this.cfg == cfg && View(now) == Begin(now)
    {
      this.cfg := cfg;
      isShuttingDown, fleetDegraded, degradedSince, degradedTimer := false, false, 0, None;
      samples, announced := [], [];
    }

    method RecomputeFleetHealth(activeWorkers: int, now: int) returns (recovered: Option<int>)
      modifies this
      ensures View(now) == Step(cfg, old(View(now)), Recompute(activeWorkers))
      ensures recovered.Some? <==> |announced| > |old(announced)|
      ensures recovered.Some? ==> announced == old(announced) + [Recovered(now, recovered.value, |samples| - 1)]
    {
      recovered := None;
      if isShuttingDown || cfg.health.degradedAfterMs <= 0 { return; }
      samples := samples + [Sample(now, activeWorkers)];
      if activeWorkers >= cfg.workers.count {
        degradedTimer := None;
        if fleetDegraded {
          fleetDegraded := false;
          recovered := Some(now - degradedSince);
          announced := announced + [Recovered(now, recovered.value, |samples| - 1)];
        }
        return;
      }
      if fleetDegraded || degradedTimer.Some? { return; }
      degradedSince := now;
      degradedTimer := Some(now + cfg.health.degradedAfterMs);
    }

    method OnDegradedTimer(now: int) returns (degraded: bool)
      requires degradedTimer.Some? && degradedTimer.value <= now
      modifies this
      ensures View(now) == Step(cfg, old(View(now)), TimerFires)
      ensures degraded <==> |announced| > |old(announced)|
    {
      degradedTimer := None;
      if isShuttingDown { return false; }
      fleetDegraded := true;
      announced := announced + [Degraded(now, |samples|)];
      return true;
    }

    method OnShutdown(ghost now: int)
      modifies this
      ensures View(now) == Step(cfg, old(View(now)), ShutdownBegins)
    {
      if isShuttingDown { return; }
      degradedTimer := None;
      fleetDegraded := false;
      isShuttingDown := true;
    }
  }
}
