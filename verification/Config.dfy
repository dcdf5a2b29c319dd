/**
 * Option validation: defaults, range checks and cross-field constraints.
 * Durations are whole milliseconds, except the backoff options, which are reals
 * because the multiplier is.
 */
module Config {
  import opened Wrappers

  datatype Workers = Workers(count: int, maxAgeMs: int, maxRssMb: int)

  datatype Restart = Restart(
    crashThreshold: int, crashWindowMs: int,
    backoffMs: real, maxBackoffMs: real, backoffMultiplier: real,
    stabilityWindowMs: int, bootFailQuarantine: int)

  datatype Shutdown = Shutdown(timeoutMs: int, ackTimeoutMs: int, sigtermDelayMs: int, sigintDelayMs: int)

  datatype Health = Health(
    heartbeatMs: int, wedgedTimeoutMs: int, degradedAfterMs: int,
    maxEventLoopLagMs: int, lagRecycleBeats: int, lagSpikeMs: int)

  /** A resolved configuration; `workers.count` is the resolved fleet target. */
  datatype Config = Config(workers: Workers, restart: Restart, shutdown: Shutdown, health: Health)

  /** The same fields before defaults; `count` is None for "auto". */
  datatype Options = Options(
    count: Option<int>, maxAgeMs: Option<int>, maxRssMb: Option<int>,
    crashThreshold: Option<int>, crashWindowMs: Option<int>,
    backoffMs: Option<real>, maxBackoffMs: Option<real>, backoffMultiplier: Option<real>,
    stabilityWindowMs: Option<int>, bootFailQuarantine: Option<int>,
    timeoutMs: Option<int>, ackTimeoutMs: Option<int>, sigtermDelayMs: Option<int>, sigintDelayMs: Option<int>,
    heartbeatMs: Option<int>, wedgedTimeoutMs: Option<int>, degradedAfterMs: Option<int>,
    maxEventLoopLagMs: Option<int>, lagRecycleBeats: Option<int>, lagSpikeMs: Option<int>)

  /** The option a rejected configuration is blamed on. */
  datatype Field =
    | WorkerCount | MaxAgeMs | MaxRssMb
    | CrashThreshold | CrashWindowMs | BackoffMs | MaxBackoffMs | BackoffMultiplier | StabilityWindowMs
    | BootFailQuarantine
    | TimeoutMs | AckTimeoutMs | SigtermDelayMs | SigintDelayMs
    | HeartbeatMs | WedgedTimeoutMs | DegradedAfterMs | MaxEventLoopLagMs | LagRecycleBeats | LagSpikeMs

  function Or<T>(option: Option<T>, default: T): T {
    if option.Some? then option.value else default
  }

  predicate Outside(option: Option<int>, low: int, high: int) {
    option.Some? && !(low <= option.value <= high)
  }

  predicate Below(option: Option<int>, low: int) {
    option.Some? && option.value < low
  }

  predicate OutsideReal(option: Option<real>, low: real, high: real) {
    option.Some? && !(low <= option.value <= high)
  }

  function RejectedWorkersOption(o: Options): Option<Field> {
    if Below(o.count, 1) then Some(WorkerCount)
    else if o.maxAgeMs != Some(0) && Below(o.maxAgeMs, 1_000) then Some(MaxAgeMs)
    else if Below(o.maxRssMb, 0) then Some(MaxRssMb)
    else None
  }

  function RejectedRestartOption(o: Options): Option<Field> {
    if Below(o.crashThreshold, 1) then Some(CrashThreshold)
    else if Outside(o.crashWindowMs, 1_000, 600_000) then Some(CrashWindowMs)
    else if OutsideReal(o.backoffMs, 0.0, 60_000.0) then Some(BackoffMs)
    else if OutsideReal(o.maxBackoffMs, 1_000.0, 300_000.0) then Some(MaxBackoffMs)
    else if OutsideReal(o.backoffMultiplier, 1.0, 10.0) then Some(BackoffMultiplier)
    else if Outside(o.stabilityWindowMs, 0, 600_000) then Some(StabilityWindowMs)
    else if Below(o.bootFailQuarantine, 0) then Some(BootFailQuarantine)
    else None
  }

  function RejectedShutdownOption(o: Options): Option<Field> {
    if Outside(o.timeoutMs, 1_000, 60_000) then Some(TimeoutMs)
    else if Outside(o.ackTimeoutMs, 500, 30_000) then Some(AckTimeoutMs)
    else if Outside(o.sigtermDelayMs, 100, 10_000) then Some(SigtermDelayMs)
    else if Outside(o.sigintDelayMs, 100, 10_000) then Some(SigintDelayMs)
    else None
  }

  function RejectedHealthOption(o: Options): Option<Field> {
    if Below(o.heartbeatMs, 0) then Some(HeartbeatMs)
    else if o.heartbeatMs.Some? && 0 < o.heartbeatMs.value < 100 then Some(HeartbeatMs)
    else if Below(o.wedgedTimeoutMs, 0) then Some(WedgedTimeoutMs)
    else if Below(o.degradedAfterMs, 0) then Some(DegradedAfterMs)
    else if Below(o.maxEventLoopLagMs, 0) then Some(MaxEventLoopLagMs)
    else if Below(o.lagRecycleBeats, 1) then Some(LagRecycleBeats)
    else if Below(o.lagSpikeMs, 0) then Some(LagSpikeMs)
    else None
  }

  function CrossFieldConflict(c: Config): Option<Field> {
    if c.shutdown.sigtermDelayMs + c.shutdown.sigintDelayMs >= c.shutdown.timeoutMs then Some(TimeoutMs)
    else if c.shutdown.ackTimeoutMs >= c.shutdown.timeoutMs then Some(AckTimeoutMs)
    else if c.restart.backoffMs > c.restart.maxBackoffMs then Some(MaxBackoffMs)
    else if c.health.wedgedTimeoutMs > 0 && c.health.heartbeatMs <= 0 then Some(WedgedTimeoutMs)
    else if c.health.wedgedTimeoutMs > 0 && c.health.wedgedTimeoutMs < 2 * c.health.heartbeatMs then
      Some(WedgedTimeoutMs)
    else if c.health.maxEventLoopLagMs > 0 && c.health.heartbeatMs <= 0 then Some(MaxEventLoopLagMs)
    else if c.health.lagSpikeMs > 0 && c.health.heartbeatMs <= 0 then Some(LagSpikeMs)
    else None
  }

  function Resolve(o: Options, autoCount: int): Config {
    Config(
      Workers(Or(o.count, autoCount), Or(o.maxAgeMs, 0), Or(o.maxRssMb, 0)),
      Restart(
        Or(o.crashThreshold, 5), Or(o.crashWindowMs, 60_000),
        Or(o.backoffMs, 1_000.0), Or(o.maxBackoffMs, 30_000.0), Or(o.backoffMultiplier, 2.0),
        Or(o.stabilityWindowMs, 30_000), Or(o.bootFailQuarantine, 0)),
      Shutdown(
        Or(o.timeoutMs, 12_000), Or(o.ackTimeoutMs, 3_000),
        Or(o.sigtermDelayMs, 2_000), Or(o.sigintDelayMs, 1_000)),
      Health(
        Or(o.heartbeatMs, 0), Or(o.wedgedTimeoutMs, 0), Or(o.degradedAfterMs, 0),
        Or(o.maxEventLoopLagMs, 0), Or(o.lagRecycleBeats, 3), Or(o.lagSpikeMs, 0)))
  }

  /** `autoCount` is what "auto" resolves to: WEB_CONCURRENCY or the CPU count, at least one. */
  function ValidateConfig(o: Options, autoCount: int): Result<Config, Field> {
    if RejectedWorkersOption(o).Some? then Failure(RejectedWorkersOption(o).value)
    else if RejectedRestartOption(o).Some? then Failure(RejectedRestartOption(o).value)
    else if RejectedShutdownOption(o).Some? then Failure(RejectedShutdownOption(o).value)
    else if RejectedHealthOption(o).Some? then Failure(RejectedHealthOption(o).value)
    else
      var c := Resolve(o, autoCount);
      if CrossFieldConflict(c).Some? then Failure(CrossFieldConflict(c).value) else Success(c)
  }

  ghost predicate ValidWorkers(w: Workers) {
    && w.count >= 1
    && (w.maxAgeMs == 0 || w.maxAgeMs >= 1_000)
    && w.maxRssMb >= 0
  }

  ghost predicate ValidRestart(r: Restart) {
    && r.crashThreshold >= 1
    && 1_000 <= r.crashWindowMs <= 600_000
    && 0.0 <= r.backoffMs <= 60_000.0
    && 1_000.0 <= r.maxBackoffMs <= 300_000.0
    && r.backoffMs <= r.maxBackoffMs
    && 1.0 <= r.backoffMultiplier <= 10.0
    && 0 <= r.stabilityWindowMs <= 600_000
    && r.bootFailQuarantine >= 0
  }

  ghost predicate ValidShutdown(s: Shutdown) {
    && 1_000 <= s.timeoutMs <= 60_000
    && 500 <= s.ackTimeoutMs <= 30_000
    && 100 <= s.sigtermDelayMs <= 10_000
    && 100 <= s.sigintDelayMs <= 10_000
    && s.ackTimeoutMs < s.timeoutMs
    && s.sigtermDelayMs + s.sigintDelayMs < s.timeoutMs
  }

  ghost predicate ValidHealth(h: Health) {
    && (h.heartbeatMs == 0 || h.heartbeatMs >= 100)
    && h.wedgedTimeoutMs >= 0 && h.degradedAfterMs >= 0
    && h.maxEventLoopLagMs >= 0 && h.lagRecycleBeats >= 1 && h.lagSpikeMs >= 0
    && (h.wedgedTimeoutMs > 0 ==> h.heartbeatMs > 0 && h.wedgedTimeoutMs >= 2 * h.heartbeatMs)
    && (h.maxEventLoopLagMs > 0 || h.lagSpikeMs > 0 ==> h.heartbeatMs > 0)
  }

  /** What every other module may rely on. */
  ghost predicate ValidConfig(c: Config) {
    ValidWorkers(c.workers) && ValidRestart(c.restart) && ValidShutdown(c.shutdown) && ValidHealth(c.health)
  }

  /** A resolved configuration written back as options, every field given. */
  function AsOptions(c: Config): Options {
    Options(
      Some(c.workers.count), Some(c.workers.maxAgeMs), Some(c.workers.maxRssMb),
      Some(c.restart.crashThreshold), Some(c.restart.crashWindowMs),
      Some(c.restart.backoffMs), Some(c.restart.maxBackoffMs), Some(c.restart.backoffMultiplier),
      Some(c.restart.stabilityWindowMs), Some(c.restart.bootFailQuarantine),
      Some(c.shutdown.timeoutMs), Some(c.shutdown.ackTimeoutMs),
      Some(c.shutdown.sigtermDelayMs), Some(c.shutdown.sigintDelayMs),
      Some(c.health.heartbeatMs), Some(c.health.wedgedTimeoutMs), Some(c.health.degradedAfterMs),
      Some(c.health.maxEventLoopLagMs), Some(c.health.lagRecycleBeats), Some(c.health.lagSpikeMs))
  }

  lemma RangesComplete(o: Options, autoCount: int)
    requires autoCount >= 1
    ensures var c := Resolve(o, autoCount);
            && (RejectedWorkersOption(o).Some? ==> !ValidWorkers(c.workers))
            && (RejectedRestartOption(o).Some? ==> !ValidRestart(c.restart))
            && (RejectedShutdownOption(o).Some? ==> !ValidShutdown(c.shutdown))
            && (RejectedHealthOption(o).Some? ==> !ValidHealth(c.health))
            && (CrossFieldConflict(c).Some? ==> !ValidConfig(c))
  {
  }

  lemma RangesSound(o: Options, autoCount: int)
    requires autoCount >= 1 && CrossFieldConflict(Resolve(o, autoCount)).None?
    ensures var c := Resolve(o, autoCount);
            && (RejectedWorkersOption(o).None? ==> ValidWorkers(c.workers))
            && (RejectedRestartOption(o).None? ==> ValidRestart(c.restart))
            && (RejectedShutdownOption(o).None? ==> ValidShutdown(c.shutdown))
            && (RejectedHealthOption(o).None? ==> ValidHealth(c.health))
  {
  }

  /** Options are accepted exactly when what they resolve to is valid, and resolve to that. */
  lemma AcceptedIffValid(o: Options, autoCount: int)
    requires autoCount >= 1
    ensures ValidateConfig(o, autoCount).Success? <==> ValidConfig(Resolve(o, autoCount))
    ensures ValidConfig(Resolve(o, autoCount)) ==> ValidateConfig(o, autoCount) == Success(Resolve(o, autoCount))
  {
    RangesComplete(o, autoCount);
    if CrossFieldConflict(Resolve(o, autoCount)).None? {
      RangesSound(o, autoCount);
    }
  }

  /** Validation changes nothing in a fully written configuration, and accepts it exactly when it is valid. */
  lemma ValidIffFixpoint(c: Config, autoCount: int)
    requires autoCount >= 1
    ensures ValidConfig(c) <==> ValidateConfig(AsOptions(c), autoCount) == Success(c)
  {
    assert Resolve(AsOptions(c), autoCount) == c;
    AcceptedIffValid(AsOptions(c), autoCount);
  }

  /** What each option has to satisfy once resolved. */
  ghost predicate FieldOk(c: Config, field: Field) {
    && (field.WorkerCount? ==> c.workers.count >= 1)
    && (field.MaxAgeMs? ==> c.workers.maxAgeMs == 0 || c.workers.maxAgeMs >= 1_000)
    && (field.MaxRssMb? ==> c.workers.maxRssMb >= 0)
    && (field.CrashThreshold? ==> c.restart.crashThreshold >= 1)
    && (field.CrashWindowMs? ==> 1_000 <= c.restart.crashWindowMs <= 600_000)
    && (field.BackoffMs? ==> 0.0 <= c.restart.backoffMs <= 60_000.0)
    && (field.MaxBackoffMs? ==>
          1_000.0 <= c.restart.maxBackoffMs <= 300_000.0 && c.restart.backoffMs <= c.restart.maxBackoffMs)
    && (field.BackoffMultiplier? ==> 1.0 <= c.restart.backoffMultiplier <= 10.0)
    && (field.StabilityWindowMs? ==> 0 <= c.restart.stabilityWindowMs <= 600_000)
    && (field.BootFailQuarantine? ==> c.restart.bootFailQuarantine >= 0)
    && (field.TimeoutMs? ==>
          && 1_000 <= c.shutdown.timeoutMs <= 60_000
          && c.shutdown.sigtermDelayMs + c.shutdown.sigintDelayMs < c.shutdown.timeoutMs)
    && (field.AckTimeoutMs? ==>
          500 <= c.shutdown.ackTimeoutMs <= 30_000 && c.shutdown.ackTimeoutMs < c.shutdown.timeoutMs)
    && (field.SigtermDelayMs? ==> 100 <= c.shutdown.sigtermDelayMs <= 10_000)
    && (field.SigintDelayMs? ==> 100 <= c.shutdown.sigintDelayMs <= 10_000)
    && (field.HeartbeatMs? ==> c.health.heartbeatMs == 0 || c.health.heartbeatMs >= 100)
    && (field.WedgedTimeoutMs? ==>
          && c.health.wedgedTimeoutMs >= 0
          && (c.health.wedgedTimeoutMs > 0 ==>
                c.health.heartbeatMs > 0 && c.health.wedgedTimeoutMs >= 2 * c.health.heartbeatMs))
    && (field.DegradedAfterMs? ==> c.health.degradedAfterMs >= 0)
    && (field.MaxEventLoopLagMs? ==>
          c.health.maxEventLoopLagMs >= 0 && (c.health.maxEventLoopLagMs > 0 ==> c.health.heartbeatMs > 0))
    && (field.LagRecycleBeats? ==> c.health.lagRecycleBeats >= 1)
    && (field.LagSpikeMs? ==>
          c.health.lagSpikeMs >= 0 && (c.health.lagSpikeMs > 0 ==> c.health.heartbeatMs > 0))
  }

  lemma BlameInWorkersOrRestart(o: Options, autoCount: int)
    ensures var c, w, r := Resolve(o, autoCount), RejectedWorkersOption(o), RejectedRestartOption(o);
            (w.Some? ==> !FieldOk(c, w.value)) && (r.Some? ==> !FieldOk(c, r.value))
  {
  }

  lemma BlameInShutdownOrHealth(o: Options, autoCount: int)
    ensures var c, s, h := Resolve(o, autoCount), RejectedShutdownOption(o), RejectedHealthOption(o);
            (s.Some? ==> !FieldOk(c, s.value)) && (h.Some? ==> !FieldOk(c, h.value))
  {
  }

  lemma BlameAcross(c: Config)
    ensures CrossFieldConflict(c).Some? ==> !FieldOk(c, CrossFieldConflict(c).value)
  {
  }

  /** The option blamed is one that breaks its own constraint. */
  lemma BlameIsTrue(o: Options, autoCount: int)
    requires autoCount >= 1 && ValidateConfig(o, autoCount).Failure?
    ensures !FieldOk(Resolve(o, autoCount), ValidateConfig(o, autoCount).error)
  {
    hide FieldOk, Resolve, CrossFieldConflict;
    hide RejectedWorkersOption, RejectedRestartOption, RejectedShutdownOption, RejectedHealthOption;
    BlameInWorkersOrRestart(o, autoCount);
    BlameInShutdownOrHealth(o, autoCount);
    BlameAcross(Resolve(o, autoCount));
  }

  const NO_OPTIONS := Options(None, None, None, None, None, None, None, None, None, None,
                              None, None, None, None, None, None, None, None, None, None)

  /** The documented defaults. */
  lemma DefaultsAre(autoCount: int)
    ensures Resolve(NO_OPTIONS, autoCount) ==
            Config(Workers(autoCount, 0, 0), Restart(5, 60_000, 1_000.0, 30_000.0, 2.0, 30_000, 0),
                   Shutdown(12_000, 3_000, 2_000, 1_000), Health(0, 0, 0, 0, 3, 0))
  {
  }

  /** Options given one over the other: what the first gives, and the rest from the second. */
  function Over(a: Options, b: Options): Options {
    Options(
      First(a.count, b.count), First(a.maxAgeMs, b.maxAgeMs), First(a.maxRssMb, b.maxRssMb),
      First(a.crashThreshold, b.crashThreshold), First(a.crashWindowMs, b.crashWindowMs),
      First(a.backoffMs, b.backoffMs), First(a.maxBackoffMs, b.maxBackoffMs),
      First(a.backoffMultiplier, b.backoffMultiplier), First(a.stabilityWindowMs, b.stabilityWindowMs),
      First(a.bootFailQuarantine, b.bootFailQuarantine), First(a.timeoutMs, b.timeoutMs),
      First(a.ackTimeoutMs, b.ackTimeoutMs), First(a.sigtermDelayMs, b.sigtermDelayMs),
      First(a.sigintDelayMs, b.sigintDelayMs), First(a.heartbeatMs, b.heartbeatMs),
      First(a.wedgedTimeoutMs, b.wedgedTimeoutMs), First(a.degradedAfterMs, b.degradedAfterMs),
      First(a.maxEventLoopLagMs, b.maxEventLoopLagMs), First(a.lagRecycleBeats, b.lagRecycleBeats),
      First(a.lagSpikeMs, b.lagSpikeMs))
  }

  function First<T>(a: Option<T>, b: Option<T>): Option<T> {
    if a.Some? then a else b
  }

  /** Each option given is taken, and each left out is its default, independently of the others. */
  lemma ResolvesFieldByField(o: Options, autoCount: int)
    ensures AsOptions(Resolve(o, autoCount)) == Over(o, AsOptions(Resolve(NO_OPTIONS, autoCount)))
  {
  }

  /** Leaving everything out is accepted. */
  lemma DefaultsAreValid(autoCount: int)
    requires autoCount >= 1
    ensures ValidateConfig(NO_OPTIONS, autoCount).Success?
  {
  }
}
