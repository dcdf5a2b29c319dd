/**
 * Container sizing: how many workers, and how much V8 heap for each. Memory
 * arithmetic is over the reals; only the code's own Math.floor rounds.
 */
module Sizing {
  import opened Wrappers

  const MIN_VIABLE_HEAP_MB := 128
  const MAX_REASONABLE_WORKERS := 256
  const MB := 1048576.0

  datatype Strategy = Balanced | CpuFirst

  datatype Options = Options(overhead: real, heapRatio: real, minWorkers: int, maxWorkers: int, strategy: Strategy)

  /** Container limits, where there are any, and what the machine has. */
  datatype Limits = Limits(cpuLimit: Option<real>, memoryLimitBytes: Option<nat>, osCpus: nat, osMemoryBytes: nat)

  datatype Sized = Sized(workers: int, memoryPerWorkerMb: int, v8HeapMb: int, constrained: bool)

  predicate IsFraction(x: real) {
    0.0 < x <= 1.0
  }

  /** The option that is out of range, if any, in the order of the checks. */
  function RejectedOption(o: Options): Option<string> {
    if !IsFraction(o.overhead) then Some("memoryOverheadFactor")
    else if !IsFraction(o.heapRatio) then Some("heapRatio")
    else if o.minWorkers < 1 then Some("minWorkers")
    else if o.maxWorkers < 1 then Some("maxWorkers")
    else if o.minWorkers > MAX_REASONABLE_WORKERS then Some("minWorkers")
    else if o.maxWorkers > MAX_REASONABLE_WORKERS then Some("maxWorkers")
    else if o.minWorkers > o.maxWorkers then Some("minWorkers")
    else None
  }

  function EffectiveCpu(l: Limits): real {
    if l.cpuLimit.Some? then l.cpuLimit.value else l.osCpus as real
  }

  function EffectiveMemory(l: Limits): real {
    (if l.memoryLimitBytes.Some? then l.memoryLimitBytes.value else l.osMemoryBytes) as real
  }

  /** The most workers the CPU and the options allow. */
  function CpuWorkers(l: Limits, o: Options): int {
    Max(o.minWorkers, Min(o.maxWorkers, EffectiveCpu(l).Floor))
  }

  /** Megabytes for each of `w` workers, not rounded. */
  function ShareMb(l: Limits, o: Options, w: int): real
    requires w >= 1
  {
    EffectiveMemory(l) * o.overhead / (w as real) / MB
  }

  /** The heap estimate the balanced loop looks at. */
  function EstimatedHeapMb(l: Limits, o: Options, w: int): int
    requires w >= 1
  {
    (ShareMb(l, o, w) * o.heapRatio).Floor
  }

  predicate Viable(l: Limits, o: Options, w: int)
    requires w >= 1
  {
    EstimatedHeapMb(l, o, w) >= MIN_VIABLE_HEAP_MB
  }

  /** The heap from the rounded share, which is what the workers get unless it is clamped. */
  function RawHeapMb(l: Limits, o: Options, w: int): int
    requires w >= 1
  {
    (ShareMb(l, o, w).Floor as real * o.heapRatio).Floor
  }

  /** What the options leave of the memory for all workers. */
  function Budget(l: Limits, o: Options): real {
    EffectiveMemory(l) * o.overhead
  }

  function Ceiling(x: real): int {
    if x == x.Floor as real then x.Floor else x.Floor + 1
  }

  /** The least share in whole megabytes whose heap is viable. */
  function WholeShareMb(o: Options): int
    requires IsFraction(o.heapRatio)
  {
    Ceiling(MIN_VIABLE_HEAP_MB as real / o.heapRatio)
  }

  /** The balanced count, from the inputs alone: as many workers as the heap memory has room for. */
  function BalancedCount(l: Limits, o: Options): int {
    Max(o.minWorkers, Min(CpuWorkers(l, o), (Budget(l, o) * o.heapRatio / (MIN_VIABLE_HEAP_MB as real * MB)).Floor))
  }

  ghost predicate NoneViableAbove(l: Limits, o: Options, n: int) {
    forall w | w >= 1 && n < w <= CpuWorkers(l, o) :: !Viable(l, o, w)
  }

  /** A count as the balanced strategy is meant to choose it. */
  ghost predicate Balances(l: Limits, o: Options, n: int) {
    && 1 <= n && o.minWorkers <= n <= CpuWorkers(l, o)
    && (n > o.minWorkers ==> Viable(l, o, n))
    && NoneViableAbove(l, o, n)
  }

  method CalculateSizing(l: Limits, o: Options) returns (r: Result<Sized, string>)
    ensures r.Failure? <==> RejectedOption(o).Some?
    ensures r.Failure? ==> RejectedOption(o) == Some(r.error)
    ensures r.Success? ==> r.value.workers >= 1
    ensures r.Success? && o.strategy.CpuFirst? ==> r.value.workers == CpuWorkers(l, o)
    ensures r.Success? && o.strategy.Balanced? ==>
              Balances(l, o, r.value.workers) && r.value.workers == BalancedCount(l, o)
    ensures r.Success? ==>
              && r.value.memoryPerWorkerMb == ShareMb(l, o, r.value.workers).Floor
              && r.value.v8HeapMb == Max(RawHeapMb(l, o, r.value.workers), MIN_VIABLE_HEAP_MB)
              && (r.value.constrained <==> Budget(l, o) < WholeShareMb(o) as real * MB * (r.value.workers as real))
  {
    hide ShareMb, WholeShareMb, Budget, BalancedCount, EffectiveCpu;
    var rejected := RejectedOption(o);
    if rejected.Some? { return Failure(rejected.value); }
    var workers := CpuWorkers(l, o);
    if o.strategy != CpuFirst {
      while workers > o.minWorkers
        invariant 1 <= o.minWorkers <= workers <= CpuWorkers(l, o)
        invariant NoneViableAbove(l, o, workers)
      {
        var heapMb := (ShareMb(l, o, workers) * o.heapRatio).Floor;
        if heapMb >= MIN_VIABLE_HEAP_MB { break; }
        workers := workers - 1;
      }
    }
    if o.strategy == Balanced { BalancedIsClosedForm(l, o, workers); }
    ConstrainedIff(l, o, workers);
    var memoryPerWorkerMb := ShareMb(l, o, workers).Floor;
    var rawV8HeapMb := (memoryPerWorkerMb as real * o.heapRatio).Floor;
    r := Success(Sized(workers, memoryPerWorkerMb, Max(rawV8HeapMb, MIN_VIABLE_HEAP_MB),
                       rawV8HeapMb < MIN_VIABLE_HEAP_MB));
  }

  // --------------------------------------------------------------- arithmetic

  lemma ScaleMonotone(x: real, y: real, k: real)
    requires x <= y && k >= 0.0
    ensures x * k <= y * k
  {
    assert (y - x) * k >= 0.0;
  }

  lemma QuotientAntitone(a: real, v: real, w: real)
    requires a >= 0.0 && 0.0 < v <= w
    ensures 0.0 <= a / w <= a / v
  {
    var q := a / w;
    assert q * w == a;
    if q < 0.0 {
      ScaleMonotone(q, 0.0, w);
    }
    ScaleMonotone(v, w, q);
    assert (a / v) * v == a;
    if a / v < q {
      assert (q - a / v) * v > 0.0;
    }
  }

  lemma MemoryNonNegative(l: Limits, o: Options)
    requires RejectedOption(o).None?
    ensures EffectiveMemory(l) * o.overhead >= 0.0
  {
    ScaleMonotone(0.0, EffectiveMemory(l), o.overhead);
  }

  /** Fewer workers have at least as large a share each. */
  lemma ShareAntitone(l: Limits, o: Options, v: int, w: int)
    requires RejectedOption(o).None? && 1 <= v <= w
    ensures 0.0 <= ShareMb(l, o, w) <= ShareMb(l, o, v)
  {
    MemoryNonNegative(l, o);
    var budget := EffectiveMemory(l) * o.overhead;
    QuotientAntitone(budget, v as real, w as real);
    var small, large := budget / (w as real), budget / (v as real);
    assert small / MB <= large / MB;
  }

  // ----------------------------------------------------- options and limits

  /** What each option has to satisfy. */
  predicate OptionOk(o: Options, option: string) {
    && (option == "memoryOverheadFactor" ==> 0.0 < o.overhead <= 1.0)
    && (option == "heapRatio" ==> 0.0 < o.heapRatio <= 1.0)
    && (option == "minWorkers" ==> 1 <= o.minWorkers <= 256 && o.minWorkers <= o.maxWorkers)
    && (option == "maxWorkers" ==> 1 <= o.maxWorkers <= 256)
  }

  const OPTIONS := {"memoryOverheadFactor", "heapRatio", "minWorkers", "maxWorkers"}

  /** Options are rejected exactly when one is out of its range, and the one named is. */
  lemma RejectedIff(o: Options)
    ensures RejectedOption(o).None? <==> forall option | option in OPTIONS :: OptionOk(o, option)
    ensures RejectedOption(o).Some? ==> RejectedOption(o).value in OPTIONS && !OptionOk(o, RejectedOption(o).value)
  {
    if RejectedOption(o).Some? {
      assert !OptionOk(o, RejectedOption(o).value);
    } else {
      forall option | option in OPTIONS
        ensures OptionOk(o, option)
      {
      }
    }
    if forall option | option in OPTIONS :: OptionOk(o, option) {
      assert OptionOk(o, "memoryOverheadFactor") && OptionOk(o, "heapRatio");
      assert OptionOk(o, "minWorkers") && OptionOk(o, "maxWorkers");
    }
  }

  /** A container limit counts, and what the machine has only where there is none. */
  lemma LimitsWin(l: Limits, o: Options, cpus: nat, memory: nat)
    requires RejectedOption(o).None?
    ensures var other := l.(osCpus := cpus, osMemoryBytes := memory);
            && (l.cpuLimit.Some? ==> CpuWorkers(other, o) == CpuWorkers(l, o))
            && (l.cpuLimit.Some? && o.minWorkers <= l.cpuLimit.value.Floor <= o.maxWorkers ==>
                  CpuWorkers(l, o) == l.cpuLimit.value.Floor)
            && (l.cpuLimit.None? && o.minWorkers <= cpus <= o.maxWorkers ==> CpuWorkers(other, o) == cpus)
            && (l.memoryLimitBytes.Some? ==>
                  Budget(l, o) == l.memoryLimitBytes.value as real * o.overhead == Budget(other, o))
            && (l.memoryLimitBytes.None? ==> Budget(other, o) == memory as real * o.overhead)
            && o.minWorkers <= CpuWorkers(l, o) <= o.maxWorkers
  {
  }

  // ----------------------------------------------------------- main results

  /** If a count is viable, so is every smaller one. */
  lemma ViableDownward(l: Limits, o: Options, v: int, w: int)
    requires RejectedOption(o).None? && 1 <= v <= w && Viable(l, o, w)
    ensures Viable(l, o, v)
  {
    ShareAntitone(l, o, v, w);
    ScaleMonotone(ShareMb(l, o, w), ShareMb(l, o, v), o.heapRatio);
  }

  /** There is only one such count: the viable counts above it are none, those from the minimum up to it are all. */
  lemma BalancedIsTheLargestViable(l: Limits, o: Options, n: int)
    requires RejectedOption(o).None? && Balances(l, o, n)
    ensures n > o.minWorkers ==> forall w | 1 <= w <= n :: Viable(l, o, w)
    ensures forall m | Balances(l, o, m) :: m == n
  {
    if n > o.minWorkers {
      forall w | 1 <= w <= n
        ensures Viable(l, o, w)
      {
        ViableDownward(l, o, w, n);
      }
    }
  }

  /** Unless it had to be clamped, the heap of all workers fits the memory meant for it. */
  lemma UnconstrainedHeapFits(l: Limits, o: Options, w: int)
    requires RejectedOption(o).None? && w >= 1
    ensures RawHeapMb(l, o, w) as real * MB * (w as real) <= EffectiveMemory(l) * o.overhead * o.heapRatio
  {
    hide ShareMb, RejectedOption;
    RatioPositive(o);
    var raw, scale := RawHeapMb(l, o, w) as real, MB * (w as real);
    HeapRoundsDown(ShareMb(l, o, w), o.heapRatio);
    HeapOfShare(l, o, w);
    assert scale >= 0.0;
    ScaleMonotone(raw, ShareMb(l, o, w) * o.heapRatio, scale);
    assert raw * scale == raw * MB * (w as real);
  }

  lemma HeapRoundsDown(share: real, ratio: real)
    requires ratio > 0.0
    ensures (share.Floor as real * ratio).Floor as real <= share * ratio
  {
    var whole := share.Floor as real;
    ScaleMonotone(whole, share, ratio);
    assert (whole * ratio).Floor as real <= whole * ratio;
  }

  lemma RatioPositive(o: Options)
    requires RejectedOption(o).None?
    ensures 0.0 < o.heapRatio <= 1.0
  {
  }

  lemma HeapOfShare(l: Limits, o: Options, w: int)
    requires w >= 1
    ensures ShareMb(l, o, w) * o.heapRatio * (MB * (w as real)) == EffectiveMemory(l) * o.overhead * o.heapRatio
  {
    var budget, n := EffectiveMemory(l) * o.overhead, w as real;
    var q := budget / n;
    assert q * n == budget;
    var share := q / MB;
    assert share * MB == q;
    assert share * o.heapRatio * (MB * n) == (share * MB) * n * o.heapRatio;
  }

  lemma DivideAtLeast(a: real, x: real, k: real)
    requires k > 0.0
    ensures a / k >= x <==> a >= x * k
  {
    var q := a / k;
    var p := q * k;
    assert p == a;
    ScaleIff(q, x, k);
  }

  lemma ScaleLess(x: real, y: real, k: real)
    requires x < y && k > 0.0
    ensures x * k < y * k
  {
    assert (y - x) * k > 0.0;
  }

  lemma ScaleIff(x: real, y: real, k: real)
    requires k > 0.0
    ensures x >= y <==> x * k >= y * k
  {
    if x >= y { ScaleMonotone(y, x, k); } else { ScaleLess(x, y, k); }
  }

  lemma FloorAtLeast(x: real, n: int)
    ensures x.Floor >= n <==> x >= n as real
  {
  }

  lemma CeilingAtMost(x: real, n: int)
    ensures n >= Ceiling(x) <==> n as real >= x
  {
  }

  /** A share reaches `x` megabytes exactly if the budget has that for every worker. */
  lemma ShareAtLeast(l: Limits, o: Options, w: int, x: real)
    requires w >= 1
    ensures ShareMb(l, o, w) >= x <==> Budget(l, o) >= x * MB * (w as real)
  {
    var n := w as real;
    DivideAtLeast(Budget(l, o) / n, x, MB);
    DivideAtLeast(Budget(l, o), x * MB, n);
  }

  lemma HeapRoom(heap: real, memory: real, n: real, least: real)
    requires n > 0.0 && least > 0.0 && heap * (MB * n) == memory
    ensures heap >= least <==> memory / (least * MB) >= n
  {
    var unit, scale := least * MB, MB * n;
    assert scale > 0.0 && unit > 0.0;
    ScaleIff(heap, least, scale);
    assert least * scale == n * unit;
    DivideAtLeast(memory, n, unit);
  }

  /** A count is viable exactly while the heap memory has room for it. */
  lemma ViableIff(l: Limits, o: Options, w: int)
    requires RejectedOption(o).None? && w >= 1
    ensures Viable(l, o, w) <==> w <= (Budget(l, o) * o.heapRatio / (MIN_VIABLE_HEAP_MB as real * MB)).Floor
  {
    hide ShareMb, RejectedOption;
    var heap, memory := ShareMb(l, o, w) * o.heapRatio, Budget(l, o) * o.heapRatio;
    HeapOfShare(l, o, w);
    HeapRoom(heap, memory, w as real, MIN_VIABLE_HEAP_MB as real);
    FloorAtLeast(heap, MIN_VIABLE_HEAP_MB);
    FloorAtLeast(memory / (MIN_VIABLE_HEAP_MB as real * MB), w);
  }

  /** What the loop finds is what the inputs determine. */
  lemma BalancedIsClosedForm(l: Limits, o: Options, n: int)
    requires RejectedOption(o).None? && Balances(l, o, n)
    ensures n == BalancedCount(l, o)
  {
    hide Viable, Budget;
    var room := (Budget(l, o) * o.heapRatio / (MIN_VIABLE_HEAP_MB as real * MB)).Floor;
    ViableIff(l, o, n);
    if n < CpuWorkers(l, o) {
      ViableIff(l, o, n + 1);
      assert !Viable(l, o, n + 1);
    }
  }

  /**
   * A result is constrained exactly if the budget is short of the whole
   * megabytes that a viable heap needs, for every worker.
   */
  lemma ConstrainedIff(l: Limits, o: Options, w: int)
    requires RejectedOption(o).None? && w >= 1
    ensures RawHeapMb(l, o, w) < MIN_VIABLE_HEAP_MB <==> Budget(l, o) < WholeShareMb(o) as real * MB * (w as real)
  {
    hide ShareMb, Budget, Ceiling;
    RatioPositive(o);
    hide RejectedOption;
    var share, least := ShareMb(l, o, w), MIN_VIABLE_HEAP_MB as real;
    FloorAtLeast(share.Floor as real * o.heapRatio, MIN_VIABLE_HEAP_MB);
    var q := least / o.heapRatio;
    assert q * o.heapRatio == least;
    ScaleIff(share.Floor as real, q, o.heapRatio);
    CeilingAtMost(q, share.Floor);
    FloorAtLeast(share, WholeShareMb(o));
    ShareAtLeast(l, o, w, WholeShareMb(o) as real);
  }

  /**
   * When balancing is constrained above the minimum: exactly if the inputs'
   * count exceeds it, and the budget lies short of the whole megabytes for
   * that many workers. The loop rounds the heap, the result the share as well.
   */
  lemma ConstrainedAboveMinimumIff(l: Limits, o: Options, n: int)
    requires RejectedOption(o).None? && Balances(l, o, n)
    ensures n > o.minWorkers && RawHeapMb(l, o, n) < MIN_VIABLE_HEAP_MB
            <==> BalancedCount(l, o) > o.minWorkers
                 && Budget(l, o) < WholeShareMb(o) as real * MB * (BalancedCount(l, o) as real)
  {
    hide RawHeapMb, BalancedCount, WholeShareMb;
    BalancedIsClosedForm(l, o, n);
    ConstrainedIff(l, o, n);
  }

  /** With a ratio that divides the viable heap evenly that never happens. */
  lemma EvenRatioNeverConstrains(l: Limits, o: Options, n: int)
    requires RejectedOption(o).None? && Balances(l, o, n) && n > o.minWorkers
    requires WholeShareMb(o) as real == MIN_VIABLE_HEAP_MB as real / o.heapRatio
    ensures RawHeapMb(l, o, n) >= MIN_VIABLE_HEAP_MB
  {
    var share, q := ShareMb(l, o, n), MIN_VIABLE_HEAP_MB as real / o.heapRatio;
    FloorAtLeast(share * o.heapRatio, MIN_VIABLE_HEAP_MB);
    assert q * o.heapRatio == MIN_VIABLE_HEAP_MB as real;
    ScaleIff(share, q, o.heapRatio);
    FloorAtLeast(share, WholeShareMb(o));
    ScaleMonotone(WholeShareMb(o) as real, share.Floor as real, o.heapRatio);
  }

  /** The second rounding costs at most one megabyte. */
  lemma RoundingCostsOneMb(l: Limits, o: Options, w: int)
    requires RejectedOption(o).None? && w >= 1 && Viable(l, o, w)
    ensures RawHeapMb(l, o, w) >= MIN_VIABLE_HEAP_MB - 1
  {
    var share := ShareMb(l, o, w);
    ScaleMonotone(share - 1.0, share.Floor as real, o.heapRatio);
    assert (share - 1.0) * o.heapRatio == share * o.heapRatio - o.heapRatio;
  }

  /** Above the minimum the clamp over-commits by at most one megabyte per worker. */
  lemma ClampAddsAtMostOneMbEach(l: Limits, o: Options, n: int)
    requires RejectedOption(o).None? && Balances(l, o, n) && n > o.minWorkers
    ensures Max(RawHeapMb(l, o, n), MIN_VIABLE_HEAP_MB) as real * MB * (n as real)
            <= EffectiveMemory(l) * o.overhead * o.heapRatio + MB * (n as real)
  {
    RoundingCostsOneMb(l, o, n);
    UnconstrainedHeapFits(l, o, n);
    var raw, clamped := RawHeapMb(l, o, n) as real, Max(RawHeapMb(l, o, n), MIN_VIABLE_HEAP_MB) as real;
    ScaleMonotone(clamped, raw + 1.0, MB * (n as real));
    assert clamped * (MB * (n as real)) == clamped * MB * (n as real);
    assert (raw + 1.0) * (MB * (n as real)) == raw * MB * (n as real) + MB * (n as real);
  }

  /** That condition does occur: two workers, 358 million bytes. */
  lemma ConstrainedAboveMinimum()
    ensures var o := Options(1.0, 0.75, 1, 2, Balanced);
            var l := Limits(Some(2.0), Some(358_000_000), 2, 0);
            Balances(l, o, 2) && RawHeapMb(l, o, 2) == 127
  {
    var o := Options(1.0, 0.75, 1, 2, Balanced);
    var l := Limits(Some(2.0), Some(358_000_000), 2, 0);
    var share := ShareMb(l, o, 2);
    assert EffectiveMemory(l) == 358_000_000.0;
    assert share == 358_000_000.0 * 1.0 / 2.0 / 1048576.0;
    assert 170.7 < share < 170.8;
    assert share.Floor == 170;
    assert 128.0 < share * 0.75 < 129.0;
    assert CpuWorkers(l, o) == 2;
  }
}
