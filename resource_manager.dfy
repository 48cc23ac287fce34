/**
 * The resource governor (`resource_manager.py`): worker-count selection
 * from available memory and CPU count, the disk-space check, the throttle
 * predicates and the bounded wait loop. Memory, disk and CPU readings are
 * parameters; percentages and gigabyte amounts are exact reals.
 */
module ResourceManager {
  import opened Wrappers

  const GiB: nat := 1024 * 1024 * 1024
  /** `os.cpu_count() or 4` when the OS reports nothing. */
  const FallbackCpuCount: nat := 4
  const DefaultMinWorkers: int := 2
  const DefaultMaxWorkers: int := 8
  const DefaultRequiredGb: real := 5.0
  const DefaultCpuThreshold: real := 90.0
  const DefaultMemoryThreshold: real := 85.0
  const DefaultWaitTimeoutSec: int := 300
  /** Seconds slept per throttled check. */
  const WaitStepSec: int := 5

  function Min(a: int, b: int): int { if a <= b then a else b }
  function Max(a: int, b: int): int { if a >= b then a else b }

  /** `os.cpu_count() or 4`: an unreported or zero count falls back to 4. */
  function CpuCount(reported: Option<nat>): (n: nat)
    ensures n > 0
    ensures reported.Some? && reported.value > 0 ==> n == reported.value
    ensures reported.None? || reported.value == 0 ==> n == FallbackCpuCount
  {
    match reported
    case None => FallbackCpuCount
    case Some(c) => if c == 0 then FallbackCpuCount else c
  }

  /** `get_optimal_workers` for `availableBytes` of free memory. */
  function OptimalWorkers(availableBytes: nat, cpuCount: int, minWorkers: int, maxWorkers: int): (w: int)
    ensures w >= minWorkers
    ensures w <= Max(minWorkers, maxWorkers)
    ensures availableBytes < 4 * GiB ==> w == minWorkers
    ensures 4 * GiB <= availableBytes < 8 * GiB ==> w == Max(minWorkers, Min(cpuCount / 2, maxWorkers))
    ensures 8 * GiB <= availableBytes ==> w == Max(minWorkers, Min(cpuCount, maxWorkers))
  {
    var workers :=
      if availableBytes < 4 * GiB then minWorkers
      else if availableBytes < 8 * GiB then Min(cpuCount / 2, maxWorkers)
      else Min(cpuCount, maxWorkers);
    Max(minWorkers, workers)
  }

  /** More free memory never means fewer workers. */
  lemma OptimalWorkersMonotone(a1: nat, a2: nat, cpuCount: int, minWorkers: int, maxWorkers: int)
    requires a1 <= a2 && cpuCount >= 0
    ensures OptimalWorkers(a1, cpuCount, minWorkers, maxWorkers) <= OptimalWorkers(a2, cpuCount, minWorkers, maxWorkers)
  {
  }

  /** Below 4 GiB the CPU count plays no part. */
  lemma LowMemoryIgnoresCpus(availableBytes: nat, c1: int, c2: int, minWorkers: int, maxWorkers: int)
    requires availableBytes < 4 * GiB
    ensures OptimalWorkers(availableBytes, c1, minWorkers, maxWorkers) == OptimalWorkers(availableBytes, c2, minWorkers, maxWorkers)
  {
  }

  /** `check_disk_space`: free gigabytes at least the required amount. */
  function EnoughDiskSpace(freeBytes: nat, requiredGb: real): (ok: bool)
    ensures ok <==> freeBytes as real >= requiredGb * GiB as real
  {
    (freeBytes as real) / (GiB as real) >= requiredGb
  }

  /** The bound is inclusive, and more free space never fails a check that
      less free space passed. */
  lemma DiskSpaceBoundary(requiredGiB: nat, f1: nat, f2: nat, requiredGb: real)
    requires f1 <= f2
    ensures EnoughDiskSpace(requiredGiB * GiB, requiredGiB as real)
    ensures EnoughDiskSpace(f1, requiredGb) ==> EnoughDiskSpace(f2, requiredGb)
  {
    assert (requiredGiB * GiB) as real == requiredGiB as real * GiB as real;
  }

  /** `is_memory_constrained`: strictly above the threshold. */
  predicate IsMemoryConstrained(memoryPercent: real, threshold: real)
  {
    memoryPercent > threshold
  }

  /** One sample of the two percentages `should_throttle` reads. */
  datatype Reading = Reading(cpuPercent: real, memoryPercent: real)

  /** `should_throttle` */
  predicate ShouldThrottle(r: Reading, cpuThreshold: real, memoryThreshold: real)
  {
    r.cpuPercent > cpuThreshold || IsMemoryConstrained(r.memoryPercent, memoryThreshold)
  }

  /** Both comparisons are strict: a reading exactly at both thresholds
      does not throttle, and one strictly above either does. */
  lemma ThrottleIsStrict(cpuThreshold: real, memoryThreshold: real, r: Reading)
    ensures !ShouldThrottle(Reading(cpuThreshold, memoryThreshold), cpuThreshold, memoryThreshold)
    ensures ShouldThrottle(r, cpuThreshold, memoryThreshold) <==> r.cpuPercent > cpuThreshold || r.memoryPercent > memoryThreshold
  {
  }

  /** `wait_for_resources`: the `k`-th check of `should_throttle` (with its
      default thresholds) sees `readings(k)`. Returns the number of waits
      and the seconds counted as elapsed. */
  method WaitForResources(timeout: int, readings: nat -> Reading) returns (waits: nat, elapsed: int)
    ensures elapsed == WaitStepSec * waits
    ensures forall j :: 0 <= j < waits ==>
      ShouldThrottle(readings(j), DefaultCpuThreshold, DefaultMemoryThreshold) && WaitStepSec * j < timeout
    ensures !ShouldThrottle(readings(waits), DefaultCpuThreshold, DefaultMemoryThreshold) || elapsed >= timeout
    ensures timeout <= 0 ==> waits == 0
    ensures timeout > 0 ==> elapsed < timeout + WaitStepSec
  {
    waits, elapsed := 0, 0;
    while ShouldThrottle(readings(waits), DefaultCpuThreshold, DefaultMemoryThreshold) && elapsed < timeout
      invariant elapsed == WaitStepSec * waits
      invariant forall j :: 0 <= j < waits ==>
        ShouldThrottle(readings(j), DefaultCpuThreshold, DefaultMemoryThreshold) && WaitStepSec * j < timeout
      invariant timeout > 0 ==> elapsed < timeout + WaitStepSec
      invariant timeout <= 0 ==> waits == 0
      decreases timeout - elapsed
    {
      elapsed := elapsed + WaitStepSec;
      waits := waits + 1;
    }
  }
}
