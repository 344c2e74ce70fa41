/** internal/shadow/phantom.go: rounding, clamping, drift, naming and the phantom pod itself. */
module Shadow {
  import opened Wrappers
  import opened Api
  import Binary64

  // ----- Measurements to quantities ----------------------------------------------------

  const TWO_TO_63: int := 0x8000_0000_0000_0000

  const NANO: int := 1_000_000_000

  /** A binary64 product of non-negative factors; past the modelled range the exact product stands in for infinity. */
  function Product(x: real, k: real): (p: real)
    requires x >= 0.0 && k >= 0.0
    ensures p >= 0.0
  {
    if Binary64.InRange(x * k) then
      Binary64.NearestNonNegative(x * k);
      Binary64.Nearest(x * k)
    else
      x * k
  }

  /** `math.Round` of a non-negative value: halves go up. */
  function RoundHalfAway(v: real): int
    requires v >= 0.0
  {
    (v + 0.5).Floor
  }

  /** `int64(math.Round(v))`; an out-of-range conversion yields the least int64, as it does on amd64. */
  function RoundToInt64(v: real): int
    requires v >= 0.0
  {
    if RoundHalfAway(v) < TWO_TO_63 then RoundHalfAway(v) else -TWO_TO_63
  }

  /** The reservation for a measurement: CPU in whole millicores, memory in whole bytes. */
  function PairOf(cpuCores: real, memoryBytes: real): Pair
    requires cpuCores >= 0.0 && memoryBytes >= 0.0
  {
    Pair(RoundToInt64(Product(cpuCores, 1000.0)) * 1_000_000, RoundToInt64(memoryBytes) * NANO)
  }

  /** The durable status value of a measurement: CPU in nanocores, memory in whole bytes. */
  function MeasurementPairOf(cpuCores: real, memoryBytes: real): Pair
    requires cpuCores >= 0.0 && memoryBytes >= 0.0
  {
    Pair(RoundToInt64(Product(cpuCores, 1_000_000_000.0)), RoundToInt64(memoryBytes) * NANO)
  }

  predicate AtMost(a: Pair, b: Pair) {
    a.cpu <= b.cpu && a.memory <= b.memory
  }

  // ----- Clamping and drift --------------------------------------------------------------

  function ClampQuantity(desired: Quantity, floor: Quantity, ceiling: Quantity): Quantity {
    var raised := if desired < floor then floor else desired;
    if raised > ceiling then ceiling else raised
  }

  function Clamp(desired: Pair, floor: Pair, ceiling: Pair): Pair {
    Pair(ClampQuantity(desired.cpu, floor.cpu, ceiling.cpu),
         ClampQuantity(desired.memory, floor.memory, ceiling.memory))
  }

  /** Relative change in percent against the threshold, over exact quantities. */
  predicate Drift(current: Quantity, desired: Quantity, threshold: int) {
    var want := if desired < 0 then 0 else desired;
    if current <= 0 then want > 0
    else (if want < current then current - want else want - current) * 100 > threshold * current
  }

  predicate DriftExceeds(current: Pair, desired: Pair, threshold: int) {
    Drift(current.cpu, desired.cpu, threshold) || Drift(current.memory, desired.memory, threshold)
  }

  // ----- The phantom pod ------------------------------------------------------------------

  const KIND: string := "ShadowWorkload"

  const API_VERSION: string := "symbiont.tensorhost.com/v1alpha1"

  function ResourcesOf(p: Pair): ResourceList {
    map[Cpu := p.cpu, Memory := p.memory]
  }

  /** The pod the controller asks the server to create; the server assigns the uid and resource version. */
  function BuildPhantomPod(sw: Workload, initial: Pair): Pod {
    Pod(0, 0, Some(Owner(sw.name, sw.uid, KIND, API_VERSION)), true, sw.spec.node,
        [Container(ResourcesOf(initial), ResourcesOf(initial))])
  }

  /** The requests of the first container; what is missing reads as zero. */
  function CurrentPairOf(pod: Pod): Pair {
    if pod.containers == [] then Pair(0, 0)
    else
      var requests := pod.containers[0].requests;
      Pair(if Cpu in requests then requests[Cpu] else 0, if Memory in requests then requests[Memory] else 0)
  }

  /** Guaranteed QoS at exactly `p`: on every container, requests and limits are both `p`. */
  predicate HoldsExactly(pod: Pod, p: Pair) {
    forall i :: 0 <= i < |pod.containers| ==> pod.containers[i] == Container(ResourcesOf(p), ResourcesOf(p))
  }

  lemma ExactPodsReadBack(pod: Pod, p: Pair)
    requires HoldsExactly(pod, p) && pod.containers != []
    ensures CurrentPairOf(pod) == p
  {
  }
}
