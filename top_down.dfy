/**
 * The O3 CPU's top-down analysis statistics: formulas that split the CPU's issue
 * slots into the four level-1 categories (frontend bound, bad speculation,
 * backend bound, retiring) and split some of those categories further into
 * level-2 and level-3 shares.
 *
 * The formulas are modelled over exact reals; every division carries the
 * precondition that its denominator is not zero.
 */
module TopDown {

  /** The counters and pipeline parameters the formulas read. Delays are in cycles. */
  datatype Counters = Counters(
    renameWidth: real,
    numCycles: real,
    fetchBubbles: real,
    fetchBubblesMax: real,
    fetchToDecodeDelay: int,
    decodeToRenameDelay: int,
    renameToIewDelay: int,
    decodeBranchMispred: real,
    iewBranchMispredicts: real,
    memOrderViolationEvents: real,
    renamedInsts: real,
    committedInst: real,
    numInstsExec0: real,
    numInstsExec1: real,
    numInstsExec2: real,
    idleCycles: real,
    loadStallCycles: real,
    storeStalls: real,
    l1Miss: real,
    l2Miss: real,
    l3Miss: real)

  datatype L1 = L1(frontendBound: real, badSpeculation: real, backendBound: real, retiring: real)

  datatype FrontendBoundL2 = FrontendBoundL2(fetchLatency: real, fetchBandwidth: real)

  datatype BadSpeculationL2 = BadSpeculationL2(branchMissPredicts: real, machineClears: real)

  datatype BackendBoundL2 = BackendBoundL2(executionStalls: real, memoryBound: real, coreBound: real)

  datatype BackendBoundL3 = BackendBoundL3(l1Bound: real, l2Bound: real, l3Bound: real, extMemBound: real, storeBound: real)

  /** All formula groups of one CPU. */
  datatype Stats = Stats(
    l1: L1,
    fbL2: FrontendBoundL2,
    bsL2: BadSpeculationL2,
    bbL2: BackendBoundL2,
    bbMem: BackendBoundL3)

  // ---------------------------------------------------------------------------
  // Level 1
  // ---------------------------------------------------------------------------

  /** The issue slots of the run: rename width times cycles. */
  function TotalSlots(c: Counters): real
  {
    c.renameWidth * c.numCycles
  }

  /** `wastedSlots`: the uops renamed but never committed. */
  function WastedSlots(c: Counters): real
  {
    c.renamedInsts - c.committedInst
  }

  /** The slots of the recovery cycles after each misprediction, which is
      detected at decode (fetch-to-decode cycles) or at IEW (fetch-to-IEW cycles,
      branch mispredictions and memory-order violations alike). */
  function RecoverySlots(c: Counters): real
  {
    var toDecode := c.fetchToDecodeDelay as real;
    var toIew := (c.fetchToDecodeDelay + c.decodeToRenameDelay + c.renameToIewDelay) as real;
    (toDecode * c.decodeBranchMispred + toIew * (c.iewBranchMispredicts + c.memOrderViolationEvents)) * c.renameWidth
  }

  /** The numerator of bad speculation: wasted slots plus recovery slots. */
  function BadSpeculationSlots(c: Counters): real
  {
    WastedSlots(c) + RecoverySlots(c)
  }

  /** `TopDownL1`. */
  function TopDownL1(c: Counters): (r: L1)
    requires TotalSlots(c) != 0.0
    ensures r.frontendBound * TotalSlots(c) == c.fetchBubbles
    ensures r.badSpeculation * TotalSlots(c) == BadSpeculationSlots(c)
    ensures r.retiring * TotalSlots(c) == c.committedInst
    ensures r.frontendBound + r.badSpeculation + r.backendBound + r.retiring == 1.0
  {
    var totalSlots := TotalSlots(c);
    var frontendBound := c.fetchBubbles / totalSlots;
    var badSpeculation := BadSpeculationSlots(c) / totalSlots;
    var retiring := c.committedInst / totalSlots;
    L1(frontendBound, badSpeculation, 1.0 - (frontendBound + badSpeculation + retiring), retiring)
  }

  /** With non-negative counts that fit in the slots, the frontend-bound and
      retiring fractions lie in [0, 1]. */
  lemma L1Fractions(c: Counters)
    requires TotalSlots(c) > 0.0
    requires 0.0 <= c.fetchBubbles <= TotalSlots(c)
    requires 0.0 <= c.committedInst <= TotalSlots(c)
    ensures 0.0 <= TopDownL1(c).frontendBound <= 1.0
    ensures 0.0 <= TopDownL1(c).retiring <= 1.0
  {
    var r := TopDownL1(c);
    FractionBounds(c.fetchBubbles, TotalSlots(c), r.frontendBound);
    FractionBounds(c.committedInst, TotalSlots(c), r.retiring);
  }

  /** A quotient `q = a / t` of `0 <= a <= t` lies in [0, 1]. */
  lemma FractionBounds(a: real, t: real, q: real)
    requires t > 0.0 && 0.0 <= a <= t
    requires q * t == a
    ensures 0.0 <= q <= 1.0
  {
  }

  // ---------------------------------------------------------------------------
  // Level 2: frontend bound
  // ---------------------------------------------------------------------------

  /** `TopDownFrontendBoundL2`, given the CPU's level-1 formulas. */
  function TopDownFrontendBoundL2(c: Counters, l1: L1): (r: FrontendBoundL2)
    requires c.numCycles != 0.0
    ensures r.fetchLatency * c.numCycles == c.fetchBubblesMax
    ensures r.fetchLatency + r.fetchBandwidth == l1.frontendBound
  {
    var fetchLatency := c.fetchBubblesMax / c.numCycles;
    FrontendBoundL2(fetchLatency, l1.frontendBound - fetchLatency)
  }

  // ---------------------------------------------------------------------------
  // Level 2: bad speculation
  // ---------------------------------------------------------------------------

  function Mispredicts(c: Counters): real
  {
    c.iewBranchMispredicts + c.decodeBranchMispred
  }

  /** The share of mispeculation events that are branch mispredictions. */
  function BranchFraction(c: Counters): (f: real)
    requires Mispredicts(c) + c.memOrderViolationEvents != 0.0
    ensures f * (Mispredicts(c) + c.memOrderViolationEvents) == Mispredicts(c)
  {
    Mispredicts(c) / (Mispredicts(c) + c.memOrderViolationEvents)
  }

  /** `TopDownBadSpeculationL2`, given the CPU's level-1 formulas. */
  function TopDownBadSpeculationL2(c: Counters, l1: L1): (r: BadSpeculationL2)
    requires Mispredicts(c) + c.memOrderViolationEvents != 0.0
    ensures r.branchMissPredicts == BranchFraction(c) * l1.badSpeculation
    ensures r.branchMissPredicts + r.machineClears == l1.badSpeculation
  {
    var branchMissPredicts := BranchFraction(c) * l1.badSpeculation;
    BadSpeculationL2(branchMissPredicts, l1.badSpeculation - branchMissPredicts)
  }

  /** For non-negative event counts with a positive sum, the branch fraction lies
      in [0, 1], so with a non-negative bad speculation both shares are
      non-negative. */
  lemma BranchFractionBounds(c: Counters, l1: L1)
    requires c.iewBranchMispredicts >= 0.0 && c.decodeBranchMispred >= 0.0 && c.memOrderViolationEvents >= 0.0
    requires Mispredicts(c) + c.memOrderViolationEvents > 0.0
    ensures 0.0 <= BranchFraction(c) <= 1.0
    ensures l1.badSpeculation >= 0.0 ==>
      TopDownBadSpeculationL2(c, l1).branchMissPredicts >= 0.0 && TopDownBadSpeculationL2(c, l1).machineClears >= 0.0
  {
    var f := BranchFraction(c);
    FractionBounds(Mispredicts(c), Mispredicts(c) + c.memOrderViolationEvents, f);
    if l1.badSpeculation >= 0.0 {
      ShareBounds(f, l1.badSpeculation);
    }
  }

  /** `f * b` and `b - f * b` are non-negative for `f` in [0, 1] and `b >= 0`. */
  lemma ShareBounds(f: real, b: real)
    requires 0.0 <= f <= 1.0 && b >= 0.0
    ensures f * b >= 0.0 && b - f * b >= 0.0
  {
    assert f * b >= 0.0 * b;
    assert (1.0 - f) * b >= 0.0 * b;
    assert (1.0 - f) * b == b - f * b;
  }

  // ---------------------------------------------------------------------------
  // Level 2: backend bound
  // ---------------------------------------------------------------------------

  /** The cycles stalled in execution, as a fraction of all cycles. */
  function ExecutionStalls(c: Counters): real
    requires c.numCycles != 0.0
  {
    (c.numInstsExec0 - c.idleCycles + c.numInstsExec1 + c.numInstsExec2) / c.numCycles
  }

  /** The cycles stalled on loads and stores, as a fraction of all cycles. */
  function MemoryBoundRaw(c: Counters): real
    requires c.numCycles != 0.0
  {
    (c.loadStallCycles + c.storeStalls) / c.numCycles
  }

  /** The execution stalls that are not memory stalls. */
  function CoreBoundRaw(c: Counters): (r: real)
    requires c.numCycles != 0.0
    ensures MemoryBoundRaw(c) + r == ExecutionStalls(c)
  {
    ExecutionStalls(c) - MemoryBoundRaw(c)
  }

  /** `TopDownBackendBoundL2`, given the CPU's level-1 formulas: the backend
      bound is shared out in the proportion of memory to core stalls. */
  function TopDownBackendBoundL2(c: Counters, l1: L1): (r: BackendBoundL2)
    requires c.numCycles != 0.0
    requires ExecutionStalls(c) != 0.0
    ensures r.executionStalls * c.numCycles == c.numInstsExec0 - c.idleCycles + c.numInstsExec1 + c.numInstsExec2
    ensures r.memoryBound * r.executionStalls == MemoryBoundRaw(c) * l1.backendBound
    ensures r.memoryBound + r.coreBound == l1.backendBound
  {
    var memoryBoundRaw := MemoryBoundRaw(c);
    var coreBoundRaw := CoreBoundRaw(c);
    var memoryBound := memoryBoundRaw / (memoryBoundRaw + coreBoundRaw) * l1.backendBound;
    var coreBound := coreBoundRaw / (memoryBoundRaw + coreBoundRaw) * l1.backendBound;
    SplitTwo(memoryBoundRaw, coreBoundRaw, l1.backendBound);
    BackendBoundL2(ExecutionStalls(c), memoryBound, coreBound)
  }

  /** Shares proportional to `a` and `b` of a total `t` add up to `t`. */
  lemma SplitTwo(a: real, b: real, t: real)
    requires a + b != 0.0
    ensures a / (a + b) * t + b / (a + b) * t == t
  {
    var s := a + b;
    assert a / s * t + b / s * t == (a + b) / s * t;
    assert (a + b) / s == 1.0;
  }

  // ---------------------------------------------------------------------------
  // Level 3: memory bound
  // ---------------------------------------------------------------------------

  function L1BoundRaw(c: Counters): real
    requires c.numCycles != 0.0
  {
    (c.loadStallCycles - c.l1Miss) / c.numCycles
  }

  function L2BoundRaw(c: Counters): real
    requires c.numCycles != 0.0
  {
    (c.l1Miss - c.l2Miss) / c.numCycles
  }

  function L3BoundRaw(c: Counters): real
    requires c.numCycles != 0.0
  {
    (c.l2Miss - c.l3Miss) / c.numCycles
  }

  function ExtMemBoundRaw(c: Counters): real
    requires c.numCycles != 0.0
  {
    c.l3Miss / c.numCycles
  }

  function StoreBoundRaw(c: Counters): real
    requires c.numCycles != 0.0
  {
    c.storeStalls / c.numCycles
  }

  /** The sum of the five raw level-3 terms. The miss counts cancel, so it is
      the raw memory-bound fraction of level 2. */
  function TotalMemoryBound(c: Counters): (r: real)
    requires c.numCycles != 0.0
    ensures r == MemoryBoundRaw(c)
  {
    var r := L1BoundRaw(c) + L2BoundRaw(c) + L3BoundRaw(c) + ExtMemBoundRaw(c) + StoreBoundRaw(c);
    Telescope(c.loadStallCycles, c.l1Miss, c.l2Miss, c.l3Miss, c.storeStalls, c.numCycles);
    r
  }

  lemma Telescope(load: real, m1: real, m2: real, m3: real, store: real, n: real)
    requires n != 0.0
    ensures (load - m1) / n + (m1 - m2) / n + (m2 - m3) / n + m3 / n + store / n == (load + store) / n
  {
    assert (load - m1) / n + (m1 - m2) / n + (m2 - m3) / n + m3 / n + store / n
        == ((load - m1) + (m1 - m2) + (m2 - m3) + m3 + store) / n;
  }

  /** `TopDownBackendBoundL3`, given the CPU's level-2 backend formulas: the
      memory bound is shared out in the proportion of the five raw terms. */
  function TopDownBackendBoundL3(c: Counters, bb: BackendBoundL2): (r: BackendBoundL3)
    requires c.numCycles != 0.0
    requires TotalMemoryBound(c) != 0.0
    ensures r.l1Bound + r.l2Bound + r.l3Bound + r.extMemBound + r.storeBound == bb.memoryBound
    ensures r.l1Bound * TotalMemoryBound(c) == L1BoundRaw(c) * bb.memoryBound
    ensures r.l2Bound * TotalMemoryBound(c) == L2BoundRaw(c) * bb.memoryBound
    ensures r.l3Bound * TotalMemoryBound(c) == L3BoundRaw(c) * bb.memoryBound
    ensures r.extMemBound * TotalMemoryBound(c) == ExtMemBoundRaw(c) * bb.memoryBound
    ensures r.storeBound * TotalMemoryBound(c) == StoreBoundRaw(c) * bb.memoryBound
  {
    ShareOut(L1BoundRaw(c), L2BoundRaw(c), L3BoundRaw(c), ExtMemBoundRaw(c), StoreBoundRaw(c),
             TotalMemoryBound(c), bb.memoryBound)
  }

  /** The total `t` shared out in the proportion of `a`, `b`, `c`, `d` and `e`,
      whose sum is `s`. */
  function ShareOut(a: real, b: real, c: real, d: real, e: real, s: real, t: real): (r: BackendBoundL3)
    requires s == a + b + c + d + e && s != 0.0
    ensures r.l1Bound + r.l2Bound + r.l3Bound + r.extMemBound + r.storeBound == t
    ensures r.l1Bound * s == a * t
    ensures r.l2Bound * s == b * t
    ensures r.l3Bound * s == c * t
    ensures r.extMemBound * s == d * t
    ensures r.storeBound * s == e * t
  {
    SplitFive(a, b, c, d, e, t);
    Proportion(a, s, t);
    Proportion(b, s, t);
    Proportion(c, s, t);
    Proportion(d, s, t);
    Proportion(e, s, t);
    BackendBoundL3(a / s * t, b / s * t, c / s * t, d / s * t, e / s * t)
  }

  /** A share `x / s` of a total `t`, scaled back by `s`, is `x * t`. */
  lemma Proportion(x: real, s: real, t: real)
    requires s != 0.0
    ensures x / s * t * s == x * t
  {
    assert x / s * s == x;
  }

  lemma SplitFive(a: real, b: real, c: real, d: real, e: real, t: real)
    requires a + b + c + d + e != 0.0
    ensures var s := a + b + c + d + e;
      a / s * t + b / s * t + c / s * t + d / s * t + e / s * t == t
  {
    var s := a + b + c + d + e;
    assert a / s * t + b / s * t + c / s * t + d / s * t + e / s * t == (a + b + c + d + e) / s * t;
    assert (a + b + c + d + e) / s == 1.0;
  }

  // ---------------------------------------------------------------------------
  // All groups
  // ---------------------------------------------------------------------------

  /** The denominators of every formula are non-zero. */
  predicate Defined(c: Counters)
  {
    TotalSlots(c) != 0.0 && c.numCycles != 0.0 &&
    Mispredicts(c) + c.memOrderViolationEvents != 0.0 &&
    ExecutionStalls(c) != 0.0 && MemoryBoundRaw(c) != 0.0
  }

  /** `TopDownStats`: each level-2 and level-3 group reads the CPU's level-1 and
      level-2 formulas. */
  function TopDownStats(c: Counters): Stats
    requires Defined(c)
  {
    var l1 := TopDownL1(c);
    var bbL2 := TopDownBackendBoundL2(c, l1);
    Stats(l1, TopDownFrontendBoundL2(c, l1), TopDownBadSpeculationL2(c, l1), bbL2, TopDownBackendBoundL3(c, bbL2))
  }

  /** The leaves of the tree, the level-2 shares of frontend bound and bad
      speculation, the core bound, the five level-3 memory shares and
      retiring, together account for every slot. */
  lemma LeavesPartitionSlots(c: Counters)
    requires Defined(c)
    ensures var s := TopDownStats(c);
      s.fbL2.fetchLatency + s.fbL2.fetchBandwidth +
      s.bsL2.branchMissPredicts + s.bsL2.machineClears +
      s.bbMem.l1Bound + s.bbMem.l2Bound + s.bbMem.l3Bound + s.bbMem.extMemBound + s.bbMem.storeBound +
      s.bbL2.coreBound +
      s.l1.retiring == 1.0
  {
    var s := TopDownStats(c);
    assert s.fbL2.fetchLatency + s.fbL2.fetchBandwidth == s.l1.frontendBound;
    assert s.bsL2.branchMissPredicts + s.bsL2.machineClears == s.l1.badSpeculation;
    assert s.bbMem.l1Bound + s.bbMem.l2Bound + s.bbMem.l3Bound + s.bbMem.extMemBound + s.bbMem.storeBound == s.bbL2.memoryBound;
    assert s.bbL2.memoryBound + s.bbL2.coreBound == s.l1.backendBound;
  }
}
