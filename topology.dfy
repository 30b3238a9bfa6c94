/**
 * The validation and attachment logic of `build` in
 * configs/example/arm/arm_multicore_d9300.py, with the `cpu_types` table it
 * reads: the big, middle and little clusters are created for the tiers that
 * have CPUs, their memory modes are checked against each other, the CPUs
 * are flattened into one list, the Gemmini accelerator is tied to one CPU of
 * that list, and the NPU and Gemmini DMA ports go behind the system-level cache
 * when there is one.
 *
 * A cluster class's `memory_mode()` comes from `devices.py`, which is not part
 * of this model: it is the parameter `modeOf`. Whether `system.addCaches`
 * created a `toSLCBus` is the parameter `hasSlcBus`.
 */
module Topology {
  import opened Wrappers
  import opened Strings

  // ---------------------------------------------------------------------------
  // The cpu_types table
  // ---------------------------------------------------------------------------

  datatype ClusterModel =
    | AtomicCluster | BigCluster | LittleCluster
    | X4BigCluster | X4MiddleCluster | A720LittleCluster
    | KvmCluster | FastmodelCluster

  datatype MemMode = Atomic | Timing | AtomicNoncaching

  /** A `cpu_types` value: the source lists three models for some CPU types and two for others. */
  datatype CpuTypeEntry =
    | Three(big: ClusterModel, middle: ClusterModel, little: ClusterModel)
    | Two(first: ClusterModel, second: ClusterModel)

  /** Which optional models gem5 was built with (`devices.have_kvm`, `devices.have_fastmodel`). */
  datatype Features = Features(haveKvm: bool, haveFastmodel: bool)

  /** `cpu_types[name]`, `None` when `name` is not a key (the choices `--cpu-type` accepts). */
  function CpuTypes(f: Features, name: string): (r: Option<CpuTypeEntry>)
    ensures r.Some? <==> name in CpuTypeNames(f)
    ensures name == "atomic" ==> r == Some(Three(AtomicCluster, AtomicCluster, AtomicCluster))
    ensures name == "D9300" ==> r == Some(Three(X4BigCluster, X4MiddleCluster, A720LittleCluster))
    ensures name == "timing" ==> r == Some(Two(BigCluster, LittleCluster))
    ensures name == "kvm" && f.haveKvm ==> r == Some(Two(KvmCluster, KvmCluster))
    ensures name == "fastmodel" && f.haveFastmodel ==> r == Some(Two(FastmodelCluster, FastmodelCluster))
    ensures r.Some? ==> (r.value.Two? <==> name in {"timing", "kvm", "fastmodel"})
  {
    if name == "atomic" then Some(Three(AtomicCluster, AtomicCluster, AtomicCluster))
    else if name == "timing" then Some(Two(BigCluster, LittleCluster))
    else if name == "D9300" then Some(Three(X4BigCluster, X4MiddleCluster, A720LittleCluster))
    else if name == "kvm" && f.haveKvm then Some(Two(KvmCluster, KvmCluster))
    else if name == "fastmodel" && f.haveFastmodel then Some(Two(FastmodelCluster, FastmodelCluster))
    else None
  }

  function CpuTypeNames(f: Features): set<string>
  {
    {"atomic", "timing", "D9300"} + (if f.haveKvm then {"kvm"} else {}) + (if f.haveFastmodel then {"fastmodel"} else {})
  }

  // ---------------------------------------------------------------------------
  // Options, system objects and outcomes
  // ---------------------------------------------------------------------------

  /** The options `build` reads for the checks modelled here. `enableGemmini` and
      `enableNpu` are `getattr(options, …, False)`. */
  datatype BuildOptions = BuildOptions(
    cpuType: string,
    bigCpus: int, middleCpus: int, littleCpus: int,
    bigClock: string, middleClock: string, littleClock: string,
    enableGemmini: bool, gemminiCpuIdx: int,
    gemminiCtrlAddr: int, gemminiCtrlSize: int,
    gemminiDataAddr: int, gemminiDataSize: int,
    gemminiMaxRsze: int, gemminiMaxReqs: int,
    enableNpu: bool, npuPioAddr: int, npuPioSize: int)

  datatype Tier = Big | Middle | Little

  /** CPU `index` of the cluster of `tier`. */
  datatype Cpu = Cpu(tier: Tier, index: nat)

  datatype Cluster = Cluster(model: ClusterModel, numCpus: nat, clock: string, cpus: seq<Cpu>)

  /** The port a device's port is bound to. */
  datatype BusPort = IoBusMemSide | SlcBusCpuSide | MemBusCpuSide

  /** `GemminiDevA(ndp_ctrl=…, ndp_data=…, max_rsze=…, max_reqs=…)` with its DMA port. */
  datatype GemminiDev = GemminiDev(
    ctrl: (int, int), data: (int, int), maxRsze: int, maxReqs: int, dmaPort: Option<BusPort>)

  datatype Npu = Npu(pioAddr: int, pioSize: int, pio: BusPort, dma: BusPort)

  /** How `build` ends: it returns the root, `m5.util.panic` stops it, or Python
      raises an exception (a key `--cpu-type` cannot name, the `ValueError` of
      unpacking a two-entry `cpu_types` value into three, or the
      `AttributeError` of reading a cluster that was never created). */
  datatype BuildOutcome =
    | Built
    | Panic(reason: PanicReason)
    | UnknownCpuType
    | UnpackError
    | MissingCluster(name: string)

  /** The `m5.util.panic` calls of `build`, each shown with its message by `PanicMessage`. */
  datatype PanicReason =
    | EmptyClusters
    | ModeMismatchPanic
    | NoGemminiCpus
    | InvalidGemminiIdx(idx: int, len: nat)

  function PanicMessage(p: PanicReason): string
  {
    match p
    case EmptyClusters => "Empty CPU clusters"
    case ModeMismatchPanic => "Memory mode missmatch among CPU clusters"
    case NoGemminiCpus => "GemminiDevA requested but no CPUs were created."
    case InvalidGemminiIdx(idx, len) =>
      "Invalid --gemmini-cpu-idx=" + FormatInt(idx) + "; valid range is 0.." + FormatInt(len - 1)
  }

  /** The `system` attributes `build` sets, as far as this model follows them. */
  datatype SystemState = SystemState(
    bigCluster: Option<Cluster>, middleCluster: Option<Cluster>, littleCluster: Option<Cluster>,
    memMode: Option<MemMode>,
    gemmini: Option<GemminiDev>, kvmVm: bool, npu: Option<Npu>)

  /** What `build` leaves behind: its outcome, the system as it stands when it
      returns or stops, `all_cpus`, and `options.gemmini_cpu`. */
  datatype BuildResult = BuildResult(outcome: BuildOutcome, sys: SystemState, allCpus: seq<Cpu>, gemminiCpu: Option<Cpu>)

  function EmptySystem(): SystemState
  {
    SystemState(None, None, None, None, None, false, None)
  }

  function ClusterCpus(tier: Tier, n: nat): (r: seq<Cpu>)
    ensures |r| == n && forall i :: 0 <= i < n ==> r[i] == Cpu(tier, i)
  {
    seq(n, i requires 0 <= i < n => Cpu(tier, i))
  }

  /** `model(system, num_cpus, clock)`: a cluster of `n` CPUs. */
  function MakeCluster(model: ClusterModel, tier: Tier, n: nat, clock: string): Cluster
  {
    Cluster(model, n, clock, ClusterCpus(tier, n))
  }

  function DmaTarget(hasSlcBus: bool): BusPort
  {
    if hasSlcBus then SlcBusCpuSide else MemBusCpuSide
  }

  // ---------------------------------------------------------------------------
  // Specification of build
  // ---------------------------------------------------------------------------

  /** The memory-mode test of lines 597-605, with Python's precedence: the
      three-tier comparison, `or` the big/little comparison, which reads both
      clusters whether or not they were created. */
  function ModeCheck(sys: SystemState, o: BuildOptions, modeOf: ClusterModel -> MemMode): (r: Result<bool, BuildOutcome>)
  {
    var left := o.bigCpus > 0 && o.middleCpus > 0 && o.littleCpus > 0 &&
      sys.bigCluster.Some? && sys.middleCluster.Some? &&
      modeOf(sys.bigCluster.value.model) != modeOf(sys.middleCluster.value.model);
    if left then Ok(true)
    else if sys.bigCluster.None? then Err(MissingCluster("bigCluster"))
    else if sys.littleCluster.None? then Err(MissingCluster("littleCluster"))
    else Ok(modeOf(sys.bigCluster.value.model) != modeOf(sys.littleCluster.value.model))
  }

  /** The clusters lines 571-594 create for a three-model entry, `system.mem_mode`
      as the last of them sets it, and `all_cpus`. */
  function ClustersSpec(o: BuildOptions, e: CpuTypeEntry, modeOf: ClusterModel -> MemMode): (SystemState, seq<Cpu>)
    requires e.Three?
  {
    var big := if o.bigCpus > 0 then Some(MakeCluster(e.big, Big, o.bigCpus, o.bigClock)) else None;
    var middle := if o.middleCpus > 0 then Some(MakeCluster(e.middle, Middle, o.middleCpus, o.middleClock)) else None;
    var little := if o.littleCpus > 0 then Some(MakeCluster(e.little, Little, o.littleCpus, o.littleClock)) else None;
    var memMode :=
      if little.Some? then Some(modeOf(e.little))
      else if middle.Some? then Some(modeOf(e.middle))
      else if big.Some? then Some(modeOf(e.big))
      else None;
    var allCpus := (if big.Some? then big.value.cpus else []) + (if middle.Some? then middle.value.cpus else [])
      + (if little.Some? then little.value.cpus else []);
    (SystemState(big, middle, little, memMode, None, false, None), allCpus)
  }

  /** Lines 608-634 and 656-680: the accelerator and the NPU, once the clusters passed the checks. */
  function DevicesSpec(o: BuildOptions, bigModel: ClusterModel, hasSlcBus: bool, sys: SystemState, allCpus: seq<Cpu>): BuildResult
  {
    if o.enableGemmini && allCpus == [] then BuildResult(Panic(NoGemminiCpus), sys, allCpus, None)
    else if o.enableGemmini && (o.gemminiCpuIdx < 0 || o.gemminiCpuIdx >= |allCpus|) then
      BuildResult(Panic(InvalidGemminiIdx(o.gemminiCpuIdx, |allCpus|)), sys, allCpus, None)
    else
      var gem := if o.enableGemmini then
        Some(GemminiDev((o.gemminiCtrlAddr, o.gemminiCtrlAddr + o.gemminiCtrlSize),
                        (o.gemminiDataAddr, o.gemminiDataAddr + o.gemminiDataSize),
                        o.gemminiMaxRsze, o.gemminiMaxReqs, Some(DmaTarget(hasSlcBus))))
        else None;
      var gemCpu := if o.enableGemmini then Some(allCpus[o.gemminiCpuIdx]) else None;
      var npu := if o.enableNpu then Some(Npu(o.npuPioAddr, o.npuPioSize, IoBusMemSide, DmaTarget(hasSlcBus))) else None;
      BuildResult(Built, sys.(gemmini := gem, kvmVm := bigModel == KvmCluster, npu := npu), allCpus, gemCpu)
  }

  /** `build(options)` from the checks on, on a system that has none of these attributes yet. */
  function BuildSpec(o: BuildOptions, f: Features, modeOf: ClusterModel -> MemMode, hasSlcBus: bool): BuildResult
  {
    if o.bigCpus + o.middleCpus + o.littleCpus == 0 then BuildResult(Panic(EmptyClusters), EmptySystem(), [], None)
    else match CpuTypes(f, o.cpuType)
    case None => BuildResult(UnknownCpuType, EmptySystem(), [], None)
    case Some(Two(_, _)) => BuildResult(UnpackError, EmptySystem(), [], None)
    case Some(e) =>
      var (sys, allCpus) := ClustersSpec(o, e, modeOf);
      match ModeCheck(sys, o, modeOf)
      case Err(err) => BuildResult(err, sys, allCpus, None)
      case Ok(true) => BuildResult(Panic(ModeMismatchPanic), sys, allCpus, None)
      case Ok(false) => DevicesSpec(o, e.big, hasSlcBus, sys, allCpus)
  }

  // ---------------------------------------------------------------------------
  // build, on the system object it fills in
  // ---------------------------------------------------------------------------

  class System {
    var bigCluster: Option<Cluster>
    var middleCluster: Option<Cluster>
    var littleCluster: Option<Cluster>
    var memMode: Option<MemMode>
    var gemminiDev: Option<GemminiDev>
    var kvmVm: bool
    var npu: Option<Npu>

    /** The system returned by `createSystem`, before `build` adds clusters and devices. */
    constructor()
      ensures State() == EmptySystem()
    {
      bigCluster, middleCluster, littleCluster := None, None, None;
      memMode, gemminiDev, kvmVm, npu := None, None, false, None;
    }

    function State(): SystemState
      reads this
    {
      SystemState(bigCluster, middleCluster, littleCluster, memMode, gemminiDev, kvmVm, npu)
    }

    /** The checks and attachments of `build(options)`: it stops at the first
        panic or exception, with the system as it stands at that point. */
    method Build(o: BuildOptions, f: Features, modeOf: ClusterModel -> MemMode, hasSlcBus: bool)
      returns (outcome: BuildOutcome, allCpus: seq<Cpu>, gemminiCpu: Option<Cpu>)
      requires State() == EmptySystem()
      modifies this
      ensures BuildResult(outcome, State(), allCpus, gemminiCpu) == BuildSpec(o, f, modeOf, hasSlcBus)
    {
      allCpus, gemminiCpu := [], None;
      if o.bigCpus + o.middleCpus + o.littleCpus == 0 {
        return Panic(EmptyClusters), allCpus, gemminiCpu;
      }
      var entry := CpuTypes(f, o.cpuType);
      if entry.None? {
        return UnknownCpuType, allCpus, gemminiCpu;
      }
      if entry.value.Two? {
        return UnpackError, allCpus, gemminiCpu;
      }
      allCpus := CreateClusters(o, entry.value, modeOf);
      var mismatch: bool;
      if o.bigCpus > 0 && o.middleCpus > 0 && o.littleCpus > 0 &&
         modeOf(bigCluster.value.model) != modeOf(middleCluster.value.model) {
        mismatch := true;
      } else if bigCluster.None? {
        return MissingCluster("bigCluster"), allCpus, gemminiCpu;
      } else if littleCluster.None? {
        return MissingCluster("littleCluster"), allCpus, gemminiCpu;
      } else {
        mismatch := modeOf(bigCluster.value.model) != modeOf(littleCluster.value.model);
      }
      if mismatch {
        return Panic(ModeMismatchPanic), allCpus, gemminiCpu;
      }
      outcome, gemminiCpu := AttachDevices(o, entry.value.big, hasSlcBus, allCpus);
    }

    /** Lines 571-594: one cluster per populated tier, each setting `system.mem_mode`
        in turn and adding its CPUs to `all_cpus`. */
    method CreateClusters(o: BuildOptions, e: CpuTypeEntry, modeOf: ClusterModel -> MemMode) returns (allCpus: seq<Cpu>)
      requires e.Three? && State() == EmptySystem()
      modifies this
      ensures (State(), allCpus) == ClustersSpec(o, e, modeOf)
    {
      allCpus := [];
      if o.bigCpus > 0 {
        bigCluster := Some(MakeCluster(e.big, Big, o.bigCpus, o.bigClock));
        memMode := Some(modeOf(bigCluster.value.model));
        allCpus := allCpus + bigCluster.value.cpus;
      }
      if o.middleCpus > 0 {
        middleCluster := Some(MakeCluster(e.middle, Middle, o.middleCpus, o.middleClock));
        memMode := Some(modeOf(middleCluster.value.model));
        allCpus := allCpus + middleCluster.value.cpus;
      }
      if o.littleCpus > 0 {
        littleCluster := Some(MakeCluster(e.little, Little, o.littleCpus, o.littleClock));
        memMode := Some(modeOf(littleCluster.value.model));
        allCpus := allCpus + littleCluster.value.cpus;
      }
      ghost var b := if bigCluster.Some? then bigCluster.value.cpus else [];
      ghost var m := if middleCluster.Some? then middleCluster.value.cpus else [];
      ghost var l := if littleCluster.Some? then littleCluster.value.cpus else [];
      assert allCpus == [] + b + m + l;
      assert [] + b + m + l == b + m + l;
    }

    /** Lines 608-634, 700-702 and 656-680: the accelerator and its CPU, the KVM
        VM for a KVM big cluster, the NPU, and the DMA ports. */
    method AttachDevices(o: BuildOptions, bigModel: ClusterModel, hasSlcBus: bool, allCpus: seq<Cpu>)
      returns (outcome: BuildOutcome, gemminiCpu: Option<Cpu>)
      requires gemminiDev.None? && !kvmVm && npu.None?
      modifies this
      ensures BuildResult(outcome, State(), allCpus, gemminiCpu) == DevicesSpec(o, bigModel, hasSlcBus, old(State()), allCpus)
    {
      gemminiCpu := None;
      if o.enableGemmini {
        if allCpus == [] {
          return Panic(NoGemminiCpus), gemminiCpu;
        }
        var cpuIdx := o.gemminiCpuIdx;
        if cpuIdx < 0 || cpuIdx >= |allCpus| {
          return Panic(InvalidGemminiIdx(cpuIdx, |allCpus|)), gemminiCpu;
        }
        gemminiDev := Some(GemminiDev(
          (o.gemminiCtrlAddr, o.gemminiCtrlAddr + o.gemminiCtrlSize),
          (o.gemminiDataAddr, o.gemminiDataAddr + o.gemminiDataSize),
          o.gemminiMaxRsze, o.gemminiMaxReqs, None));
        gemminiCpu := Some(allCpus[cpuIdx]);
      }
      if bigModel == KvmCluster {
        kvmVm := true;
      }
      if o.enableNpu {
        npu := Some(Npu(o.npuPioAddr, o.npuPioSize, IoBusMemSide, if hasSlcBus then SlcBusCpuSide else MemBusCpuSide));
      }
      if o.enableGemmini {
        gemminiDev := Some(gemminiDev.value.(dmaPort := Some(if hasSlcBus then SlcBusCpuSide else MemBusCpuSide)));
      }
      outcome := Built;
    }
  }

  // ---------------------------------------------------------------------------
  // What build promises
  // ---------------------------------------------------------------------------

  /** With no CPUs in any tier `build` panics before it creates any cluster. */
  lemma EmptyClustersPanic(o: BuildOptions, f: Features, modeOf: ClusterModel -> MemMode, hasSlcBus: bool)
    ensures var r := BuildSpec(o, f, modeOf, hasSlcBus);
      (o.bigCpus + o.middleCpus + o.littleCpus == 0 <==> r.outcome == Panic(EmptyClusters)) &&
      (o.bigCpus + o.middleCpus + o.littleCpus == 0 ==> r.sys == EmptySystem() && r.allCpus == [])
  {
  }

  /** Every CPU type whose `cpu_types` value has two entries, the default
      "timing" among them, fails at the three-way unpack of line 569. */
  lemma TwoEntryTypesFail(o: BuildOptions, f: Features, modeOf: ClusterModel -> MemMode, hasSlcBus: bool)
    requires o.bigCpus + o.middleCpus + o.littleCpus != 0
    requires o.cpuType == "timing" || (o.cpuType == "kvm" && f.haveKvm) || (o.cpuType == "fastmodel" && f.haveFastmodel)
    ensures BuildSpec(o, f, modeOf, hasSlcBus).outcome == UnpackError
    ensures BuildSpec(o, f, modeOf, hasSlcBus).sys == EmptySystem()
  {
    assert CpuTypes(f, o.cpuType).Some? && CpuTypes(f, o.cpuType).value.Two?;
  }

  /** `build` only gets past the memory-mode test when both the big and the
      little cluster exist: with either tier empty, the test reads a cluster that
      was never created (the three-tier comparison, which could have fired
      first, needs all three tiers). */
  lemma BuiltNeedsBigAndLittle(o: BuildOptions, f: Features, modeOf: ClusterModel -> MemMode, hasSlcBus: bool)
    requires CpuTypes(f, o.cpuType).Some? && CpuTypes(f, o.cpuType).value.Three?
    requires o.bigCpus + o.middleCpus + o.littleCpus != 0
    ensures var r := BuildSpec(o, f, modeOf, hasSlcBus);
      (o.bigCpus <= 0 ==> r.outcome == MissingCluster("bigCluster")) &&
      (o.bigCpus > 0 && o.littleCpus <= 0 ==> r.outcome == MissingCluster("littleCluster"))
  {
  }

  /**
   * With the big and little clusters created, `build` panics on the memory modes
   * exactly when (all three tiers are populated and big differs from middle) or
   * big differs from little; when it does not, every created cluster has the same
   * mode, and `system.mem_mode` is that mode.
   */
  lemma ModeMismatch(o: BuildOptions, f: Features, modeOf: ClusterModel -> MemMode, hasSlcBus: bool)
    requires CpuTypes(f, o.cpuType).Some? && CpuTypes(f, o.cpuType).value.Three?
    requires o.bigCpus > 0 && o.littleCpus > 0 && o.bigCpus + o.middleCpus + o.littleCpus != 0
    ensures var r := BuildSpec(o, f, modeOf, hasSlcBus);
      var e := CpuTypes(f, o.cpuType).value;
      && (r.outcome == Panic(ModeMismatchPanic) <==>
           (o.middleCpus > 0 && modeOf(e.big) != modeOf(e.middle)) || modeOf(e.big) != modeOf(e.little))
      && (r.outcome != Panic(ModeMismatchPanic) ==>
           r.sys.memMode == Some(modeOf(e.big)) && modeOf(e.little) == modeOf(e.big) &&
           (o.middleCpus > 0 ==> modeOf(e.middle) == modeOf(e.big)))
  {
  }

  /** The number of CPUs a cluster option creates: none unless it is positive. */
  function Created(n: int): nat { if n > 0 then n else 0 }

  /** `all` holds `nb` big, then `nm` middle, then `nl` little CPUs, each tier
      numbered from 0. */
  predicate TierOrder(all: seq<Cpu>, nb: nat, nm: nat, nl: nat)
  {
    && |all| == nb + nm + nl
    && (forall i :: 0 <= i < nb ==> all[i] == Cpu(Big, i))
    && (forall i :: 0 <= i < nm ==> all[nb + i] == Cpu(Middle, i))
    && (forall i :: 0 <= i < nl ==> all[nb + nm + i] == Cpu(Little, i))
  }

  /** `all_cpus` is the big, then the middle, then the little CPUs, in cluster order. */
  lemma AllCpusOrder(o: BuildOptions, f: Features, modeOf: ClusterModel -> MemMode, hasSlcBus: bool)
    requires CpuTypes(f, o.cpuType).Some? && CpuTypes(f, o.cpuType).value.Three?
    requires o.bigCpus + o.middleCpus + o.littleCpus != 0
    ensures TierOrder(BuildSpec(o, f, modeOf, hasSlcBus).allCpus, Created(o.bigCpus), Created(o.middleCpus), Created(o.littleCpus))
  {
    BuildKeepsCpus(o, f, modeOf, hasSlcBus);
    ClustersCpus(o, CpuTypes(f, o.cpuType).value, modeOf);
    TiersInOrder(BuildSpec(o, f, modeOf, hasSlcBus).allCpus, Created(o.bigCpus), Created(o.middleCpus), Created(o.littleCpus));
  }

  lemma BuildKeepsCpus(o: BuildOptions, f: Features, modeOf: ClusterModel -> MemMode, hasSlcBus: bool)
    requires CpuTypes(f, o.cpuType).Some? && CpuTypes(f, o.cpuType).value.Three?
    requires o.bigCpus + o.middleCpus + o.littleCpus != 0
    ensures BuildSpec(o, f, modeOf, hasSlcBus).allCpus == ClustersSpec(o, CpuTypes(f, o.cpuType).value, modeOf).1
  {
    var e := CpuTypes(f, o.cpuType).value;
    var (sys, allCpus) := ClustersSpec(o, e, modeOf);
    assert DevicesSpec(o, e.big, hasSlcBus, sys, allCpus).allCpus == allCpus;
  }

  lemma ClustersCpus(o: BuildOptions, e: CpuTypeEntry, modeOf: ClusterModel -> MemMode)
    requires e.Three?
    ensures ClustersSpec(o, e, modeOf).1 ==
      ClusterCpus(Big, Created(o.bigCpus)) + ClusterCpus(Middle, Created(o.middleCpus)) + ClusterCpus(Little, Created(o.littleCpus))
  {
    assert ClusterCpus(Big, 0) == [] && ClusterCpus(Middle, 0) == [] && ClusterCpus(Little, 0) == [];
  }

  lemma TiersInOrder(all: seq<Cpu>, nb: nat, nm: nat, nl: nat)
    requires all == ClusterCpus(Big, nb) + ClusterCpus(Middle, nm) + ClusterCpus(Little, nl)
    ensures TierOrder(all, nb, nm, nl)
  {
  }

  /**
   * With the accelerator requested and the clusters accepted, `build` panics
   * exactly when `--gemmini-cpu-idx` lies outside `[0, len(all_cpus))`, naming
   * that index and length; otherwise the accelerator is tied to
   * `all_cpus[idx]`. The "no CPUs were created" panic can never fire: a build
   * that creates no CPU has already failed on the missing big cluster.
   */
  lemma GemminiCpuChoice(o: BuildOptions, f: Features, modeOf: ClusterModel -> MemMode, hasSlcBus: bool)
    requires o.enableGemmini
    ensures var r := BuildSpec(o, f, modeOf, hasSlcBus);
      && r.outcome != Panic(NoGemminiCpus)
      && (r.outcome == Built ==>
            0 <= o.gemminiCpuIdx < |r.allCpus| && r.gemminiCpu == Some(r.allCpus[o.gemminiCpuIdx]))
      && (r.outcome.Panic? && r.outcome.reason.InvalidGemminiIdx? ==>
            (o.gemminiCpuIdx < 0 || o.gemminiCpuIdx >= |r.allCpus|) &&
            r.outcome.reason == InvalidGemminiIdx(o.gemminiCpuIdx, |r.allCpus|))
  {
  }

  /** The accelerator's index check fires exactly for indices outside `[0, len(all_cpus))`. */
  lemma GemminiIndexChecked(o: BuildOptions, bigModel: ClusterModel, hasSlcBus: bool, sys: SystemState, allCpus: seq<Cpu>)
    requires o.enableGemmini && allCpus != []
    ensures var r := DevicesSpec(o, bigModel, hasSlcBus, sys, allCpus);
      (r.outcome == Built <==> 0 <= o.gemminiCpuIdx < |allCpus|) &&
      (r.outcome != Built ==> r.outcome == Panic(InvalidGemminiIdx(o.gemminiCpuIdx, |allCpus|)))
  {
  }

  /** The NPU's MMIO port is on the IO bus; the NPU's and the accelerator's DMA
      ports go to the SLC-side bus when the system has one and to the memory bus
      otherwise; the accelerator's windows are `(addr, addr + size)`. */
  lemma DeviceAttachment(o: BuildOptions, f: Features, modeOf: ClusterModel -> MemMode, hasSlcBus: bool)
    requires BuildSpec(o, f, modeOf, hasSlcBus).outcome == Built
    ensures var s := BuildSpec(o, f, modeOf, hasSlcBus).sys;
      && (s.npu.Some? <==> o.enableNpu)
      && (o.enableNpu ==>
            s.npu.value.pio == IoBusMemSide &&
            s.npu.value.dma == (if hasSlcBus then SlcBusCpuSide else MemBusCpuSide) &&
            s.npu.value.pioAddr == o.npuPioAddr && s.npu.value.pioSize == o.npuPioSize)
      && (s.gemmini.Some? <==> o.enableGemmini)
      && (o.enableGemmini ==>
            s.gemmini.value.dmaPort == Some(if hasSlcBus then SlcBusCpuSide else MemBusCpuSide) &&
            s.gemmini.value.ctrl == (o.gemminiCtrlAddr, o.gemminiCtrlAddr + o.gemminiCtrlSize) &&
            s.gemmini.value.data == (o.gemminiDataAddr, o.gemminiDataAddr + o.gemminiDataSize))
  {
  }

  /** `_build_kvm` is never reached from `build`: the only KVM entry of
      `cpu_types` has two models and fails at the unpack. */
  lemma KvmNeverBuilt(o: BuildOptions, f: Features, modeOf: ClusterModel -> MemMode, hasSlcBus: bool)
    ensures !BuildSpec(o, f, modeOf, hasSlcBus).sys.kvmVm
  {
    var e := CpuTypes(f, o.cpuType);
    if e.Some? && e.value.Three? {
      assert e.value.big != KvmCluster;
    }
  }
}
