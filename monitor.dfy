/**
 * `ArmO3CPUWithMonitor` of configs/common/cores/arm/O3_ARM_Monitor.py: a CPU
 * whose cache ports are either bound directly or spliced through a
 * `CommMonitor`, and the list `_cached_ports` of the ports a later
 * `connectCachedPorts` binds to the next level.
 *
 * Ports are named by role instead of by the strings the source hands to
 * `exec`, and a binding `a = b` is recorded as `Bind(a, b)` in the order the
 * source makes them.
 */
module Monitor {
  import opened Wrappers

  /** The cache slots of the CPU: `icache`, `dcache`, `itb_walker_cache`, `dtb_walker_cache`. */
  datatype CacheSlot = ICacheSlot | DCacheSlot | ItbWalkerSlot | DtbWalkerSlot

  /** The object a monitor is stored on (`owner`): the CPU itself or one of its caches. */
  datatype Owner = CpuOwner | CacheOwner(slot: CacheSlot)

  /** `owner.<name>`. */
  datatype MonitorId = MonitorId(owner: Owner, name: string)

  datatype PortRef =
    | CpuIcachePort                  // self.icache_port
    | CpuDcachePort                  // self.dcache_port
    | CacheCpuSide(slot: CacheSlot)   // <cache>.cpu_side
    | CacheMemSide(slot: CacheSlot)   // <cache>.mem_side
    | MonitorCpuSide(id: MonitorId)   // <monitor>.cpu_side_port
    | MonitorMemSide(id: MonitorId)   // <monitor>.mem_side_port
    | WalkerPort(path: string)        // self.<path> for a path of ArchMMU.walkerPorts()
    | CheckerWalkerPort(path: string) // self.checker.<path>
    | Peer(name: string)              // a port handed in by the caller (`in_ports`)

  datatype Binding = Bind(a: PortRef, b: PortRef)

  /** An entry of `_cached_ports`. */
  datatype CachedPort =
    | ICacheMemSide
    | DCacheMemSide
    | ItbWalkerCacheMemSide
    | DtbWalkerCacheMemSide
    | MmuWalker(path: string)
    | CheckerMmuWalker(path: string)

  /** The port an entry of `_cached_ports` names. */
  function PortOf(p: CachedPort): PortRef
  {
    match p
    case ICacheMemSide => CacheMemSide(ICacheSlot)
    case DCacheMemSide => CacheMemSide(DCacheSlot)
    case ItbWalkerCacheMemSide => CacheMemSide(ItbWalkerSlot)
    case DtbWalkerCacheMemSide => CacheMemSide(DtbWalkerSlot)
    case MmuWalker(path) => WalkerPort(path)
    case CheckerMmuWalker(path) => CheckerWalkerPort(path)
  }

  /** A `CommMonitor()`; `footprint` says whether it carries a `MemFootprintProbe`. */
  datatype CommMonitor = CommMonitor(footprint: bool)

  /** The options record, `None` when `options` is `None`; a field is `None`
      when the record has no such attribute. */
  datatype MonitorOptions = MonitorOptions(l1Monitor: Option<bool>, cpuMonitor: Option<bool>)

  /** `getattr(options, "l1_monitor", False)`. */
  function L1MonitorFlag(options: Option<MonitorOptions>): bool
  {
    options.Some? && options.value.l1Monitor.Some? && options.value.l1Monitor.value
  }

  /** `getattr(options, "cpu_monitor", False)`. */
  function CpuMonitorFlag(options: Option<MonitorOptions>): bool
  {
    options.Some? && options.value.cpuMonitor.Some? && options.value.cpuMonitor.value
  }

  /** A cache object handed to `addPrivateSplitL1Caches`. */
  datatype Cache = Cache(name: string)

  // ---------------------------------------------------------------------------
  // Specification functions
  // ---------------------------------------------------------------------------

  /** The bindings `connectMayWithMonitor(owner, mem_side, cpu_side, withMonitor, name)` makes. */
  function SpliceBindings(owner: Owner, memSide: PortRef, cpuSide: PortRef, withMonitor: bool, name: string): seq<Binding>
  {
    if withMonitor then
      var id := MonitorId(owner, name);
      [Bind(MonitorMemSide(id), cpuSide), Bind(memSide, MonitorCpuSide(id))]
    else [Bind(memSide, cpuSide)]
  }

  /** The monitors after that call. */
  function SpliceMonitors(m: map<MonitorId, CommMonitor>, owner: Owner, withMonitor: bool, name: string): map<MonitorId, CommMonitor>
  {
    if withMonitor then m[MonitorId(owner, name) := CommMonitor(true)] else m
  }

  /** The owner `connectCachedPorts` stores an L1 monitor on, for the two entries it may splice. */
  function L1Owner(p: CachedPort): Owner
    requires p == ICacheMemSide || p == DCacheMemSide
  {
    if p == ICacheMemSide then CacheOwner(ICacheSlot) else CacheOwner(DCacheSlot)
  }

  /** What one turn of `connectCachedPorts`' loop binds for the entry `p`. */
  function CachedPortBindings(p: CachedPort, inPorts: PortRef, l1Monitor: bool): seq<Binding>
  {
    if p == ICacheMemSide || p == DCacheMemSide then SpliceBindings(L1Owner(p), PortOf(p), inPorts, l1Monitor, "monitor")
    else [Bind(PortOf(p), inPorts)]
  }

  /** The bindings of `connectCachedPorts` over the entries `ps`, in loop order. */
  function CachedBindings(ps: seq<CachedPort>, inPorts: PortRef, l1Monitor: bool): seq<Binding>
    decreases |ps|
  {
    if ps == [] then []
    else CachedBindings(ps[..|ps| - 1], inPorts, l1Monitor) + CachedPortBindings(ps[|ps| - 1], inPorts, l1Monitor)
  }

  function CachedMonitors(m: map<MonitorId, CommMonitor>, ps: seq<CachedPort>, l1Monitor: bool): map<MonitorId, CommMonitor>
    decreases |ps|
  {
    if ps == [] then m
    else
      var p := ps[|ps| - 1];
      var m' := CachedMonitors(m, ps[..|ps| - 1], l1Monitor);
      if p == ICacheMemSide || p == DCacheMemSide then SpliceMonitors(m', L1Owner(p), l1Monitor, "monitor") else m'
  }

  /** One more entry of `_cached_ports` adds its own bindings and monitor. */
  lemma CachedStep(ps: seq<CachedPort>, i: nat, inPorts: PortRef, l1Monitor: bool, m: map<MonitorId, CommMonitor>)
    requires i < |ps|
    ensures CachedBindings(ps[..i + 1], inPorts, l1Monitor) ==
      CachedBindings(ps[..i], inPorts, l1Monitor) + CachedPortBindings(ps[i], inPorts, l1Monitor)
    ensures CachedMonitors(m, ps[..i + 1], l1Monitor) ==
      var m' := CachedMonitors(m, ps[..i], l1Monitor);
      if ps[i] == ICacheMemSide || ps[i] == DCacheMemSide then SpliceMonitors(m', L1Owner(ps[i]), l1Monitor, "monitor") else m'
  {
    assert ps[..i + 1][..i] == ps[..i];
  }

  /** `_cached_ports` as `addPrivateSplitL1Caches` builds it. */
  function CachedPortsSpec(walkerCaches: bool, walkerPorts: seq<string>, hasChecker: bool): seq<CachedPort>
  {
    [ICacheMemSide, DCacheMemSide] +
    (if walkerCaches then [ItbWalkerCacheMemSide, DtbWalkerCacheMemSide] else MmuWalkers(walkerPorts)) +
    (if hasChecker then CheckerWalkers(walkerPorts) else [])
  }

  function MmuWalkers(paths: seq<string>): (r: seq<CachedPort>)
    ensures |r| == |paths| && forall i :: 0 <= i < |paths| ==> r[i] == MmuWalker(paths[i])
  {
    seq(|paths|, i requires 0 <= i < |paths| => MmuWalker(paths[i]))
  }

  /** `["checker." + port for port in walkerPorts]`. */
  function CheckerWalkers(paths: seq<string>): (r: seq<CachedPort>)
    ensures |r| == |paths| && forall i :: 0 <= i < |paths| ==> r[i] == CheckerMmuWalker(paths[i])
  {
    seq(|paths|, i requires 0 <= i < |paths| => CheckerMmuWalker(paths[i]))
  }

  // ---------------------------------------------------------------------------
  // The CPU
  // ---------------------------------------------------------------------------

  class O3CpuWithMonitor {
    var icache: Option<Cache>
    var dcache: Option<Cache>
    var itbWalkerCache: Option<Cache>
    var dtbWalkerCache: Option<Cache>
    /** The monitors stored as `owner.<name>`. */
    var monitors: map<MonitorId, CommMonitor>
    /** Every port binding made so far, in order. */
    var bindings: seq<Binding>
    var cachedPorts: seq<CachedPort>
    /** The two ports `mmu.connectWalkerPorts` was called with, if it was. */
    var mmuWalkerLinks: Option<(PortRef, PortRef)>
    /** `self.checker != NULL`. */
    const hasChecker: bool
    /** `self.ArchMMU.walkerPorts()`. */
    const walkerPorts: seq<string>

    constructor(hasChecker: bool, walkerPorts: seq<string>)
      ensures this.hasChecker == hasChecker && this.walkerPorts == walkerPorts
      ensures icache.None? && dcache.None? && itbWalkerCache.None? && dtbWalkerCache.None?
      ensures monitors == map[] && bindings == [] && cachedPorts == [] && mmuWalkerLinks.None?
    {
      this.hasChecker := hasChecker;
      this.walkerPorts := walkerPorts;
      icache, dcache, itbWalkerCache, dtbWalkerCache := None, None, None, None;
      monitors, bindings, cachedPorts, mmuWalkerLinks := map[], [], [], None;
    }

    /** `connectMayWithMonitor`: bind `mem_side` to `cpu_side`, either directly or
        through a new monitor stored as `owner.<name>`. */
    method ConnectMayWithMonitor(owner: Owner, memSide: PortRef, cpuSide: PortRef, withMonitor: bool, name: string)
      modifies this
      ensures bindings == old(bindings) + SpliceBindings(owner, memSide, cpuSide, withMonitor, name)
      ensures monitors == SpliceMonitors(old(monitors), owner, withMonitor, name)
      ensures icache == old(icache) && dcache == old(dcache)
      ensures itbWalkerCache == old(itbWalkerCache) && dtbWalkerCache == old(dtbWalkerCache)
      ensures cachedPorts == old(cachedPorts) && mmuWalkerLinks == old(mmuWalkerLinks)
    {
      if withMonitor {
        var m := CommMonitor(false);
        m := m.(footprint := true);
        var id := MonitorId(owner, name);
        monitors := monitors[id := m];
        bindings := bindings + [Bind(MonitorMemSide(id), cpuSide)];
        bindings := bindings + [Bind(memSide, MonitorCpuSide(id))];
      } else {
        bindings := bindings + [Bind(memSide, cpuSide)];
      }
    }

    /** `connectCachedPorts(in_ports, options)`: every entry of `_cached_ports` is
        bound to `in_ports`; the L1 caches' memory sides through a monitor when
        `l1_monitor` is set. */
    method ConnectCachedPorts(inPorts: PortRef, options: Option<MonitorOptions>)
      modifies this
      ensures bindings == old(bindings) + CachedBindings(cachedPorts, inPorts, L1MonitorFlag(options))
      ensures monitors == CachedMonitors(old(monitors), cachedPorts, L1MonitorFlag(options))
      ensures icache == old(icache) && dcache == old(dcache)
      ensures itbWalkerCache == old(itbWalkerCache) && dtbWalkerCache == old(dtbWalkerCache)
      ensures cachedPorts == old(cachedPorts) && mmuWalkerLinks == old(mmuWalkerLinks)
    {
      var optL1Monitor := L1MonitorFlag(options);
      var i := 0;
      while i < |cachedPorts|
        invariant 0 <= i <= |cachedPorts| && cachedPorts == old(cachedPorts)
        invariant bindings == old(bindings) + CachedBindings(cachedPorts[..i], inPorts, optL1Monitor)
        invariant monitors == CachedMonitors(old(monitors), cachedPorts[..i], optL1Monitor)
        invariant icache == old(icache) && dcache == old(dcache)
        invariant itbWalkerCache == old(itbWalkerCache) && dtbWalkerCache == old(dtbWalkerCache)
        invariant mmuWalkerLinks == old(mmuWalkerLinks)
      {
        var p := cachedPorts[i];
        CachedStep(cachedPorts, i, inPorts, optL1Monitor, old(monitors));
        ghost var before := bindings;
        if p == ICacheMemSide {
          ConnectMayWithMonitor(CacheOwner(ICacheSlot), CacheMemSide(ICacheSlot), inPorts, optL1Monitor, "monitor");
        } else if p == DCacheMemSide {
          ConnectMayWithMonitor(CacheOwner(DCacheSlot), CacheMemSide(DCacheSlot), inPorts, optL1Monitor, "monitor");
        } else {
          bindings := bindings + [Bind(PortOf(p), inPorts)];
        }
        assert bindings == before + CachedPortBindings(p, inPorts, optL1Monitor);
        i := i + 1;
      }
      assert cachedPorts[..i] == cachedPorts;
    }

    /** `addPrivateSplitL1Caches(ic, dc, iwc, dwc, options)`. */
    method AddPrivateSplitL1Caches(ic: Cache, dc: Cache, iwc: Option<Cache>, dwc: Option<Cache>, options: Option<MonitorOptions>)
      modifies this
      ensures icache == Some(ic) && dcache == Some(dc)
      ensures var cpuMonitor := CpuMonitorFlag(options);
        bindings == old(bindings)
          + SpliceBindings(CpuOwner, CpuIcachePort, CacheCpuSide(ICacheSlot), cpuMonitor, "iportmonitor")
          + SpliceBindings(CpuOwner, CpuDcachePort, CacheCpuSide(DCacheSlot), cpuMonitor, "dportmonitor")
      ensures var cpuMonitor := CpuMonitorFlag(options);
        monitors == SpliceMonitors(SpliceMonitors(old(monitors), CpuOwner, cpuMonitor, "iportmonitor"),
                                   CpuOwner, cpuMonitor, "dportmonitor")
      ensures cachedPorts == CachedPortsSpec(iwc.Some? && dwc.Some?, walkerPorts, hasChecker)
      ensures if iwc.Some? && dwc.Some? then
          itbWalkerCache == iwc && dtbWalkerCache == dwc &&
          mmuWalkerLinks == Some((CacheCpuSide(ItbWalkerSlot), CacheCpuSide(DtbWalkerSlot)))
        else
          itbWalkerCache == old(itbWalkerCache) && dtbWalkerCache == old(dtbWalkerCache) &&
          mmuWalkerLinks == old(mmuWalkerLinks)
    {
      var optCpuMonitor := CpuMonitorFlag(options);
      icache := Some(ic);
      dcache := Some(dc);
      ConnectMayWithMonitor(CpuOwner, CpuIcachePort, CacheCpuSide(ICacheSlot), optCpuMonitor, "iportmonitor");
      ConnectMayWithMonitor(CpuOwner, CpuDcachePort, CacheCpuSide(DCacheSlot), optCpuMonitor, "dportmonitor");
      cachedPorts := [ICacheMemSide, DCacheMemSide];
      if iwc.Some? && dwc.Some? {
        itbWalkerCache := iwc;
        dtbWalkerCache := dwc;
        mmuWalkerLinks := Some((CacheCpuSide(ItbWalkerSlot), CacheCpuSide(DtbWalkerSlot)));
        cachedPorts := cachedPorts + [ItbWalkerCacheMemSide, DtbWalkerCacheMemSide];
      } else {
        cachedPorts := cachedPorts + MmuWalkers(walkerPorts);
      }
      if hasChecker {
        cachedPorts := cachedPorts + CheckerWalkers(walkerPorts);
      }
    }
  }

  // ---------------------------------------------------------------------------
  // What the splice promises
  // ---------------------------------------------------------------------------

  /** `a` reaches `b` in `bs`: bound directly, or through one monitor whose
      `cpu_side_port` is bound to `a` and whose `mem_side_port` is bound to `b`. */
  ghost predicate Reaches(bs: seq<Binding>, a: PortRef, b: PortRef)
  {
    Bind(a, b) in bs || exists id :: Bind(a, MonitorCpuSide(id)) in bs && Bind(MonitorMemSide(id), b) in bs
  }

  /**
   * Either way `mem_side` reaches `cpu_side`. With the monitor off the binding is
   * direct and no monitor appears; with it on the only path is through the one
   * new monitor `owner.<name>`, which carries a footprint probe, and the two are
   * no longer bound directly.
   */
  lemma SplicePreservesEndpoints(m: map<MonitorId, CommMonitor>, owner: Owner, memSide: PortRef, cpuSide: PortRef,
                                 withMonitor: bool, name: string)
    requires !memSide.MonitorCpuSide? && !memSide.MonitorMemSide? && !cpuSide.MonitorCpuSide? && !cpuSide.MonitorMemSide?
    ensures var bs := SpliceBindings(owner, memSide, cpuSide, withMonitor, name);
      var m' := SpliceMonitors(m, owner, withMonitor, name);
      && Reaches(bs, memSide, cpuSide)
      && (!withMonitor ==> bs == [Bind(memSide, cpuSide)] && m' == m)
      && (withMonitor ==>
            Bind(memSide, cpuSide) !in bs &&
            m'.Keys == m.Keys + {MonitorId(owner, name)} && m'[MonitorId(owner, name)].footprint &&
            (forall id :: Bind(memSide, MonitorCpuSide(id)) in bs ==> id == MonitorId(owner, name)) &&
            (forall id :: Bind(MonitorMemSide(id), cpuSide) in bs ==> id == MonitorId(owner, name)))
  {
    var bs := SpliceBindings(owner, memSide, cpuSide, withMonitor, name);
    if withMonitor {
      var id := MonitorId(owner, name);
      assert Bind(memSide, MonitorCpuSide(id)) in bs && Bind(MonitorMemSide(id), cpuSide) in bs;
    }
  }

  lemma {:induction false} CachedBindingsAppend(ps: seq<CachedPort>, qs: seq<CachedPort>, inPorts: PortRef, l1Monitor: bool)
    ensures CachedBindings(ps + qs, inPorts, l1Monitor) == CachedBindings(ps, inPorts, l1Monitor) + CachedBindings(qs, inPorts, l1Monitor)
    decreases |qs|
  {
    if qs == [] {
      assert ps + qs == ps;
    } else {
      var qs' := qs[..|qs| - 1];
      assert (ps + qs)[..|ps + qs| - 1] == ps + qs';
      assert (ps + qs)[|ps + qs| - 1] == qs[|qs| - 1];
      CachedBindingsAppend(ps, qs', inPorts, l1Monitor);
    }
  }

  /**
   * `connectCachedPorts` binds every entry of `_cached_ports` to `in_ports`; only
   * the L1 caches' memory sides may go through a monitor (and only with
   * `l1_monitor` set), every other entry is bound directly.
   */
  lemma {:induction false} CachedPortsReachInPorts(ps: seq<CachedPort>, inPorts: PortRef, l1Monitor: bool)
    requires !inPorts.MonitorCpuSide? && !inPorts.MonitorMemSide?
    ensures forall p :: p in ps ==> Reaches(CachedBindings(ps, inPorts, l1Monitor), PortOf(p), inPorts)
    ensures forall p :: p in ps && p != ICacheMemSide && p != DCacheMemSide ==>
      Bind(PortOf(p), inPorts) in CachedBindings(ps, inPorts, l1Monitor)
    ensures !l1Monitor ==> forall b: Binding :: b in CachedBindings(ps, inPorts, l1Monitor) ==>
      b.b == inPorts && exists p :: p in ps && b.a == PortOf(p)
    decreases |ps|
  {
    if ps != [] {
      var init := ps[..|ps| - 1];
      var last := ps[|ps| - 1];
      CachedPortsReachInPorts(init, inPorts, l1Monitor);
      var bi := CachedBindings(init, inPorts, l1Monitor);
      var bl := CachedPortBindings(last, inPorts, l1Monitor);
      assert ps == init + [last];
      forall p | p in ps ensures Reaches(bi + bl, PortOf(p), inPorts) {
        if p in init {
          if Bind(PortOf(p), inPorts) in bi {
          } else {
            var id :| Bind(PortOf(p), MonitorCpuSide(id)) in bi && Bind(MonitorMemSide(id), inPorts) in bi;
            assert Bind(PortOf(p), MonitorCpuSide(id)) in bi + bl;
          }
        } else {
          assert p == last;
          if last == ICacheMemSide || last == DCacheMemSide {
            SplicePreservesEndpoints(map[], L1Owner(last), PortOf(last), inPorts, l1Monitor, "monitor");
            if Bind(PortOf(p), inPorts) !in bl {
              var id :| Bind(PortOf(p), MonitorCpuSide(id)) in bl && Bind(MonitorMemSide(id), inPorts) in bl;
              assert Bind(PortOf(p), MonitorCpuSide(id)) in bi + bl;
            }
          }
        }
      }
      if !l1Monitor {
        forall b: Binding | b in bi + bl ensures b.b == inPorts && exists p :: p in ps && b.a == PortOf(p) {
          if b in bi {
            var p :| p in init && b.a == PortOf(p);
            assert p in ps;
          } else {
            assert b == Bind(PortOf(last), inPorts);
            assert last in ps;
          }
        }
      }
    }
  }

  /** `_cached_ports` starts with the two L1 memory sides; it holds the walker
      caches' memory sides exactly when both walker caches are given and the MMU
      walker ports otherwise; it holds the checker's walker ports exactly when
      there is a checker. */
  lemma CachedPortsContents(walkerCaches: bool, walkerPorts: seq<string>, hasChecker: bool)
    ensures var ps := CachedPortsSpec(walkerCaches, walkerPorts, hasChecker);
      && ps[..2] == [ICacheMemSide, DCacheMemSide]
      && (ItbWalkerCacheMemSide in ps <==> walkerCaches) && (DtbWalkerCacheMemSide in ps <==> walkerCaches)
      && (forall path :: MmuWalker(path) in ps <==> !walkerCaches && path in walkerPorts)
      && (forall path :: CheckerMmuWalker(path) in ps <==> hasChecker && path in walkerPorts)
      && |ps| == 2 + (if walkerCaches then 2 else |walkerPorts|) + (if hasChecker then |walkerPorts| else 0)
  {
    var mid := if walkerCaches then [ItbWalkerCacheMemSide, DtbWalkerCacheMemSide] else MmuWalkers(walkerPorts);
    var tail := if hasChecker then CheckerWalkers(walkerPorts) else [];
    var ps := CachedPortsSpec(walkerCaches, walkerPorts, hasChecker);
    assert ps == [ICacheMemSide, DCacheMemSide] + mid + tail;
    assert ps[..2] == [ICacheMemSide, DCacheMemSide];
    WalkersMembers(walkerPorts, []);
    InThree(ItbWalkerCacheMemSide, [ICacheMemSide, DCacheMemSide], mid, tail);
    InThree(DtbWalkerCacheMemSide, [ICacheMemSide, DCacheMemSide], mid, tail);
    forall path ensures MmuWalker(path) in ps <==> !walkerCaches && path in walkerPorts {
      WalkersMembers(walkerPorts, path);
      InThree(MmuWalker(path), [ICacheMemSide, DCacheMemSide], mid, tail);
    }
    forall path ensures CheckerMmuWalker(path) in ps <==> hasChecker && path in walkerPorts {
      WalkersMembers(walkerPorts, path);
      InThree(CheckerMmuWalker(path), [ICacheMemSide, DCacheMemSide], mid, tail);
    }
  }

  lemma InThree<T>(x: T, a: seq<T>, b: seq<T>, c: seq<T>)
    ensures x in a + b + c <==> x in a || x in b || x in c
  {
  }

  lemma WalkersMembers(paths: seq<string>, path: string)
    ensures MmuWalker(path) in MmuWalkers(paths) <==> path in paths
    ensures CheckerMmuWalker(path) in CheckerWalkers(paths) <==> path in paths
    ensures forall p :: p in MmuWalkers(paths) ==> p.MmuWalker?
    ensures forall p :: p in CheckerWalkers(paths) ==> p.CheckerMmuWalker?
  {
    if path in paths {
      var i :| 0 <= i < |paths| && paths[i] == path;
      assert MmuWalkers(paths)[i] == MmuWalker(path);
      assert CheckerWalkers(paths)[i] == CheckerMmuWalker(path);
    }
  }

  /** A missing `options`, or options without the attributes, turn every monitor off. */
  lemma MissingOptionsMeanNoMonitors(options: Option<MonitorOptions>)
    requires options.None? || (options.value.l1Monitor.None? && options.value.cpuMonitor.None?)
    ensures !L1MonitorFlag(options) && !CpuMonitorFlag(options)
  {
  }

  /** `cpu_monitor` splices both CPU-side ports or neither, under the names
      `iportmonitor` and `dportmonitor`. */
  lemma CpuMonitorsBoth(m: map<MonitorId, CommMonitor>, options: Option<MonitorOptions>)
    ensures var flag := CpuMonitorFlag(options);
      var m' := SpliceMonitors(SpliceMonitors(m, CpuOwner, flag, "iportmonitor"), CpuOwner, flag, "dportmonitor");
      (flag ==> MonitorId(CpuOwner, "iportmonitor") in m' && MonitorId(CpuOwner, "dportmonitor") in m') &&
      (!flag ==> m' == m)
  {
  }
}
