/**
 * Event-queue assignment of the simulation object tree in
 * configs/example/arm/arm_multicore_d9300.py: `_using_pdes` decides whether the
 * simulator runs with several parallel event queues, and `_build_kvm` gives
 * every KVM CPU an event queue of its own.
 */
module EventQueues {

  /** An object's `eventq_index`: a proxy (inherited from the parent) or a concrete queue. */
  datatype EventQ = Proxy | Queue(index: nat)

  /** A simulation object with its event queue and its children, in the order
      `descendants()` visits them. */
  datatype SimObj = SimObj(eventq: EventQ, children: seq<SimObj>)

  /** `obj.descendants()`: the object itself, then the descendants of each child in turn. */
  function Descendants(o: SimObj): (r: seq<SimObj>)
    ensures |r| >= 1 && r[0] == o
    decreases o, 1
  {
    [o] + DescendantsOfAll(o.children)
  }

  function DescendantsOfAll(cs: seq<SimObj>): seq<SimObj>
    decreases cs, 0
  {
    if cs == [] then [] else Descendants(cs[0]) + DescendantsOfAll(cs[1..])
  }

  /** The test inside `_using_pdes`'s loop: a concrete queue other than the root's. */
  predicate OwnQueue(obj: SimObj, rootQ: EventQ)
  {
    !obj.eventq.Proxy? && obj.eventq != rootQ
  }

  /** The loop of `_using_pdes` over `objs`, returning at the first object that has a queue of its own. */
  function AnyOwnQueue(objs: seq<SimObj>, rootQ: EventQ): bool
    decreases |objs|
  {
    if objs == [] then false
    else if OwnQueue(objs[0], rootQ) then true
    else AnyOwnQueue(objs[1..], rootQ)
  }

  /** `_using_pdes(root)`. */
  function UsingPdes(root: SimObj): bool
  {
    AnyOwnQueue(Descendants(root), root.eventq)
  }

  /** `_using_pdes` is true exactly when some descendant has a concrete queue different from the root's. */
  lemma {:induction false} AnyOwnQueueIff(objs: seq<SimObj>, rootQ: EventQ)
    ensures AnyOwnQueue(objs, rootQ) <==> exists i :: 0 <= i < |objs| && OwnQueue(objs[i], rootQ)
    decreases |objs|
  {
    if objs != [] {
      AnyOwnQueueIff(objs[1..], rootQ);
      if exists i :: 0 <= i < |objs| && OwnQueue(objs[i], rootQ) {
        var i :| 0 <= i < |objs| && OwnQueue(objs[i], rootQ);
        if i > 0 {
          assert objs[1..][i - 1] == objs[i];
        }
      }
      if exists i :: 0 <= i < |objs[1..]| && OwnQueue(objs[1..][i], rootQ) {
        var i :| 0 <= i < |objs[1..]| && OwnQueue(objs[1..][i], rootQ);
        assert objs[i + 1] == objs[1..][i];
      }
    }
  }

  lemma UsingPdesIff(root: SimObj)
    ensures UsingPdes(root) <==>
      exists i :: 0 <= i < |Descendants(root)| && OwnQueue(Descendants(root)[i], root.eventq)
  {
    assert UsingPdes(root) == AnyOwnQueue(Descendants(root), root.eventq);
    AnyOwnQueueIff(Descendants(root), root.eventq);
  }

  // ---------------------------------------------------------------------------
  // _build_kvm
  // ---------------------------------------------------------------------------

  /** The object and all its descendants after `obj.eventq_index = q` for each of them. */
  function SetQueueAll(o: SimObj, q: EventQ): (r: SimObj)
    ensures r.eventq == q && |r.children| == |o.children|
    decreases o
  {
    SimObj(q, seq(|o.children|, i requires 0 <= i < |o.children| => SetQueueAll(o.children[i], q)))
  }

  /** CPU `idx` after `_build_kvm`'s loop body: its descendants on the device queue 0,
      then the CPU itself on queue `1 + idx`. */
  function KvmCpu(cpu: SimObj, idx: nat): SimObj
  {
    SimObj(Queue(1 + idx), SetQueueAll(cpu, Queue(0)).children)
  }

  /** The event-queue assignment of `_build_kvm`: with more than one CPU, each CPU
      in turn; with one or none, nothing changes. */
  method AssignKvmQueues(cpus: seq<SimObj>) returns (r: seq<SimObj>)
    ensures |r| == |cpus|
    ensures |cpus| <= 1 ==> r == cpus
    ensures |cpus| > 1 ==> forall i :: 0 <= i < |cpus| ==> r[i] == KvmCpu(cpus[i], i)
  {
    r := cpus;
    if |cpus| > 1 {
      var deviceEq := 0;
      var firstCpuEq := 1;
      var idx := 0;
      while idx < |cpus|
        invariant 0 <= idx <= |cpus| && |r| == |cpus|
        invariant forall i :: 0 <= i < idx ==> r[i] == KvmCpu(cpus[i], i)
        invariant forall i :: idx <= i < |cpus| ==> r[i] == cpus[i]
      {
        var cpu := SetQueueAll(r[idx], Queue(deviceEq));
        cpu := cpu.(eventq := Queue(firstCpuEq + idx));
        r := r[idx := cpu];
        idx := idx + 1;
      }
    }
  }

  /** Every descendant of an object after `SetQueueAll(o, q)` is on queue `q`. */
  lemma {:induction false} SetQueueAllReachesDescendants(o: SimObj, q: EventQ)
    ensures forall d :: d in Descendants(SetQueueAll(o, q)) ==> d.eventq == q
    decreases o, 1
  {
    SetQueueAllReachesChildren(o.children, SetQueueAll(o, q).children, q);
  }

  lemma {:induction false} SetQueueAllReachesChildren(cs: seq<SimObj>, rs: seq<SimObj>, q: EventQ)
    requires |rs| == |cs|
    requires forall i :: 0 <= i < |cs| ==> rs[i] == SetQueueAll(cs[i], q)
    ensures forall d :: d in DescendantsOfAll(rs) ==> d.eventq == q
    decreases cs, 0
  {
    if cs != [] {
      SetQueueAllReachesDescendants(cs[0], q);
      SetQueueAllReachesChildren(cs[1..], rs[1..], q);
    }
  }

  /**
   * After `_build_kvm` with more than one CPU, the CPUs' queues are pairwise
   * distinct, each CPU `i` is on queue `1 + i`, and every other descendant of a
   * CPU is on the device queue 0.
   */
  lemma KvmQueues(cpus: seq<SimObj>, r: seq<SimObj>)
    requires |cpus| > 1 && |r| == |cpus|
    requires forall i :: 0 <= i < |cpus| ==> r[i] == KvmCpu(cpus[i], i)
    ensures forall i :: 0 <= i < |r| ==> r[i].eventq == Queue(1 + i)
    ensures forall i, j :: 0 <= i < j < |r| ==> r[i].eventq != r[j].eventq
    ensures forall i :: 0 <= i < |r| ==>
      forall d :: d in DescendantsOfAll(r[i].children) ==> d.eventq == Queue(0)
  {
    forall i | 0 <= i < |r|
      ensures forall d :: d in DescendantsOfAll(r[i].children) ==> d.eventq == Queue(0)
    {
      SetQueueAllReachesDescendants(cpus[i], Queue(0));
      assert Descendants(SetQueueAll(cpus[i], Queue(0)))
        == [SetQueueAll(cpus[i], Queue(0))] + DescendantsOfAll(r[i].children);
    }
  }

  /** Two objects on different concrete queues anywhere below the root put the
      simulator in PDES mode, so a KVM system with two or more CPUs uses PDES. */
  lemma TwoQueuesMeanPdes(root: SimObj, a: nat, b: nat)
    requires a < |Descendants(root)| && b < |Descendants(root)|
    requires Descendants(root)[a].eventq.Queue? && Descendants(root)[b].eventq.Queue?
    requires Descendants(root)[a].eventq != Descendants(root)[b].eventq
    ensures UsingPdes(root)
  {
    UsingPdesIff(root);
    if Descendants(root)[a].eventq == root.eventq {
      assert OwnQueue(Descendants(root)[b], root.eventq);
    } else {
      assert OwnQueue(Descendants(root)[a], root.eventq);
    }
  }
}
