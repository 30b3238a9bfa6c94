/**
 * What `run` promises, proved about the specification functions of module
 * SliceRun: which slices are run, what happens at each slice boundary, how
 * the sliced and the plain loops end, and where the clock stops.
 */
module SliceRunProperties {
  import opened Wrappers
  import opened Strings
  import opened SliceRun

  // ---------------------------------------------------------------------------
  // Views of a trace
  // ---------------------------------------------------------------------------

  /** The trace without its `simulate` calls: the stats and checkpoint actions in order. */
  function NonSimulate(t: seq<Action>): seq<Action>
    decreases |t|
  {
    if t == [] then [] else (if t[0].Simulate? then [] else [t[0]]) + NonSimulate(t[1..])
  }

  lemma {:induction false} NonSimulateAppend(a: seq<Action>, b: seq<Action>)
    ensures NonSimulate(a + b) == NonSimulate(a) + NonSimulate(b)
    decreases |a|
  {
    if a != [] {
      assert (a + b)[1..] == a[1..] + b;
      NonSimulateAppend(a[1..], b);
    } else {
      assert a + b == b;
    }
  }

  /** The number of `simulate` calls in a trace. */
  function CountSimulate(t: seq<Action>): (n: nat)
    ensures n <= |t|
    decreases |t|
  {
    if t == [] then 0 else (if t[0].Simulate? then 1 else 0) + CountSimulate(t[1..])
  }

  lemma {:induction false} CountSimulateAppend(a: seq<Action>, b: seq<Action>)
    ensures CountSimulate(a + b) == CountSimulate(a) + CountSimulate(b)
    decreases |a|
  {
    if a != [] {
      assert (a + b)[1..] == a[1..] + b;
      CountSimulateAppend(a[1..], b);
    } else {
      assert a + b == b;
    }
  }

  // ---------------------------------------------------------------------------
  // The sliced loop
  // ---------------------------------------------------------------------------

  /** How many slices of `range(s, slices)` complete when the substrate has
      `avail` answers left: one per answer, up to the number of slices. */
  function Completed(slices: int, avail: nat, s: nat): (n: nat)
    ensures n <= avail && (s < slices ==> n <= slices - s) && (s >= slices ==> n == 0)
    ensures n < avail ==> s + n >= slices
  {
    if s >= slices then 0 else Min(avail, slices - s)
  }

  lemma SliceBoundaryFacts(o: RunOptions, s: nat)
    ensures NonSimulate(SliceBoundary(o, s)) == SliceBoundary(o, s)
    ensures CountSimulate(SliceBoundary(o, s)) == 0
    ensures multiset(SliceBoundary(o, s))[DumpStats] == 1 && multiset(SliceBoundary(o, s))[ResetStats] == 1
  {
    var tail: seq<Action> := if o.saveSlices then [Checkpoint(Join(o.ckptDir, SliceDirName(s)))] else [];
    assert SliceBoundary(o, s) == [DumpStats, ResetStats] + tail;
    BoundaryViews(tail);
  }

  lemma SliceBoundaryCounts(o: RunOptions, s: nat)
    ensures multiset(SliceBoundary(o, s))[DumpStats] == 1 && multiset(SliceBoundary(o, s))[ResetStats] == 1
  {
    SliceBoundaryFacts(o, s);
  }

  /** The views of a dump and reset followed by at most one checkpoint. */
  lemma BoundaryViews(tail: seq<Action>)
    requires tail == [] || (|tail| == 1 && tail[0].Checkpoint?)
    ensures var b := [DumpStats, ResetStats] + tail;
      NonSimulate(b) == b && CountSimulate(b) == 0 && multiset(b)[DumpStats] == 1 && multiset(b)[ResetStats] == 1
  {
    var b := [DumpStats, ResetStats] + tail;
    assert b[1..] == [ResetStats] + tail;
    TailViews(tail);
    assert DumpStats !in tail && ResetStats !in tail;
    assert multiset(b) == multiset([DumpStats, ResetStats]) + multiset(tail);
  }

  lemma TailViews(tail: seq<Action>)
    requires tail == [] || (|tail| == 1 && tail[0].Checkpoint?)
    ensures NonSimulate([ResetStats] + tail) == [ResetStats] + tail && CountSimulate([ResetStats] + tail) == 0
  {
    assert ([ResetStats] + tail)[1..] == tail;
    if tail != [] {
      assert tail[1..] == [];
    }
  }

  /** The boundary actions of `n` consecutive slices from `s`. */
  function Boundaries(o: RunOptions, s: nat, n: nat): seq<Action>
    decreases n
  {
    if n == 0 then [] else SliceBoundary(o, s) + Boundaries(o, s + 1, n - 1)
  }

  /** The tick at which the sliced loop starts the next slice after answer `ev`. */
  function NextTick(o: RunOptions, ev: StopEvent, s: nat, now: nat): nat
  {
    now + Min(ev.after, SliceDelta(s, o.sliceTicks, now))
  }

  /** What one completed slice adds to the trace. */
  function SliceChunk(o: RunOptions, s: nat, now: nat): seq<Action>
  {
    [Simulate(Some(SliceDelta(s, o.sliceTicks, now)))] + SliceBoundary(o, s)
  }

  lemma SlicedUnfold(o: RunOptions, evs: seq<StopEvent>, s: nat, now: nat)
    requires s < o.slices && evs != []
    ensures var rest := SlicedFrom(o, evs[1..], s + 1, NextTick(o, evs[0], s, now));
      SlicedFrom(o, evs, s, now) == Then(SliceChunk(o, s, now), rest)
  {
  }

  lemma SliceChunkFacts(o: RunOptions, s: nat, now: nat)
    ensures NonSimulate(SliceChunk(o, s, now)) == SliceBoundary(o, s)
    ensures CountSimulate(SliceChunk(o, s, now)) == 1
  {
    var sim := [Simulate(Some(SliceDelta(s, o.sliceTicks, now)))];
    SliceBoundaryFacts(o, s);
    NonSimulateAppend(sim, SliceBoundary(o, s));
    CountSimulateAppend(sim, SliceBoundary(o, s));
    assert NonSimulate(sim) == [] by { assert sim[1..] == []; }
    assert CountSimulate(sim) == 1 by { assert sim[1..] == []; }
  }

  lemma CompletedStep(slices: int, avail: nat, s: nat)
    requires s < slices && avail > 0
    ensures Completed(slices, avail, s) == 1 + Completed(slices, avail - 1, s + 1)
  {
  }

  /**
   * Apart from its `simulate` calls, the sliced loop does exactly the boundary
   * actions of the slices `s, s+1, …` it completes, and it completes one slice
   * per answer of the substrate whatever the answer's cause: it never leaves
   * the loop early.
   */
  lemma {:induction false} SlicedBoundaries(o: RunOptions, evs: seq<StopEvent>, s: nat, now: nat)
    ensures NonSimulate(SlicedFrom(o, evs, s, now).trace) == Boundaries(o, s, Completed(o.slices, |evs|, s))
    decreases o.slices - s
  {
    if s < o.slices {
      if evs == [] {
        var sim := [Simulate(Some(SliceDelta(s, o.sliceTicks, now)))];
        assert NonSimulate(sim) == [] by { assert sim[1..] == []; }
      } else {
        var rest := SlicedFrom(o, evs[1..], s + 1, NextTick(o, evs[0], s, now));
        SlicedUnfold(o, evs, s, now);
        SlicedBoundaries(o, evs[1..], s + 1, NextTick(o, evs[0], s, now));
        SliceChunkFacts(o, s, now);
        NonSimulateAppend(SliceChunk(o, s, now), rest.trace);
        CompletedStep(o.slices, |evs|, s);
      }
    }
  }

  /** The sliced loop calls `simulate` once per completed slice, plus the call that never returns when it hangs. */
  lemma {:induction false} SlicedSimulateCalls(o: RunOptions, evs: seq<StopEvent>, s: nat, now: nat)
    ensures var p := SlicedFrom(o, evs, s, now);
      CountSimulate(p.trace) == Completed(o.slices, |evs|, s) + (if p.end == Hung then 1 else 0)
    decreases o.slices - s
  {
    if s < o.slices {
      if evs == [] {
        var sim := [Simulate(Some(SliceDelta(s, o.sliceTicks, now)))];
        assert CountSimulate(sim) == 1 by { assert sim[1..] == []; }
      } else {
        var rest := SlicedFrom(o, evs[1..], s + 1, NextTick(o, evs[0], s, now));
        SlicedUnfold(o, evs, s, now);
        SlicedSimulateCalls(o, evs[1..], s + 1, NextTick(o, evs[0], s, now));
        SliceChunkFacts(o, s, now);
        CountSimulateAppend(SliceChunk(o, s, now), rest.trace);
        CompletedStep(o.slices, |evs|, s);
      }
    }
  }

  /** The sliced loop never ends with an exit code: it hangs exactly when the
      substrate runs out of answers before the last slice, and otherwise reaches
      `sys.exit(event.getCode())` with `event` unbound. */
  lemma {:induction false} SlicedEnd(o: RunOptions, evs: seq<StopEvent>, s: nat, now: nat)
    ensures SlicedFrom(o, evs, s, now).end == (if s < o.slices && |evs| < o.slices - s then Hung else UnboundEvent)
    decreases o.slices - s
  {
    if s < o.slices && evs != [] {
      SlicedEnd(o, evs[1..], s + 1, now + Min(evs[0].after, SliceDelta(s, o.sliceTicks, now)));
    }
  }

  /** The causes and exit codes the substrate reports have no influence on the sliced loop. */
  lemma {:induction false} SlicedIgnoresCauses(o: RunOptions, evs: seq<StopEvent>, evs': seq<StopEvent>, s: nat, now: nat)
    requires |evs| == |evs'| && forall i :: 0 <= i < |evs| ==> evs[i].after == evs'[i].after
    ensures SlicedFrom(o, evs, s, now) == SlicedFrom(o, evs', s, now)
    decreases o.slices - s
  {
    if s < o.slices && evs != [] {
      SlicedIgnoresCauses(o, evs[1..], evs'[1..], s + 1, now + Min(evs[0].after, SliceDelta(s, o.sliceTicks, now)));
    }
  }

  function Max(a: nat, b: nat): nat { if a >= b then a else b }

  /** The clock never goes back and never passes the end of the last slice,
      unless it was already past it when the loop started. */
  lemma {:induction false} SlicedTickBounds(o: RunOptions, evs: seq<StopEvent>, s: nat, now: nat)
    ensures now <= SlicedFrom(o, evs, s, now).tick
    ensures o.slices >= 0 ==> SlicedFrom(o, evs, s, now).tick <= Max(now, o.slices * o.sliceTicks)
    decreases o.slices - s
  {
    if s < o.slices && evs != [] {
      var delta := SliceDelta(s, o.sliceTicks, now);
      var now' := now + Min(evs[0].after, delta);
      SlicedTickBounds(o, evs[1..], s + 1, now');
      SliceEndMonotone(s + 1, o.slices, o.sliceTicks);
    }
  }

  lemma SliceEndMonotone(a: nat, b: nat, t: nat)
    requires a <= b
    ensures a * t <= b * t
  {
  }

  /** A slice the substrate does not cut short ends on its end tick, or stays at
      `now` when the run is already past it: the loop goes on from
      `max(now, (s + 1) * T)`. */
  lemma SliceLandsOnEnd(o: RunOptions, evs: seq<StopEvent>, s: nat, now: nat)
    requires s < o.slices && evs != []
    requires evs[0].after >= SliceDelta(s, o.sliceTicks, now)
    ensures SlicedFrom(o, evs, s, now) ==
      Then([Simulate(Some(SliceDelta(s, o.sliceTicks, now)))] + SliceBoundary(o, s),
           SlicedFrom(o, evs[1..], s + 1, Max(now, (s + 1) * o.sliceTicks)))
  {
  }

  /** When the substrate never stops on its own before the last slice's end, the
      loop finishes at `max(now, slices * T)`; each slice on the way lands on its
      end tick as `SliceLandsOnEnd` states. */
  lemma {:induction false} SlicedTickExact(o: RunOptions, evs: seq<StopEvent>, s: nat, now: nat)
    requires s < o.slices && o.slices - s <= |evs|
    requires forall i :: 0 <= i < |evs| ==> evs[i].after >= o.slices * o.sliceTicks
    ensures SlicedFrom(o, evs, s, now).tick == Max(now, o.slices * o.sliceTicks)
    decreases o.slices - s
  {
    var delta := SliceDelta(s, o.sliceTicks, now);
    SliceEndMonotone(s + 1, o.slices, o.sliceTicks);
    assert delta <= o.slices * o.sliceTicks;
    var now' := now + Min(evs[0].after, delta);
    assert now' == Max(now, (s + 1) * o.sliceTicks);
    SliceLandsOnEnd(o, evs, s, now);
    if s + 1 < o.slices {
      SlicedTickExact(o, evs[1..], s + 1, now');
    }
  }

  /** Every checkpoint the boundaries write is a `slice_NNNN` directory of one of
      their slices, each such directory is written, and only when slices are saved. */
  lemma {:induction false} BoundaryCheckpoints(o: RunOptions, s: nat, n: nat, path: string)
    ensures Checkpoint(path) in Boundaries(o, s, n) <==>
      o.saveSlices && exists j :: s <= j < s + n && path == Join(o.ckptDir, SliceDirName(j))
    decreases n
  {
    if n > 0 {
      BoundaryCheckpoints(o, s + 1, n - 1, path);
      if o.saveSlices && exists j :: s <= j < s + n && path == Join(o.ckptDir, SliceDirName(j)) {
        var j :| s <= j < s + n && path == Join(o.ckptDir, SliceDirName(j));
        if j == s {
          assert SliceBoundary(o, s)[2] == Checkpoint(path);
        }
      }
    }
  }

  /** The boundaries of `n` slices dump and reset the statistics `n` times each. */
  lemma BoundaryStatCounts(o: RunOptions, s: nat, n: nat)
    ensures multiset(Boundaries(o, s, n))[DumpStats] == n
    ensures multiset(Boundaries(o, s, n))[ResetStats] == n
  {
    BoundaryStatCount(o, s, n, DumpStats);
    BoundaryStatCount(o, s, n, ResetStats);
  }

  lemma {:induction false} BoundaryStatCount(o: RunOptions, s: nat, n: nat, x: Action)
    requires x == DumpStats || x == ResetStats
    ensures multiset(Boundaries(o, s, n))[x] == n
    decreases n
  {
    if n > 0 {
      BoundaryStatCount(o, s + 1, n - 1, x);
      SliceBoundaryCount(o, s, x);
      CountStep(Boundaries(o, s, n), SliceBoundary(o, s), Boundaries(o, s + 1, n - 1), x, n);
    }
  }

  lemma SliceBoundaryCount(o: RunOptions, s: nat, x: Action)
    requires x == DumpStats || x == ResetStats
    ensures multiset(SliceBoundary(o, s))[x] == 1
  {
    SliceBoundaryCounts(o, s);
  }

  lemma CountStep(whole: seq<Action>, b: seq<Action>, rest: seq<Action>, x: Action, n: nat)
    requires whole == b + rest && n > 0
    requires multiset(b)[x] == 1 && multiset(rest)[x] == n - 1
    ensures multiset(whole)[x] == n
  {
    assert multiset(b + rest) == multiset(b) + multiset(rest);
  }

  /** In a trace of the sliced loop, statistics are dumped and then reset right
      away, and a checkpoint comes right after such a dump and reset. */
  predicate BoundaryOrdered(t: seq<Action>)
  {
    (forall i :: 0 <= i < |t| && t[i].Checkpoint? ==> 2 <= i && t[i - 1] == ResetStats && t[i - 2] == DumpStats) &&
    (forall i :: 0 <= i < |t| && t[i] == DumpStats ==> i + 1 < |t| && t[i + 1] == ResetStats)
  }

  lemma BoundaryOrderedAppend(a: seq<Action>, b: seq<Action>)
    requires BoundaryOrdered(a) && BoundaryOrdered(b)
    requires b == [] || b[0].Simulate?
    requires a == [] || a[|a| - 1] != DumpStats
    ensures BoundaryOrdered(a + b)
  {
    var t := a + b;
    forall i | 0 <= i < |t| && t[i].Checkpoint?
      ensures 2 <= i && t[i - 1] == ResetStats && t[i - 2] == DumpStats
    {
      if i >= |a| {
        assert b[i - |a|].Checkpoint?;
        assert t[i - 1] == b[i - |a| - 1] && t[i - 2] == b[i - |a| - 2];
      } else {
        assert a[i].Checkpoint?;
      }
    }
    forall i | 0 <= i < |t| && t[i] == DumpStats
      ensures i + 1 < |t| && t[i + 1] == ResetStats
    {
      if i >= |a| {
        assert b[i - |a|] == DumpStats;
      } else {
        assert a[i] == DumpStats;
        assert i + 1 < |a|;
      }
    }
  }

  lemma {:induction false} SlicedOrdered(o: RunOptions, evs: seq<StopEvent>, s: nat, now: nat)
    ensures var t := SlicedFrom(o, evs, s, now).trace;
      BoundaryOrdered(t) && (t == [] || t[0].Simulate?)
    decreases o.slices - s
  {
    if s < o.slices && evs != [] {
      var rest := SlicedFrom(o, evs[1..], s + 1, NextTick(o, evs[0], s, now));
      var chunk := SliceChunk(o, s, now);
      SlicedUnfold(o, evs, s, now);
      SlicedOrdered(o, evs[1..], s + 1, NextTick(o, evs[0], s, now));
      ChunkOrdered(o, s, now);
      BoundaryOrderedAppend(chunk, rest.trace);
      assert (chunk + rest.trace)[0] == chunk[0];
    }
  }

  lemma ChunkOrdered(o: RunOptions, s: nat, now: nat)
    ensures var c := SliceChunk(o, s, now);
      BoundaryOrdered(c) && c[0].Simulate? && c[|c| - 1] != DumpStats
  {
    var sim := Simulate(Some(SliceDelta(s, o.sliceTicks, now)));
    if o.saveSlices {
      ChunkShapeOrdered(sim, [Checkpoint(Join(o.ckptDir, SliceDirName(s)))]);
    } else {
      ChunkShapeOrdered(sim, []);
    }
  }

  lemma ChunkShapeOrdered(sim: Action, tail: seq<Action>)
    requires sim.Simulate?
    requires tail == [] || (|tail| == 1 && tail[0].Checkpoint?)
    ensures var c := [sim, DumpStats, ResetStats] + tail;
      BoundaryOrdered(c) && c[|c| - 1] != DumpStats
  {
  }

  // ---------------------------------------------------------------------------
  // The whole sliced run
  // ---------------------------------------------------------------------------

  /**
   * A sliced run from `--restore-slice r` (or from scratch) writes checkpoints
   * exactly to `ckpt_dir/slice_{j:04d}` for the slices `j` it completes, which
   * are the first ones of `range(start_slice, slices)`, and none when slices are
   * not saved; it dumps and resets the statistics once per completed slice.
   */
  lemma SlicedRunCheckpoints(o: RunOptions, evs: seq<StopEvent>, tick0: nat, path: string)
    requires o.sliceRun
    ensures var r := RunSpec(o, evs, tick0);
      var start := StartSlice(o.restoreSlice);
      var n := Completed(o.slices, |evs|, start);
      && (Checkpoint(path) in r.trace <==>
            o.saveSlices && exists j :: start <= j < start + n && path == Join(o.ckptDir, SliceDirName(j)))
      && multiset(r.trace)[DumpStats] == n
      && multiset(r.trace)[ResetStats] == n
      && r.end != Exited(0) && !r.end.Exited?
  {
    var start := StartSlice(o.restoreSlice);
    var n := Completed(o.slices, |evs|, start);
    var t := RunSpec(o, evs, tick0).trace;
    SlicedRunNonSimulate(o, evs, tick0);
    BoundaryCheckpoints(o, start, n, path);
    BoundaryStatCounts(o, start, n);
    NonSimulateKeeps(t, Checkpoint(path));
    MultisetNonSimulate(t, DumpStats);
    MultisetNonSimulate(t, ResetStats);
  }

  /** Apart from its simulate calls, a sliced run is the `makedirs` followed by the
      boundaries of the slices it completed, and it never exits with a code. */
  lemma SlicedRunNonSimulate(o: RunOptions, evs: seq<StopEvent>, tick0: nat)
    requires o.sliceRun
    ensures var start := StartSlice(o.restoreSlice);
      NonSimulate(RunSpec(o, evs, tick0).trace) ==
        [MakeDirs(o.ckptDir)] + Boundaries(o, start, Completed(o.slices, |evs|, start))
    ensures !RunSpec(o, evs, tick0).end.Exited?
  {
    var start := StartSlice(o.restoreSlice);
    var p := SlicedFrom(o, evs, start, tick0);
    SlicedBoundaries(o, evs, start, tick0);
    SlicedEnd(o, evs, start, tick0);
    NonSimulateAppend([MakeDirs(o.ckptDir)], p.trace);
  }

  /** The slice whose directory a checkpoint of a sliced run is: one of the slices
      the run completed, from its start slice on. */
  lemma SavedSliceIndex(o: RunOptions, evs: seq<StopEvent>, tick0: nat, path: string) returns (j: nat)
    requires o.sliceRun
    requires Checkpoint(path) in RunSpec(o, evs, tick0).trace
    ensures o.saveSlices
    ensures StartSlice(o.restoreSlice) <= j < o.slices
    ensures j < StartSlice(o.restoreSlice) + Completed(o.slices, |evs|, StartSlice(o.restoreSlice))
    ensures path == Join(o.ckptDir, SliceDirName(j))
  {
    var start := StartSlice(o.restoreSlice);
    var n := Completed(o.slices, |evs|, start);
    SlicedRunCheckpoints(o, evs, tick0, path);
    j :| start <= j < start + n && path == Join(o.ckptDir, SliceDirName(j));
  }

  lemma {:induction false} NonSimulateKeeps(t: seq<Action>, a: Action)
    requires !a.Simulate?
    ensures a in t <==> a in NonSimulate(t)
    decreases |t|
  {
    if t != [] {
      NonSimulateKeeps(t[1..], a);
      assert t == [t[0]] + t[1..];
    }
  }

  lemma {:induction false} MultisetNonSimulate(t: seq<Action>, a: Action)
    requires !a.Simulate?
    ensures multiset(t)[a] == multiset(NonSimulate(t))[a]
    decreases |t|
  {
    if t != [] {
      MultisetNonSimulate(t[1..], a);
      assert t == [t[0]] + t[1..];
    }
  }

  // ---------------------------------------------------------------------------
  // The plain loop
  // ---------------------------------------------------------------------------

  /** `Classify` tests the causes as the source does: the exact string
      "checkpoint" first, then the substrings "workbegin" and "workend". */
  lemma ClassifyIff(cause: string)
    ensures Classify(cause) == CheckpointRequest <==> cause == "checkpoint"
    ensures Classify(cause) == WorkBegin <==>
      cause != "checkpoint" && exists i :: OccursAt(cause, "workbegin", i)
    ensures Classify(cause) == WorkEnd <==>
      cause != "checkpoint" && (!exists i :: OccursAt(cause, "workbegin", i)) && exists i :: OccursAt(cause, "workend", i)
    ensures Classify(cause) == Terminal <==>
      cause != "checkpoint" && (!exists i :: OccursAt(cause, "workbegin", i)) && !exists i :: OccursAt(cause, "workend", i)
  {
    ContainsAt(cause, "workbegin");
    ContainsAt(cause, "workend");
  }

  /** The index of the first answer with a terminal cause, `|evs|` if there is none. */
  function FirstTerminal(evs: seq<StopEvent>): (k: nat)
    ensures k <= |evs|
    ensures forall i :: 0 <= i < k ==> Classify(evs[i].cause) != Terminal
    ensures k < |evs| ==> Classify(evs[k].cause) == Terminal
    decreases |evs|
  {
    if evs == [] then 0
    else if Classify(evs[0].cause) == Terminal then 0
    else 1 + FirstTerminal(evs[1..])
  }

  function SumAfter(evs: seq<StopEvent>): nat
    decreases |evs|
  {
    if evs == [] then 0 else evs[0].after + SumAfter(evs[1..])
  }

  /** How many of `evs` have a cause of kind `k`. */
  function CountKind(evs: seq<StopEvent>, k: CauseKind): (n: nat)
    ensures n <= |evs|
    decreases |evs|
  {
    if evs == [] then 0 else (if Classify(evs[0].cause) == k then 1 else 0) + CountKind(evs[1..], k)
  }

  /** One non-terminal answer of the plain loop: what it does before asking again. */
  function PlainStep(ckptDir: string, kind: CauseKind, tick: nat): seq<Action>
  {
    match kind
    case CheckpointRequest => [Simulate(None), Checkpoint(Join(ckptDir, TickCheckpointName(tick)))]
    case WorkBegin => [Simulate(None), ResetStats]
    case WorkEnd => [Simulate(None), DumpStats, ResetStats]
    case Terminal => [Simulate(None)]
  }

  lemma PlainUnfold(ckptDir: string, evs: seq<StopEvent>, now: nat)
    requires evs != [] && Classify(evs[0].cause) != Terminal
    ensures var now' := now + evs[0].after;
      PlainFrom(ckptDir, evs, now) == Then(PlainStep(ckptDir, Classify(evs[0].cause), now'), PlainFrom(ckptDir, evs[1..], now'))
  {
  }

  /**
   * The plain loop leaves at the first terminal cause with that event's exit
   * code, having called `simulate` once per answer up to and including it, and
   * the clock has advanced by the ticks of those answers; with no terminal cause
   * at all it blocks in one more `simulate` call.
   */
  lemma PlainOutcome(ckptDir: string, evs: seq<StopEvent>, now: nat)
    ensures var p := PlainFrom(ckptDir, evs, now);
      var k := FirstTerminal(evs);
      && p.end == (if k < |evs| then Exited(evs[k].code) else Hung)
      && CountSimulate(p.trace) == k + 1
      && p.tick == now + SumAfter(evs[..Min(k + 1, |evs|)])
  {
    PlainEnd(ckptDir, evs, now);
    PlainSimulateCalls(ckptDir, evs, now);
    PlainTick(ckptDir, evs, now);
  }

  lemma {:induction false} PlainEnd(ckptDir: string, evs: seq<StopEvent>, now: nat)
    ensures var k := FirstTerminal(evs);
      PlainFrom(ckptDir, evs, now).end == (if k < |evs| then Exited(evs[k].code) else Hung)
    decreases |evs|
  {
    if evs != [] && Classify(evs[0].cause) != Terminal {
      var now' := now + evs[0].after;
      PlainUnfold(ckptDir, evs, now);
      PlainEnd(ckptDir, evs[1..], now');
    }
  }

  lemma {:induction false} PlainSimulateCalls(ckptDir: string, evs: seq<StopEvent>, now: nat)
    ensures CountSimulate(PlainFrom(ckptDir, evs, now).trace) == FirstTerminal(evs) + 1
    decreases |evs|
  {
    if evs == [] || Classify(evs[0].cause) == Terminal {
      assert [Simulate(None)][1..] == [];
    } else {
      var now' := now + evs[0].after;
      var step := PlainStep(ckptDir, Classify(evs[0].cause), now');
      PlainUnfold(ckptDir, evs, now);
      PlainSimulateCalls(ckptDir, evs[1..], now');
      CountSimulateAppend(step, PlainFrom(ckptDir, evs[1..], now').trace);
      StepSimulates(ckptDir, Classify(evs[0].cause), now');
    }
  }

  lemma StepSimulates(ckptDir: string, kind: CauseKind, tick: nat)
    ensures CountSimulate(PlainStep(ckptDir, kind, tick)) == 1
  {
    var t := PlainStep(ckptDir, kind, tick);
    NoSimulateTail(t[1..]);
    assert t == [Simulate(None)] + t[1..];
  }

  /** The stats and checkpoint actions after the `simulate` call of a step. */
  lemma NoSimulateTail(t: seq<Action>)
    requires |t| <= 2 && forall i :: 0 <= i < |t| ==> !t[i].Simulate?
    ensures CountSimulate(t) == 0
  {
    if t != [] {
      assert |t[1..]| <= 1;
      if t[1..] != [] {
        assert t[1..][1..] == [];
      }
    }
  }

  lemma {:induction false} PlainTick(ckptDir: string, evs: seq<StopEvent>, now: nat)
    ensures var k := FirstTerminal(evs);
      PlainFrom(ckptDir, evs, now).tick == now + SumAfter(evs[..Min(k + 1, |evs|)])
    decreases |evs|
  {
    var k := FirstTerminal(evs);
    if evs == [] {
      assert evs[..0] == [];
    } else if Classify(evs[0].cause) == Terminal {
      assert evs[..1][1..] == [];
    } else {
      var now' := now + evs[0].after;
      PlainUnfold(ckptDir, evs, now);
      PlainTick(ckptDir, evs[1..], now');
      SumAfterStep(evs, Min(k + 1, |evs|));
    }
  }

  lemma SumAfterStep(evs: seq<StopEvent>, m: nat)
    requires 0 < m <= |evs|
    ensures SumAfter(evs[..m]) == evs[0].after + SumAfter(evs[1..][..m - 1])
  {
    assert evs[..m][1..] == evs[1..][..m - 1];
  }

  /** Answer `i` of `evs`, starting at tick `now`, is a `checkpoint` request, and
      `path` is `ckpt_dir/cpt.<tick>` for the tick at which the simulator stopped. */
  predicate CheckpointAt(ckptDir: string, evs: seq<StopEvent>, now: nat, i: nat, path: string)
    requires i < |evs|
  {
    Classify(evs[i].cause) == CheckpointRequest &&
    path == Join(ckptDir, TickCheckpointName(now + SumAfter(evs[..i + 1])))
  }

  /** Some answer before the first terminal cause is a `checkpoint` request for `path`. */
  predicate CheckpointBefore(ckptDir: string, evs: seq<StopEvent>, now: nat, path: string)
  {
    exists i :: 0 <= i < FirstTerminal(evs) && CheckpointAt(ckptDir, evs, now, i, path)
  }

  /**
   * The plain loop writes a checkpoint exactly for each `checkpoint` request
   * before the first terminal cause, to `ckpt_dir/cpt.<tick>`, where the tick is
   * the one at which the simulator stopped for that request.
   */
  lemma PlainCheckpoints(ckptDir: string, evs: seq<StopEvent>, now: nat, path: string)
    ensures Checkpoint(path) in PlainFrom(ckptDir, evs, now).trace <==>
      exists i :: 0 <= i < FirstTerminal(evs) && CheckpointAt(ckptDir, evs, now, i, path)
  {
    PlainCheckpointsBefore(ckptDir, evs, now, path);
  }

  /** A plain run writes its checkpoints to `ckpt_dir/cpt.<tick>` exactly for the
      `checkpoint` requests before the first terminal cause. */
  lemma PlainRunCheckpoints(o: RunOptions, evs: seq<StopEvent>, tick0: nat, path: string)
    requires !o.sliceRun
    ensures Checkpoint(path) in RunSpec(o, evs, tick0).trace <==>
      exists i :: 0 <= i < FirstTerminal(evs) && CheckpointAt(o.ckptDir, evs, tick0, i, path)
  {
    var p := PlainFrom(o.ckptDir, evs, tick0);
    PlainCheckpointsBefore(o.ckptDir, evs, tick0, path);
    assert RunSpec(o, evs, tick0).trace == [MakeDirs(o.ckptDir)] + p.trace;
    assert Checkpoint(path) in [MakeDirs(o.ckptDir)] + p.trace <==> Checkpoint(path) in p.trace;
  }

  lemma {:induction false} PlainCheckpointsBefore(ckptDir: string, evs: seq<StopEvent>, now: nat, path: string)
    ensures Checkpoint(path) in PlainFrom(ckptDir, evs, now).trace <==> CheckpointBefore(ckptDir, evs, now, path)
    decreases |evs|
  {
    if evs == [] || Classify(evs[0].cause) == Terminal {
      assert PlainFrom(ckptDir, evs, now).trace == [Simulate(None)];
    } else {
      var kind := Classify(evs[0].cause);
      var now' := now + evs[0].after;
      var step := PlainStep(ckptDir, kind, now');
      var rest := PlainFrom(ckptDir, evs[1..], now');
      PlainUnfold(ckptDir, evs, now);
      PlainCheckpointsBefore(ckptDir, evs[1..], now', path);
      StepCheckpoint(ckptDir, kind, now', path);
      assert Checkpoint(path) in step + rest.trace <==> Checkpoint(path) in step || Checkpoint(path) in rest.trace;
      CheckpointAtFirst(ckptDir, evs, now, path);
      CheckpointBeforeStep(ckptDir, evs, now, path);
    }
  }

  lemma CheckpointBeforeStep(ckptDir: string, evs: seq<StopEvent>, now: nat, path: string)
    requires evs != [] && Classify(evs[0].cause) != Terminal
    ensures CheckpointBefore(ckptDir, evs, now, path) <==>
      CheckpointAt(ckptDir, evs, now, 0, path) || CheckpointBefore(ckptDir, evs[1..], now + evs[0].after, path)
  {
    assert FirstTerminal(evs) == 1 + FirstTerminal(evs[1..]);
    if CheckpointBefore(ckptDir, evs[1..], now + evs[0].after, path) {
      CheckpointBeforeFromRest(ckptDir, evs, now, path);
    }
    if CheckpointBefore(ckptDir, evs, now, path) {
      CheckpointBeforeToRest(ckptDir, evs, now, path);
    }
  }

  lemma CheckpointBeforeFromRest(ckptDir: string, evs: seq<StopEvent>, now: nat, path: string)
    requires evs != [] && FirstTerminal(evs) == 1 + FirstTerminal(evs[1..])
    requires CheckpointBefore(ckptDir, evs[1..], now + evs[0].after, path)
    ensures CheckpointBefore(ckptDir, evs, now, path)
  {
    var i :| 0 <= i < FirstTerminal(evs[1..]) && CheckpointAt(ckptDir, evs[1..], now + evs[0].after, i, path);
    CheckpointAtShift(ckptDir, evs, now, i, path);
  }

  lemma CheckpointBeforeToRest(ckptDir: string, evs: seq<StopEvent>, now: nat, path: string)
    requires evs != [] && FirstTerminal(evs) == 1 + FirstTerminal(evs[1..])
    requires CheckpointBefore(ckptDir, evs, now, path)
    ensures CheckpointAt(ckptDir, evs, now, 0, path) || CheckpointBefore(ckptDir, evs[1..], now + evs[0].after, path)
  {
    var i :| 0 <= i < FirstTerminal(evs) && CheckpointAt(ckptDir, evs, now, i, path);
    if i > 0 {
      CheckpointAtShift(ckptDir, evs, now, i - 1, path);
    }
  }

  lemma StepCheckpoint(ckptDir: string, kind: CauseKind, tick: nat, path: string)
    ensures Checkpoint(path) in PlainStep(ckptDir, kind, tick) <==>
      kind == CheckpointRequest && path == Join(ckptDir, TickCheckpointName(tick))
  {
  }

  lemma CheckpointAtFirst(ckptDir: string, evs: seq<StopEvent>, now: nat, path: string)
    requires evs != []
    ensures CheckpointAt(ckptDir, evs, now, 0, path) <==>
      Classify(evs[0].cause) == CheckpointRequest && path == Join(ckptDir, TickCheckpointName(now + evs[0].after))
  {
    assert evs[..1][1..] == [];
    assert SumAfter(evs[..1]) == evs[0].after + SumAfter(evs[..1][1..]);
  }

  lemma CheckpointAtShift(ckptDir: string, evs: seq<StopEvent>, now: nat, i: nat, path: string)
    requires i + 1 < |evs|
    ensures CheckpointAt(ckptDir, evs[1..], now + evs[0].after, i, path) <==>
      CheckpointAt(ckptDir, evs, now, i + 1, path)
  {
    SumAfterStep(evs, i + 2);
  }

  /** Along the way, the plain loop resets the statistics once per `workbegin` or
      `workend` cause and dumps them once per `workend` cause; `PlainCheckpoints`
      says where it writes checkpoints. */
  lemma {:induction false} PlainStatCounts(ckptDir: string, evs: seq<StopEvent>, now: nat)
    ensures var p := PlainFrom(ckptDir, evs, now);
      var k := FirstTerminal(evs);
      && multiset(p.trace)[DumpStats] == CountKind(evs[..k], WorkEnd)
      && multiset(p.trace)[ResetStats] == CountKind(evs[..k], WorkBegin) + CountKind(evs[..k], WorkEnd)
    decreases |evs|
  {
    var k := FirstTerminal(evs);
    if evs == [] || Classify(evs[0].cause) == Terminal {
      assert evs[..k] == [];
    } else {
      var kind := Classify(evs[0].cause);
      var now' := now + evs[0].after;
      var step := PlainStep(ckptDir, kind, now');
      var rest := PlainFrom(ckptDir, evs[1..], now');
      PlainUnfold(ckptDir, evs, now);
      PlainStatCounts(ckptDir, evs[1..], now');
      assert multiset(step + rest.trace) == multiset(step) + multiset(rest.trace);
      StepCounts(ckptDir, kind, now');
      CountKindStep(evs, k, WorkEnd);
      CountKindStep(evs, k, WorkBegin);
    }
  }

  /** What one non-terminal answer of the plain loop adds to the statistics counts. */
  lemma StepCounts(ckptDir: string, kind: CauseKind, tick: nat)
    requires kind != Terminal
    ensures multiset(PlainStep(ckptDir, kind, tick))[DumpStats] == (if kind == WorkEnd then 1 else 0)
    ensures multiset(PlainStep(ckptDir, kind, tick))[ResetStats] == (if kind == WorkEnd || kind == WorkBegin then 1 else 0)
  {
  }

  lemma CountKindStep(evs: seq<StopEvent>, k: nat, kind: CauseKind)
    requires 0 < k <= |evs| && k == FirstTerminal(evs)
    ensures CountKind(evs[..k], kind) ==
      (if Classify(evs[0].cause) == kind then 1 else 0) + CountKind(evs[1..][..FirstTerminal(evs[1..])], kind)
  {
    assert evs[..k][0] == evs[0] && evs[..k][1..] == evs[1..][..k - 1];
  }

  /** A plain run is blocked exactly when no answer of the substrate has a terminal
      cause, and otherwise exits with the code of the first answer that has one. */
  lemma PlainRunEnd(o: RunOptions, evs: seq<StopEvent>, tick0: nat)
    requires !o.sliceRun
    ensures RunSpec(o, evs, tick0).end == Hung <==> forall i :: 0 <= i < |evs| ==> Classify(evs[i].cause) != Terminal
    ensures RunSpec(o, evs, tick0).end.Exited? ==>
      exists i :: 0 <= i < |evs| && Classify(evs[i].cause) == Terminal &&
        RunSpec(o, evs, tick0).end.code == evs[i].code &&
        forall j :: 0 <= j < i ==> Classify(evs[j].cause) != Terminal
  {
    PlainOutcome(o.ckptDir, evs, tick0);
    var k := FirstTerminal(evs);
    if RunSpec(o, evs, tick0).end.Exited? {
      assert k < |evs|;
    }
  }
}
