/**
 * The slice-run controller of configs/example/arm/arm_multicore_d9300.py:
 * `run` (the sliced loop and the plain loop), `_dump_stats_with_marker`,
 * `_resolve_slice_dir` and `instantiate`'s choice of restore directory and
 * simulation quantum.
 *
 * The simulator is an abstract substrate. Each call `m5.simulate(...)` is
 * answered by the next `StopEvent` of a finite sequence: the event says after
 * how many ticks the substrate stops on its own and which cause and exit code
 * it reports. When the sequence is used up, the next call never returns
 * (`Hung`). What the controller asks of the substrate is recorded as a trace of
 * `Action`s.
 */
module SliceRun {
  import opened Wrappers
  import opened Strings
  import EventQueues

  // ---------------------------------------------------------------------------
  // The substrate interface and the trace
  // ---------------------------------------------------------------------------

  datatype Action =
    | MakeDirs(path: string)          // os.makedirs(path, exist_ok=True)
    | Simulate(limit: Option<nat>)    // m5.simulate(delta), or m5.simulate() with no limit
    | DumpStats                       // m5.stats.dump()
    | ResetStats                      // m5.stats.reset()
    | Checkpoint(path: string)        // m5.checkpoint(path)

  /** The substrate's answer to one `m5.simulate` call: it stops on its own
      `after` ticks later with `cause` and `code`, unless a tick limit comes first. */
  datatype StopEvent = StopEvent(after: nat, cause: string, code: int)

  /** How `run` ends: `sys.exit(code)`; the `UnboundLocalError` raised by
      `event.getCode()` on the sliced path, where `event` was never assigned; or
      blocked in a `simulate` call that does not return. */
  datatype RunEnd = Exited(code: int) | UnboundEvent | Hung

  datatype RunResult = RunResult(trace: seq<Action>, end: RunEnd, tick: nat)

  /** The options `run` reads. `sliceTicks` is `_to_ticks(options.slice_ticks)`. */
  datatype RunOptions = RunOptions(
    ckptDir: string,
    restoreSlice: int,
    sliceRun: bool,
    slices: int,
    sliceTicks: nat,
    saveSlices: bool)

  function Min(a: nat, b: nat): nat { if a <= b then a else b }

  // ---------------------------------------------------------------------------
  // Checkpoint directory names
  // ---------------------------------------------------------------------------

  /** `f"slice_{index:04d}"`, the leaf name used both to save and to restore a slice. */
  function SliceDirName(index: int): string
  {
    "slice_" + FormatD04(index)
  }

  /** Slice directory names are distinct for distinct non-negative indices: the
      index can be read back from the name, and the name always holds all its digits. */
  lemma SliceDirNameInjective(a: nat, b: nat)
    ensures SliceDirName(a) == SliceDirName(b) <==> a == b
    ensures |SliceDirName(a)| >= 10 && SliceDirName(a)[..6] == "slice_"
    ensures ParseDigits(SliceDirName(a)[6..]) == a
  {
    FormatD04Properties(a);
    assert SliceDirName(a)[6..] == FormatD04(a);
    if SliceDirName(a) == SliceDirName(b) {
      assert FormatD04(a) == SliceDirName(a)[6..] == SliceDirName(b)[6..] == FormatD04(b);
      FormatD04Injective(a, b);
    }
  }

  lemma SliceDirNameNoSlash(index: nat)
    ensures NoSlash(SliceDirName(index))
  {
    FormatD04Properties(index);
    var f := FormatD04(index);
    forall i | 0 <= i < |SliceDirName(index)| ensures SliceDirName(index)[i] != '/' {
      if i >= 6 {
        assert SliceDirName(index)[i] == f[i - 6];
        assert IsDigit(f[i - 6]);
      }
    }
  }

  // ---------------------------------------------------------------------------
  // Slice arithmetic
  // ---------------------------------------------------------------------------

  /** `start_slice` (line 784): the slice after the restored one, or 0. */
  function StartSlice(restoreSlice: int): int
  {
    if restoreSlice >= 0 then restoreSlice + 1 else 0
  }

  /** The guard `start_slice < 0` (line 785) can never fire. */
  lemma StartSliceNonNegative(restoreSlice: int)
    ensures StartSlice(restoreSlice) >= 0
    ensures restoreSlice >= 0 ==> StartSlice(restoreSlice) == restoreSlice + 1 > restoreSlice
  {
  }

  /** `delta = max(0, (s + 1) * T - now)`: the request is never negative, and from
      a tick at or before the slice's end it reaches that end exactly. */
  function SliceDelta(s: nat, sliceTicks: nat, now: nat): (delta: nat)
    ensures now <= (s + 1) * sliceTicks ==> now + delta == (s + 1) * sliceTicks
    ensures now >= (s + 1) * sliceTicks ==> delta == 0
  {
    var sliceEndTick := (s + 1) * sliceTicks;
    if sliceEndTick - now > 0 then sliceEndTick - now else 0
  }

  /** `_dump_stats_with_marker`: dump, then reset (the marker lines it prints are not modelled). */
  function DumpStatsWithMarker(): seq<Action>
  {
    [DumpStats, ResetStats]
  }

  /** What happens at the end of slice `s`: dump and reset, then the checkpoint
      `ckpt_dir/slice_{s:04d}` if slices are saved. */
  function SliceBoundary(o: RunOptions, s: nat): seq<Action>
  {
    DumpStatsWithMarker() + if o.saveSlices then [Checkpoint(Join(o.ckptDir, SliceDirName(s)))] else []
  }

  // ---------------------------------------------------------------------------
  // Specification of the two loops
  // ---------------------------------------------------------------------------

  datatype Partial = Partial(trace: seq<Action>, end: RunEnd, tick: nat)

  function Then(pre: seq<Action>, p: Partial): Partial
  {
    Partial(pre + p.trace, p.end, p.tick)
  }

  /** The sliced loop from slice `s` on, at tick `now`, with the substrate's remaining answers `evs`. */
  function SlicedFrom(o: RunOptions, evs: seq<StopEvent>, s: nat, now: nat): Partial
    decreases o.slices - s
  {
    if s >= o.slices then Partial([], UnboundEvent, now)
    else
      var delta := SliceDelta(s, o.sliceTicks, now);
      if evs == [] then Partial([Simulate(Some(delta))], Hung, now)
      else
        Then([Simulate(Some(delta))] + SliceBoundary(o, s),
             SlicedFrom(o, evs[1..], s + 1, now + Min(evs[0].after, delta)))
  }

  /** How the plain loop treats a stop cause, tested in this order. */
  datatype CauseKind = CheckpointRequest | WorkBegin | WorkEnd | Terminal

  function Classify(cause: string): CauseKind
  {
    if cause == "checkpoint" then CheckpointRequest
    else if Contains(cause, "workbegin") then WorkBegin
    else if Contains(cause, "workend") then WorkEnd
    else Terminal
  }

  /** The leaf of a checkpoint the substrate asked for: `"cpt.%d" % m5.curTick()`. */
  function TickCheckpointName(tick: nat): string
  {
    "cpt." + Digits(tick)
  }

  /** The plain loop (`while True`) at tick `now` with the substrate's remaining answers `evs`. */
  function PlainFrom(ckptDir: string, evs: seq<StopEvent>, now: nat): Partial
    decreases |evs|
  {
    if evs == [] then Partial([Simulate(None)], Hung, now)
    else
      var now' := now + evs[0].after;
      match Classify(evs[0].cause)
      case CheckpointRequest =>
        Then([Simulate(None), Checkpoint(Join(ckptDir, TickCheckpointName(now')))], PlainFrom(ckptDir, evs[1..], now'))
      case WorkBegin => Then([Simulate(None), ResetStats], PlainFrom(ckptDir, evs[1..], now'))
      case WorkEnd => Then([Simulate(None), DumpStats, ResetStats], PlainFrom(ckptDir, evs[1..], now'))
      case Terminal => Partial([Simulate(None)], Exited(evs[0].code), now')
  }

  /** `run(options)` from tick `tick0`. */
  function RunSpec(o: RunOptions, evs: seq<StopEvent>, tick0: nat): RunResult
  {
    var p := Then([MakeDirs(o.ckptDir)],
                  if o.sliceRun then SlicedFrom(o, evs, StartSlice(o.restoreSlice), tick0)
                  else PlainFrom(o.ckptDir, evs, tick0));
    RunResult(p.trace, p.end, p.tick)
  }

  // ---------------------------------------------------------------------------
  // run
  // ---------------------------------------------------------------------------

  lemma ThenThen(a: seq<Action>, b: seq<Action>, p: Partial)
    ensures Then(a, Then(b, p)) == Then(a + b, p)
  {
    assert a + (b + p.trace) == (a + b) + p.trace;
  }

  /** One turn of the sliced loop, as the loop method's invariant needs it. */
  lemma SlicedStep(o: RunOptions, evs: seq<StopEvent>, next: nat, s: nat, now: nat, trace: seq<Action>)
    requires next < |evs| && s < o.slices
    ensures
      var delta := SliceDelta(s, o.sliceTicks, now);
      Then(trace, SlicedFrom(o, evs[next..], s, now)) ==
      Then(trace + [Simulate(Some(delta))] + SliceBoundary(o, s),
           SlicedFrom(o, evs[next + 1..], s + 1, now + Min(evs[next].after, delta)))
  {
    var delta := SliceDelta(s, o.sliceTicks, now);
    var rest := evs[next..];
    assert rest[1..] == evs[next + 1..];
    ThenThen(trace, [Simulate(Some(delta))] + SliceBoundary(o, s), SlicedFrom(o, rest[1..], s + 1, now + Min(rest[0].after, delta)));
    assert trace + ([Simulate(Some(delta))] + SliceBoundary(o, s)) == trace + [Simulate(Some(delta))] + SliceBoundary(o, s);
  }

  /** The sliced loop (lines 789-802) from slice `s0` at tick `tick0`. */
  method RunSliced(o: RunOptions, evs: seq<StopEvent>, s0: nat, tick0: nat) returns (p: Partial)
    ensures p == SlicedFrom(o, evs, s0, tick0)
  {
    var sliceTicks := o.sliceTicks;
    var trace: seq<Action> := [];
    var now: nat := tick0;
    var next := 0;
    var s: nat := s0;
    var end := UnboundEvent;
    while s < o.slices
      invariant next <= |evs|
      invariant Then(trace, SlicedFrom(o, evs[next..], s, now)) == SlicedFrom(o, evs, s0, tick0)
      decreases o.slices - s
    {
      var sliceEndTick := (s + 1) * sliceTicks;
      var delta := if sliceEndTick - now > 0 then sliceEndTick - now else 0;
      assert delta == SliceDelta(s, sliceTicks, now);
      if next == |evs| {
        SlicedHung(o, evs[next..], s, now, trace);
        trace := trace + [Simulate(Some(delta))];
        end := Hung;
        break;
      }
      var ev := evs[next];
      var now' := now + Min(ev.after, delta);
      SlicedStep(o, evs, next, s, now, trace);
      ghost var trace0 := trace;
      trace := trace + [Simulate(Some(delta))];
      trace := trace + DumpStatsWithMarker();
      if o.saveSlices {
        trace := trace + [Checkpoint(Join(o.ckptDir, SliceDirName(s)))];
      }
      assert trace == trace0 + [Simulate(Some(delta))] + SliceBoundary(o, s);
      next := next + 1;
      now := now';
      s := s + 1;
    }
    if end == UnboundEvent {
      assert Then(trace, SlicedFrom(o, evs[next..], s, now)) == Partial(trace + [], UnboundEvent, now);
      assert trace + [] == trace;
    }
    p := Partial(trace, end, now);
  }

  /** The sliced loop when the substrate has no answer left: the call hangs. */
  lemma SlicedHung(o: RunOptions, evs: seq<StopEvent>, s: nat, now: nat, trace: seq<Action>)
    requires evs == [] && s < o.slices
    ensures Then(trace, SlicedFrom(o, evs, s, now)) == Partial(trace + [Simulate(Some(SliceDelta(s, o.sliceTicks, now)))], Hung, now)
  {
  }

  /** The plain loop (lines 806-823) at tick `tick0`. */
  method RunPlain(ckptDir: string, evs: seq<StopEvent>, tick0: nat) returns (p: Partial)
    ensures p == PlainFrom(ckptDir, evs, tick0)
  {
    var trace: seq<Action> := [];
    var now: nat := tick0;
    var next := 0;
    var end := Hung;
    while true
      invariant next <= |evs|
      invariant Then(trace, PlainFrom(ckptDir, evs[next..], now)) == PlainFrom(ckptDir, evs, tick0)
      decreases |evs| - next
    {
      if next == |evs| {
        trace := trace + [Simulate(None)];
        break;
      }
      ghost var rest := evs[next..];
      assert rest[1..] == evs[next + 1..];
      var event := evs[next];
      var now' := now + event.after;
      var exitMsg := event.cause;
      if exitMsg == "checkpoint" {
        ThenThen(trace, [Simulate(None), Checkpoint(Join(ckptDir, TickCheckpointName(now')))], PlainFrom(ckptDir, rest[1..], now'));
        trace := trace + [Simulate(None), Checkpoint(Join(ckptDir, "cpt." + Digits(now')))];
      } else if Contains(exitMsg, "workbegin") {
        ThenThen(trace, [Simulate(None), ResetStats], PlainFrom(ckptDir, rest[1..], now'));
        trace := trace + [Simulate(None), ResetStats];
      } else if Contains(exitMsg, "workend") {
        ThenThen(trace, [Simulate(None), DumpStats, ResetStats], PlainFrom(ckptDir, rest[1..], now'));
        trace := trace + [Simulate(None), DumpStats, ResetStats];
      } else {
        trace := trace + [Simulate(None)];
        end := Exited(event.code);
        now := now';
        break;
      }
      next := next + 1;
      now := now';
    }
    p := Partial(trace, end, now);
  }

  /** `run(options)`: the substrate answers the successive `simulate` calls with `evs`;
      the simulated clock starts at `tick0` (after a restore it need not be 0). */
  method Run(o: RunOptions, evs: seq<StopEvent>, tick0: nat) returns (r: RunResult)
    ensures r == RunSpec(o, evs, tick0)
  {
    var trace := [MakeDirs(o.ckptDir)];
    var startSlice := if o.restoreSlice >= 0 then o.restoreSlice + 1 else 0;
    if startSlice < 0 {
      assert false;
    }
    var p: Partial;
    if o.sliceRun {
      p := RunSliced(o, evs, startSlice, tick0);
    } else {
      p := RunPlain(o.ckptDir, evs, tick0);
    }
    r := RunResult(trace + p.trace, p.end, p.tick);
  }
}
