# A verified model of the D9300 simulation scripts, the GemminiDevA driver, the NPU stub and the top-down statistics

This project models five pieces of a gem5 fork for a big/middle/little Arm platform (the MediaTek Dimensity 9300):

- **The slice-run controller** (`configs/example/arm/arm_multicore_d9300.py`). `run` either cuts the simulation into slices of `slice_ticks` ticks, or runs until an exit event.
  - In sliced mode, each slice ends with a statistics dump and reset, and optionally a checkpoint saved to `ckpt_dir/slice_NNNN`.
  - In plain mode, the loop reacts to `checkpoint`, `workbegin` and `workend` stop causes.
  - `_resolve_slice_dir` and `instantiate` find a saved slice again and decide what to restore from.
  - `_using_pdes` and `_build_kvm` deal with event queues.
  - `build` does the validation and attachment: it creates one cluster per populated tier, checks their memory modes, collects `all_cpus`, ties the Gemmini accelerator to one CPU and places the NPU's and the accelerator's DMA ports.
- **`ArmO3CPUWithMonitor`** (`configs/common/cores/arm/O3_ARM_Monitor.py`). It binds the CPU's cache ports either directly or through a `CommMonitor`, and builds the `_cached_ports` list.
- **The GemminiDevA Linux driver** (`tests/test-progs/gemmini-apps/driver/gemmini_dev_a_drv.c`):
  - `gemmini_calc_sizes`, with its checked u64 products;
  - the ioctl handler's checks, allocations, register writes and clean-up;
  - the MMIO resource that module init registers.
- **The NPU stub device** (`src/dev/npu/npu_device.cc`): its MMIO window, identity DMA translation and fixed access latency.
- **The O3 CPU's top-down analysis formulas** (`src/cpu/o3/tdm.cc`), over exact reals.

## How the model is built

- **The simulator is a parameter.** Each call to `m5.simulate` is answered by the next `StopEvent` of a finite sequence. The event gives the ticks until the simulator stops on its own, the cause and the exit code. When the sequence is used up, the call never returns (`Hung`). `run` is an imperative method with loop invariants (`SliceRun.Run`, `RunSliced`, `RunPlain`). It is proved equal to the specification function `RunSpec`, and module `SliceRunProperties` proves what `run` promises about `RunSpec`.
- **`build` and the monitor CPU mutate objects**, so they are classes (`Topology.System`, `Monitor.O3CpuWithMonitor`):
  - their methods state their whole new state;
  - code that the sources run through `exec` becomes port roles, not string evaluation;
  - bindings are recorded in order;
  - a cluster's `memory_mode()` and whether `addCaches` created a `toSLCBus` are parameters.
- **The driver's kernel is an environment (`Env`).** It says whether each copy from or to user space succeeds, whether each `dma_alloc_coherent` succeeds and the DMA address it returns, and whether `gemmini_wait_done` times out.
  - What the driver does is a trace of `Action`s: lock, allocate, copy, register write, free, unlock.
  - `SIZE_MAX` is the parameter `sizeMax`: 2^32−1 or 2^64−1. The `unsigned long` module parameters of init and the probe's `size_t` window size have that width too, so the resource end wraps at `sizeMax + 1`.
  - `gemmini_calc_sizes` is a method over u64 values that wrap, with the overflow checks written out. It is proved equal to an exact-arithmetic specification.
- **The NPU's operations and the top-down formulas are pure**, so they are functions.

## What the sources do that is easy to miss (all modelled as written)

1. **The sliced path of `run` always fails at the end.** It ends in `sys.exit(event.getCode())` with `event` never assigned, which raises `UnboundLocalError` (line 825). The sliced loop also ignores every stop cause.
2. **Two-model CPU types fail.** The entries `timing`, `kvm` and `fastmodel` of `cpu_types` have two models, so `build`'s three-way unpack (line 569) raises `ValueError`. As a result `_build_kvm` is never reached from `build`.
3. **The memory-mode test of lines 597-605 follows Python precedence:** `a and b and c and d or e`.
   - It reads `system.bigCluster` and `system.littleCluster` even when they were not created. That is an `AttributeError` in the model (`MissingCluster`).
   - So a build gets past it only with big and little CPUs.
   - The "no CPUs were created" Gemmini panic therefore cannot fire.
4. **The guard `start_slice < 0` (line 785) can never fire.**
5. **Some opcodes never look at `k_size`.**
   - RELU and MM/MM_GEMM ignore it. MM sizes its kernel buffer as `m_size²`, so `k_size = 0` is accepted for MM.
   - On a 64-bit kernel, RELU succeeds exactly for `m_size < 2^31`. The limit is the 4-byte element size, not the square.
6. **Kernel-sized CONV3D_GEMM requests always overflow.** With sides of 2^11, the `m³·k³` input count overflows u64, so the request returns `-EINVAL`.

## Model

| member | source | states |
|---|---|---|
| Strings.Digits | configs/example/arm/arm_multicore_d9300.py:811 | `str(n)`/`"%d"` of a natural: at least one digit, all digits, no leading zero; `ParseDigitsOfDigits` shows it reads back to `n` |
| Strings.ParseDigitsOfDigits | configs/example/arm/arm_multicore_d9300.py:811 | the decimal text of `n` parses back to `n` (so tick-named checkpoints `cpt.N` are distinct per tick) |
| Strings.FormatD04Properties | configs/example/arm/arm_multicore_d9300.py:729 | `{n:04d}` of a non-negative index is all digits, at least 4 long, exactly 4 when `n < 1000`, ends in `str(n)`, never truncated, and parses back to `n` |
| Strings.FormatD04Injective | configs/example/arm/arm_multicore_d9300.py:729 | `{a:04d} == {b:04d}` only if `a == b` for non-negative indices |
| Strings.DirnameOfJoin | configs/example/arm/arm_multicore_d9300.py:728-734 | `os.path.dirname(os.path.join(base, leaf))` is `base` for a normalised absolute `base` and a leaf without `/` |
| Strings.JoinNormal | configs/example/arm/arm_multicore_d9300.py:728-730 | joining a plain leaf other than `.` and `..` to a path in `normpath` normal form gives a path in normal form, which `os.path.abspath` returns unchanged |
| Strings.ContainsAt | configs/example/arm/arm_multicore_d9300.py:814-817 | the `sub in s` test holds exactly when `sub` occurs at some position of `s` |
| Strings.SortStrings | configs/example/arm/arm_multicore_d9300.py:736 | `sorted(...)` of the directory entries is lexicographically sorted and a permutation of them |
| Strings.Insert | configs/example/arm/arm_multicore_d9300.py:736 | inserting into a sorted list keeps it sorted and adds exactly that element |
| Strings.LexLeTotal | configs/example/arm/arm_multicore_d9300.py:736 | Python's string `<=` is total |
| Strings.LexLeTransitive | configs/example/arm/arm_multicore_d9300.py:736 | Python's string `<=` is transitive |
| SliceRun.SliceDirNameInjective | configs/example/arm/arm_multicore_d9300.py:729-800 | `slice_{i:04d}` names are equal iff the indices are, start with `slice_`, have at least 10 characters, and their digits read back to the index |
| SliceRun.SliceDirNameNoSlash | configs/example/arm/arm_multicore_d9300.py:729-800 | a slice directory name contains no `/`, so it is one path component |
| SliceRun.StartSliceNonNegative | configs/example/arm/arm_multicore_d9300.py:784-786 | the start slice is never negative (the panic at 786 is unreachable), and is `restore_slice + 1` when one was restored |
| SliceRun.SliceDelta | configs/example/arm/arm_multicore_d9300.py:791-793 | `max(0, (s+1)*T - now)` is a natural that lands exactly on `(s+1)*T` from at or before it, and is 0 from past it |
| SliceRun.SlicedStep | configs/example/arm/arm_multicore_d9300.py:790-802 | one turn of the sliced loop: the simulate request of `SliceDelta`, the slice boundary, then the rest of the loop |
| SliceRun.SlicedHung | configs/example/arm/arm_multicore_d9300.py:795 | with no answer left, the loop's next `simulate(delta)` never returns and the clock stays put |
| SliceRun.RunSliced | configs/example/arm/arm_multicore_d9300.py:789-802 | the sliced `for` loop produces exactly `SlicedFrom`: trace, end and final tick |
| SliceRun.RunPlain | configs/example/arm/arm_multicore_d9300.py:806-823 | the `while True` loop produces exactly `PlainFrom` |
| SliceRun.Run | configs/example/arm/arm_multicore_d9300.py:781-825 | `run` makes the checkpoint directory, then runs the sliced or plain loop, equal to `RunSpec` |
| SliceRunProperties.NonSimulateAppend | configs/example/arm/arm_multicore_d9300.py:790-802 | the non-`simulate` actions of a concatenation are those of the parts, in order |
| SliceRunProperties.CountSimulateAppend | configs/example/arm/arm_multicore_d9300.py:790-802 | `simulate` calls of a concatenation add up |
| SliceRunProperties.Completed | configs/example/arm/arm_multicore_d9300.py:790 | the number of slices of `range(s, slices)` that complete is bounded by the answers and the slices left, and is short of the slices left only when the answers run out |
| SliceRunProperties.SliceBoundaryFacts | configs/example/arm/arm_multicore_d9300.py:774-802 | a slice boundary holds no `simulate`, one dump and one reset |
| SliceRunProperties.SliceBoundaryCounts | configs/example/arm/arm_multicore_d9300.py:776-777 | a slice boundary dumps once and resets once |
| SliceRunProperties.SliceChunkFacts | configs/example/arm/arm_multicore_d9300.py:795-802 | a completed slice adds one `simulate` call and then its boundary actions |
| SliceRunProperties.SlicedUnfold | configs/example/arm/arm_multicore_d9300.py:790-802 | a completed slice is its chunk followed by the loop from the next slice at the tick the simulator stopped |
| SliceRunProperties.SlicedBoundaries | configs/example/arm/arm_multicore_d9300.py:790-802 | apart from `simulate`, the sliced loop does exactly the boundaries of the slices `s, s+1, …` it completes, one per answer whatever its cause |
| SliceRunProperties.SlicedSimulateCalls | configs/example/arm/arm_multicore_d9300.py:795 | one `simulate` per completed slice, plus one when the loop hangs |
| SliceRunProperties.SlicedEnd | configs/example/arm/arm_multicore_d9300.py:790-825 | the sliced path never exits with a code: it hangs when the answers run out before the last slice, else raises `UnboundLocalError` |
| SliceRunProperties.SlicedIgnoresCauses | configs/example/arm/arm_multicore_d9300.py:795-798 | the sliced loop's result does not depend on the causes or codes the simulator reports |
| SliceRunProperties.SlicedTickBounds | configs/example/arm/arm_multicore_d9300.py:791-795 | the clock never goes back and never passes the end of the last slice |
| SliceRunProperties.SlicedTickExact | configs/example/arm/arm_multicore_d9300.py:791-795 | when the simulator never stops early, the run ends exactly at `slices * slice_ticks` (or where it started, if later) |
| SliceRunProperties.SliceLandsOnEnd | configs/example/arm/arm_multicore_d9300.py:791-802 | a slice the simulator does not cut short ends at its end tick `(s+1) * slice_ticks` (or stays where it was if already past it), and the loop goes on from there |
| SliceRunProperties.BoundaryCheckpoints | configs/example/arm/arm_multicore_d9300.py:799-802 | the boundaries of `n` slices checkpoint to a path iff slices are saved and it is `ckpt_dir/slice_{j:04d}` for one of those slices |
| SliceRunProperties.BoundaryStatCounts | configs/example/arm/arm_multicore_d9300.py:798 | the boundaries of `n` slices dump `n` times and reset `n` times |
| SliceRunProperties.BoundaryOrderedAppend | configs/example/arm/arm_multicore_d9300.py:774-778 | dump-then-reset ordering is kept by concatenating at a `simulate` |
| SliceRunProperties.SlicedOrdered | configs/example/arm/arm_multicore_d9300.py:774-802 | in the sliced trace every dump is immediately followed by a reset, and every checkpoint immediately follows a dump and reset |
| SliceRunProperties.ChunkOrdered | configs/example/arm/arm_multicore_d9300.py:795-802 | one completed slice is ordered: `simulate`, dump, reset, then the checkpoint if any |
| SliceRunProperties.SavedSliceIndex | configs/example/arm/arm_multicore_d9300.py:784-802 | a checkpoint of a sliced run is `ckpt_dir/slice_{j:04d}` for a completed slice `j` between the start slice and `slices`, and only when slices are saved |
| SliceRunProperties.SlicedRunCheckpoints | configs/example/arm/arm_multicore_d9300.py:784-825 | a sliced run writes checkpoints exactly to `ckpt_dir/slice_{j:04d}` for the completed slices `j` from `start_slice` on (none if not saving), dumps and resets once per completed slice, and never exits with a code |
| SliceRunProperties.SlicedRunNonSimulate | configs/example/arm/arm_multicore_d9300.py:781-802 | apart from its simulate calls a sliced run is `os.makedirs(ckpt_dir)` followed by the boundaries of the slices it completed, and it never exits with a code |
| SliceRunProperties.NonSimulateKeeps | configs/example/arm/arm_multicore_d9300.py:790-802 | dropping `simulate` calls keeps every other action |
| SliceRunProperties.MultisetNonSimulate | configs/example/arm/arm_multicore_d9300.py:790-802 | dropping `simulate` calls keeps the count of every other action |
| SliceRunProperties.ClassifyIff | configs/example/arm/arm_multicore_d9300.py:809-823 | the cause tests in source order: exactly `"checkpoint"`, else contains `workbegin`, else contains `workend`, else terminal |
| SliceRunProperties.FirstTerminal | configs/example/arm/arm_multicore_d9300.py:821-823 | the first answer with a terminal cause: no earlier answer is terminal and it is, or there is none |
| SliceRunProperties.CountKind | configs/example/arm/arm_multicore_d9300.py:809-820 | counts the answers of one cause kind, at most all of them |
| SliceRunProperties.PlainUnfold | configs/example/arm/arm_multicore_d9300.py:806-820 | a non-terminal answer is one step of the plain loop, then the loop at the new tick |
| SliceRunProperties.PlainOutcome | configs/example/arm/arm_multicore_d9300.py:806-825 | the plain loop exits at the first terminal cause with that event's code, calls `simulate` once per answer up to it, and its clock advances by those answers; with no terminal cause it blocks in one more call |
| SliceRunProperties.PlainEnd | configs/example/arm/arm_multicore_d9300.py:821-825 | the plain loop's end: `sys.exit` with the first terminal event's code, or hung |
| SliceRunProperties.PlainSimulateCalls | configs/example/arm/arm_multicore_d9300.py:807 | the plain loop calls `simulate` once more than the non-terminal answers before the first terminal one |
| SliceRunProperties.StepSimulates | configs/example/arm/arm_multicore_d9300.py:807-820 | each plain step calls `simulate` exactly once |
| SliceRunProperties.PlainTick | configs/example/arm/arm_multicore_d9300.py:807 | the plain loop's final tick is the start plus the ticks of the answers up to and including the terminal one |
| SliceRunProperties.PlainCheckpoints | configs/example/arm/arm_multicore_d9300.py:806-813 | the plain loop writes a checkpoint to a path iff some answer before the first terminal one is a `checkpoint` request and the path is `ckpt_dir/cpt.<tick>` for the tick the simulator stopped at for it |
| SliceRunProperties.PlainRunCheckpoints | configs/example/arm/arm_multicore_d9300.py:781-813 | a plain run writes exactly those checkpoints, starting from its initial tick |
| SliceRunProperties.PlainStatCounts | configs/example/arm/arm_multicore_d9300.py:814-820 | the plain loop dumps once per `workend` and resets once per `workbegin` or `workend` before the terminal cause |
| SliceRunProperties.StepCounts | configs/example/arm/arm_multicore_d9300.py:809-820 | one plain step dumps only for `workend` and resets for `workbegin` and `workend` |
| SliceRunProperties.PlainRunEnd | configs/example/arm/arm_multicore_d9300.py:805-825 | a plain run blocks iff no answer is terminal, and otherwise exits with the first terminal answer's code |
| Restore.ResolveSliceDir | configs/example/arm/arm_multicore_d9300.py:727-745 | succeeds iff `base/slice_{r:04d}` is a directory and returns that path; otherwise the panic names that path and its parent, which is `base` |
| Restore.ResolveParent | configs/example/arm/arm_multicore_d9300.py:734 | the parent of the slice directory is the checkpoint directory itself |
| Restore.SliceDirNormal | configs/example/arm/arm_multicore_d9300.py:728-730 | the slice directory built from a base in normal form is in normal form, so the final `os.path.abspath` leaves it as it is |
| Restore.ZeroPadDigits | configs/example/arm/arm_multicore_d9300.py:729 | zero-padding a digit string leaves only digits |
| Restore.PanicListsSortedEntries | configs/example/arm/arm_multicore_d9300.py:733-744 | when the parent can be listed, the panic lists each of its entries once, sorted, joined by `", "` |
| Restore.PanicShowsListingError | configs/example/arm/arm_multicore_d9300.py:733-738 | when the parent cannot be listed, the panic's entries text is `<cannot list base: e>` with the listing error `e` |
| Restore.SavedSliceIsRestored | configs/example/arm/arm_multicore_d9300.py:727-802 | for a `--ckpt-dir` in normal form, every checkpoint a sliced run writes means slices were being saved, is itself in normal form, and is the directory of a slice `j` the run completed from its start slice on; `--restore-slice j` with the same checkpoint directory resolves to exactly that path when it is a directory |
| Restore.SliceDirsDistinct | configs/example/arm/arm_multicore_d9300.py:729-800 | distinct slices are distinct directories |
| Restore.InstantiateRestore | configs/example/arm/arm_multicore_d9300.py:746-769 | only `restore_slice >= 0` resolves a slice; then it restores from exactly that absolute directory or panics when it is missing; otherwise `restore_from` is unchanged and used iff non-empty |
| Restore.InstantiateCheckpointPath | configs/example/arm/arm_multicore_d9300.py:760-767 | a relative `restore_from` is joined to a given `checkpoint_dir`; an absolute one, or none given, is used as it is |
| Restore.InstantiateQuantum | configs/example/arm/arm_multicore_d9300.py:751-757 | the quantum is set iff there is a root and some descendant has a concrete event queue other than the root's, and then it is the converted `sim_quantum` |
| EventQueues.Descendants | configs/example/arm/arm_multicore_d9300.py:85 | `descendants()` starts with the object itself |
| EventQueues.AnyOwnQueueIff | configs/example/arm/arm_multicore_d9300.py:82-92 | the early-return loop is true iff some object in the list has a concrete queue other than the root's |
| EventQueues.UsingPdesIff | configs/example/arm/arm_multicore_d9300.py:82-92 | `_using_pdes(root)` iff some descendant's `eventq_index` is concrete and differs from the root's |
| EventQueues.TwoQueuesMeanPdes | configs/example/arm/arm_multicore_d9300.py:82-92 | two objects on different concrete queues anywhere under the root mean PDES mode |
| EventQueues.SetQueueAll | configs/example/arm/arm_multicore_d9300.py:723-724 | assigning a queue to every descendant sets the object's own queue and keeps the tree shape |
| EventQueues.SetQueueAllReachesDescendants | configs/example/arm/arm_multicore_d9300.py:723-724 | after the assignment every descendant is on that queue |
| EventQueues.AssignKvmQueues | configs/example/arm/arm_multicore_d9300.py:716-725 | with at most one CPU nothing changes; with more, CPU `i` becomes `KvmCpu(cpu, i)` |
| EventQueues.KvmQueues | configs/example/arm/arm_multicore_d9300.py:716-725 | after `_build_kvm` with more than one CPU, CPU `i` is on queue `1+i`, the CPUs' queues are pairwise distinct and every object below a CPU is on device queue 0 |
| Topology.CpuTypes | configs/example/arm/arm_multicore_d9300.py:208-220 | the table's keys are `atomic`, `timing`, `D9300` plus `kvm`/`fastmodel` when built in; `atomic` and `D9300` map to three-model tuples, `timing` to (BigCluster, LittleCluster), `kvm` and `fastmodel` to two copies of their own cluster, and exactly those three keys have two-model tuples |
| Topology.ClusterCpus | configs/example/arm/arm_multicore_d9300.py:574-594 | a cluster of `n` CPUs holds CPUs `0..n-1` of its tier, in order |
| Topology.System.constructor | configs/example/arm/arm_multicore_d9300.py:549-558 | the system from `createSystem` has no clusters or devices |
| Topology.System.Build | configs/example/arm/arm_multicore_d9300.py:566-680 | the checks and attachments of `build`, in order, leave the outcome, the system fields and `all_cpus` of `BuildSpec` |
| Topology.System.CreateClusters | configs/example/arm/arm_multicore_d9300.py:571-594 | one cluster per populated tier, each setting `mem_mode`, and `all_cpus` extended by its CPUs |
| Topology.System.AttachDevices | configs/example/arm/arm_multicore_d9300.py:608-680 | the accelerator with its CPU index check, the NPU and both DMA ports, as `DevicesSpec` |
| Topology.EmptyClustersPanic | configs/example/arm/arm_multicore_d9300.py:566-567 | `build` panics with "Empty CPU clusters" iff the three counts sum to 0, before creating anything |
| Topology.TwoEntryTypesFail | configs/example/arm/arm_multicore_d9300.py:569 | the two-model CPU types fail at the three-way unpack and create nothing |
| Topology.BuiltNeedsBigAndLittle | configs/example/arm/arm_multicore_d9300.py:597-605 | the memory-mode test reads the big cluster, then the little one, so it fails on whichever is missing |
| Topology.ModeMismatch | configs/example/arm/arm_multicore_d9300.py:597-606 | with big and little present, the panic fires iff (three tiers and big ≠ middle) or big ≠ little; otherwise all created clusters share `mem_mode` |
| Topology.AllCpusOrder | configs/example/arm/arm_multicore_d9300.py:571-594 | `all_cpus` holds the big, then middle, then little CPUs, each tier in index order, with exactly the positive counts |
| Topology.TiersInOrder | configs/example/arm/arm_multicore_d9300.py:578-594 | the concatenated clusters are in tier order |
| Topology.GemminiCpuChoice | configs/example/arm/arm_multicore_d9300.py:608-634 | the "no CPUs were created" panic never fires; a built accelerator is tied to `all_cpus[idx]` with `idx` in range; the index panic names an out-of-range index and the length |
| Topology.GemminiIndexChecked | configs/example/arm/arm_multicore_d9300.py:614-619 | the index check fires exactly for indices outside `[0, len(all_cpus))` |
| Topology.DeviceAttachment | configs/example/arm/arm_multicore_d9300.py:621-680 | the NPU exists iff enabled, sits on the IO bus with its options, and its DMA goes to `toSLCBus` when present else `membus`; likewise the accelerator's DMA and its `(addr, addr+size)` windows |
| Topology.KvmNeverBuilt | configs/example/arm/arm_multicore_d9300.py:641-642 | `build` never creates a KVM VM |
| Monitor.MmuWalkers | configs/common/cores/arm/O3_ARM_Monitor.py:48 | the MMU's walker ports become `_cached_ports` entries one for one |
| Monitor.CheckerWalkers | configs/common/cores/arm/O3_ARM_Monitor.py:52-55 | the checker's `"checker." + port` entries, one per walker port |
| Monitor.CachedStep | configs/common/cores/arm/O3_ARM_Monitor.py:20-26 | one more entry of the loop adds its own bindings and monitor |
| Monitor.O3CpuWithMonitor.constructor | configs/common/cores/arm/O3_ARM_Monitor.py:5 | a fresh CPU has no caches, monitors, bindings or cached ports |
| Monitor.O3CpuWithMonitor.ConnectMayWithMonitor | configs/common/cores/arm/O3_ARM_Monitor.py:6-15 | appends the direct binding, or the two bindings through a new `owner.<name>` monitor with a footprint probe; nothing else changes |
| Monitor.O3CpuWithMonitor.ConnectCachedPorts | configs/common/cores/arm/O3_ARM_Monitor.py:17-26 | binds every `_cached_ports` entry to `in_ports` in order, splicing an L1 monitor only for the two L1 memory sides; nothing else changes |
| Monitor.O3CpuWithMonitor.AddPrivateSplitL1Caches | configs/common/cores/arm/O3_ARM_Monitor.py:28-55 | stores the L1 caches, connects both CPU-side ports (through monitors when `cpu_monitor`), sets `_cached_ports`, and stores and links walker caches only when both are given |
| Monitor.SplicePreservesEndpoints | configs/common/cores/arm/O3_ARM_Monitor.py:6-15 | either way `mem_side` reaches `cpu_side`; with the monitor it goes only through the one new monitor, with no direct binding |
| Monitor.CachedBindingsAppend | configs/common/cores/arm/O3_ARM_Monitor.py:20-26 | the loop's bindings over a concatenation are those of the parts |
| Monitor.CachedPortsReachInPorts | configs/common/cores/arm/O3_ARM_Monitor.py:17-26 | every entry reaches `in_ports`; entries other than the L1 memory sides are bound directly; without `l1_monitor` every binding goes straight to `in_ports` |
| Monitor.CachedPortsContents | configs/common/cores/arm/O3_ARM_Monitor.py:37-55 | `_cached_ports` starts with the L1 memory sides, then the walker caches or the MMU walker ports, then the checker's walker ports, with the exact length |
| Monitor.WalkersMembers | configs/common/cores/arm/O3_ARM_Monitor.py:48-55 | a walker entry is in the list iff its port is among the walker ports |
| Monitor.MissingOptionsMeanNoMonitors | configs/common/cores/arm/O3_ARM_Monitor.py:18-29 | `getattr(options, …, False)`: with no options or no attributes, both monitor flags are off |
| Monitor.CpuMonitorsBoth | configs/common/cores/arm/O3_ARM_Monitor.py:29-35 | `cpu_monitor` adds both `iportmonitor` and `dportmonitor` or neither |
| GemminiDriver.Wrap64 | tests/test-progs/gemmini-apps/driver/gemmini_dev_a_drv.c:53-59 | u64 arithmetic keeps the value modulo 2^64, which is the value itself when it fits |
| GemminiDriver.IocRunValue | tests/test-progs/gemmini-apps/driver/gemmini_dev_a_ioctl.h:12-46 | `GEMMINI_DEV_A_IOC_RUN` is 0xC0284700 |
| GemminiDriver.OpcodeValue | tests/test-progs/gemmini-apps/driver/gemmini_dev_a_ioctl.h:14-24 | the enum values are 0 to 8 |
| GemminiDriver.OpcodeOf | tests/test-progs/gemmini-apps/driver/gemmini_dev_a_drv.c:64-142 | a value selects a case label iff it is at most 8, and it is that label's value |
| GemminiDriver.OpcodeRoundTrip | tests/test-progs/gemmini-apps/driver/gemmini_dev_a_ioctl.h:14-24 | each opcode is selected by its own value and by no other |
| GemminiDriver.CheckMulOverflow | tests/test-progs/gemmini-apps/driver/gemmini_dev_a_drv.c:68-164 | `check_mul_overflow` on u64 reports overflow iff the exact product exceeds 2^64−1, and stores the exact product otherwise |
| GemminiDriver.CalcSizes | tests/test-progs/gemmini-apps/driver/gemmini_dev_a_drv.c:47-167 | returns 0 or -EINVAL; 0 iff the exact specification accepts the request, and then the three byte lengths are the specification's |
| GemminiDriver.CountElements | tests/test-progs/gemmini-apps/driver/gemmini_dev_a_drv.c:64-142 | the `switch` succeeds iff the shape suits the opcode and every exact count fits in u64, and then yields the exact counts |
| GemminiDriver.PoolElements | tests/test-progs/gemmini-apps/driver/gemmini_dev_a_drv.c:116-126 | MAXPOOL succeeds iff `k_size > 0` and divides `m_size`, giving `m²`, 0 and `(m/k)²` |
| GemminiDriver.QuotientFits | tests/test-progs/gemmini-apps/driver/gemmini_dev_a_drv.c:124 | the unchecked `(m/k)*(m/k)` of u32 sides cannot overflow u64 |
| GemminiDriver.SquareFits | tests/test-progs/gemmini-apps/driver/gemmini_dev_a_drv.c:68-135 | `m_size * m_size` of a u32 never overflows u64 |
| GemminiDriver.CalcSizesRejects | tests/test-progs/gemmini-apps/driver/gemmini_dev_a_drv.c:61-141 | `m_size == 0` and an opcode outside the enum give -EINVAL, and -EINVAL is the only error |
| GemminiDriver.KSizeRules | tests/test-progs/gemmini-apps/driver/gemmini_dev_a_drv.c:65-139 | convolutions and pools reject `k_size == 0`; for RELU, MM and MM_GEMM the result does not depend on `k_size` |
| GemminiDriver.CalcSizesSuccess | tests/test-progs/gemmini-apps/driver/gemmini_dev_a_drv.c:65-164 | on success each opcode's byte lengths are 4× its element formulas |
| GemminiDriver.KBytesZero | tests/test-progs/gemmini-apps/driver/gemmini_dev_a_drv.c:125-158 | on success `k_bytes` is 0 exactly for the pools and RELU |
| GemminiDriver.KCountZero | tests/test-progs/gemmini-apps/driver/gemmini_dev_a_drv.c:65-139 | the exact kernel count is 0 exactly for the pools and RELU |
| GemminiDriver.ReluLimit | tests/test-progs/gemmini-apps/driver/gemmini_dev_a_drv.c:127-164 | on a 64-bit kernel RELU succeeds exactly for `0 < m_size < 2^31` |
| GemminiDriver.Conv3dGemmOverflows | tests/test-progs/gemmini-apps/driver/gemmini_dev_a_drv.c:101-115 | a CONV3D_GEMM request with sides 2^11 overflows the `m³·k³` count and is rejected |
| GemminiDriver.PoolOutputBounded | tests/test-progs/gemmini-apps/driver/gemmini_dev_a_drv.c:122-124 | the pooled output count is at most the input count, which fits in u64 |
| GemminiDriver.WiderSizeMaxAcceptsMore | tests/test-progs/gemmini-apps/driver/gemmini_dev_a_drv.c:146-162 | whatever a 32-bit kernel accepts, a 64-bit kernel accepts with the same sizes |
| GemminiDriver.Reverse | tests/test-progs/gemmini-apps/driver/gemmini_dev_a_drv.c:262-267 | reversal keeps the length |
| GemminiDriver.ReverseAt | tests/test-progs/gemmini-apps/driver/gemmini_dev_a_drv.c:262-267 | element `i` of the reversal is element `n-1-i` of the original: the clean-up frees the last allocation first |
| GemminiDriver.FreeAll | tests/test-progs/gemmini-apps/driver/gemmini_dev_a_drv.c:262-267 | one free per grant |
| GemminiDriver.FreeInReverse | tests/test-progs/gemmini-apps/driver/gemmini_dev_a_drv.c:262-267 | the three `if (buf) dma_free_coherent` free the held buffers in reverse allocation order |
| GemminiDriver.RunAllocs | tests/test-progs/gemmini-apps/driver/gemmini_dev_a_drv.c:212-230 | the allocations, each failure a `goto out` with -ENOMEM, equal `AllocSpec` |
| GemminiDriver.RunDevice | tests/test-progs/gemmini-apps/driver/gemmini_dev_a_drv.c:232-259 | copy-ins, clearing the output, the seven register writes, the wait and the copy-out equal `DeviceSpec` |
| GemminiDriver.RunCritical | tests/test-progs/gemmini-apps/driver/gemmini_dev_a_drv.c:212-259 | the critical section equals `CriticalSpec`, with the buffers it holds |
| GemminiDriver.RunLocked | tests/test-progs/gemmini-apps/driver/gemmini_dev_a_drv.c:210-270 | from `mutex_lock` to `mutex_unlock`, equal to `LockedSpec` |
| GemminiDriver.CleanUp | tests/test-progs/gemmini-apps/driver/gemmini_dev_a_drv.c:210-270 | the trace is the lock, the critical section, one free per held buffer in reverse allocation order, then the unlock |
| GemminiDriver.Ioctl | tests/test-progs/gemmini-apps/driver/gemmini_dev_a_drv.c:183-271 | the whole handler equals `IoctlSpec` |
| GemminiDriver.GrantedAppend | tests/test-progs/gemmini-apps/driver/gemmini_dev_a_drv.c:212-267 | grants and frees of a concatenated trace are those of the parts |
| GemminiDriver.FreeAllFreed | tests/test-progs/gemmini-apps/driver/gemmini_dev_a_drv.c:262-267 | the clean-up frees exactly the given grants and grants nothing |
| GemminiDriver.FreeAllAt | tests/test-progs/gemmini-apps/driver/gemmini_dev_a_drv.c:262-267 | the `i`-th free releases the `i`-th grant |
| GemminiDriver.DevicePlain | tests/test-progs/gemmini-apps/driver/gemmini_dev_a_drv.c:232-259 | the device stage neither locks, allocates nor frees |
| GemminiDriver.AllocGrants | tests/test-progs/gemmini-apps/driver/gemmini_dev_a_drv.c:212-230 | the allocation stage obtains exactly the grants it reports, succeeds iff every needed allocation does, and otherwise fails with -ENOMEM |
| GemminiDriver.AllocGranted | tests/test-progs/gemmini-apps/driver/gemmini_dev_a_drv.c:212-230 | its trace grants exactly its reported buffers and neither locks nor frees |
| GemminiDriver.CriticalGrants | tests/test-progs/gemmini-apps/driver/gemmini_dev_a_drv.c:212-259 | the critical section allocates exactly the grants it holds and neither locks nor frees |
| GemminiDriver.LockedPairing | tests/test-progs/gemmini-apps/driver/gemmini_dev_a_drv.c:210-269 | the locked part locks first, unlocks last, once each |
| GemminiDriver.EnclosePairing | tests/test-progs/gemmini-apps/driver/gemmini_dev_a_drv.c:210-269 | a quiet critical section between lock and unlock, with its frees, holds one lock at the start and one unlock at the end |
| GemminiDriver.LockedFrees | tests/test-progs/gemmini-apps/driver/gemmini_dev_a_drv.c:261-269 | every allocated buffer is freed once, in reverse order, nothing else is freed, and after the first free only frees and the unlock follow |
| GemminiDriver.EncloseFrees | tests/test-progs/gemmini-apps/driver/gemmini_dev_a_drv.c:261-269 | the same for any quiet critical section |
| GemminiDriver.EncloseFreed | tests/test-progs/gemmini-apps/driver/gemmini_dev_a_drv.c:261-267 | the enclosed trace grants the critical section's buffers and frees them in reverse |
| GemminiDriver.EncloseFreesLast | tests/test-progs/gemmini-apps/driver/gemmini_dev_a_drv.c:261-269 | after a free only frees and the unlock follow |
| GemminiDriver.NoFreeNothingFreed | tests/test-progs/gemmini-apps/driver/gemmini_dev_a_drv.c:212-259 | a trace without frees frees nothing |
| GemminiDriver.DeviceStart | tests/test-progs/gemmini-apps/driver/gemmini_dev_a_drv.c:232-252 | START is written iff both copy-ins succeed, right after the clear and the six parameter writes |
| GemminiDriver.CriticalStartShape | tests/test-progs/gemmini-apps/driver/gemmini_dev_a_drv.c:212-259 | a launching critical section is the allocations, the copy-ins, the seven preparations, START, then the wait and copy-out |
| GemminiDriver.CriticalStartOnce | tests/test-progs/gemmini-apps/driver/gemmini_dev_a_drv.c:212-259 | START is written nowhere else in it |
| GemminiDriver.CriticalNoStart | tests/test-progs/gemmini-apps/driver/gemmini_dev_a_drv.c:212-242 | a critical section with a failed allocation or copy-in never writes START |
| GemminiDriver.CriticalStartGrants | tests/test-progs/gemmini-apps/driver/gemmini_dev_a_drv.c:212-252 | by START every buffer has been allocated |
| GemminiDriver.LaunchGrants | tests/test-progs/gemmini-apps/driver/gemmini_dev_a_drv.c:212-230 | a launching run holds the input buffer, the kernel buffer when `k_bytes != 0`, and the output buffer |
| GemminiDriver.LaunchBlock | tests/test-progs/gemmini-apps/driver/gemmini_dev_a_drv.c:244-252 | in a launching run START is preceded by the clear and six register writes, with every buffer granted |
| GemminiDriver.StartPositions | tests/test-progs/gemmini-apps/driver/gemmini_dev_a_drv.c:244-252 | a START preceded by that block satisfies `StartPrepared` |
| GemminiDriver.EncloseStart | tests/test-progs/gemmini-apps/driver/gemmini_dev_a_drv.c:210-269 | a register write is in the locked trace iff it is in the critical section |
| GemminiDriver.PreStartElems | tests/test-progs/gemmini-apps/driver/gemmini_dev_a_drv.c:244-251 | the seven preparations are the clear, ADDR_M, ADDR_K (`k_dma` or 0), ADDR_O, SIZE_M, SIZE_K, OPCODE |
| GemminiDriver.LockedStart | tests/test-progs/gemmini-apps/driver/gemmini_dev_a_drv.c:210-269 | inside the lock START is written iff every allocation and copy-in succeeds, and every START follows the zeroed output and the six parameter registers (ADDR_K 0 without a kernel buffer) with all buffers allocated |
| GemminiDriver.IoctlLocked | tests/test-progs/gemmini-apps/driver/gemmini_dev_a_drv.c:195-210 | a refused request does nothing; an admitted one is the locked part |
| GemminiDriver.IoctlArgumentChecks | tests/test-progs/gemmini-apps/driver/gemmini_dev_a_drv.c:195-208 | a wrong command gives -ENOTTY, an unreadable request -EFAULT, a bad size the size error, a null input/output pointer -EINVAL, a null kernel pointer -EINVAL iff `k_bytes != 0`, all before the lock; the trace is non-empty iff admitted |
| GemminiDriver.IoctlLockPairing | tests/test-progs/gemmini-apps/driver/gemmini_dev_a_drv.c:210-269 | every path that locks takes the lock first and releases it last, once each |
| GemminiDriver.IoctlFreesEachOnce | tests/test-progs/gemmini-apps/driver/gemmini_dev_a_drv.c:261-269 | on every exit path each allocated buffer is freed exactly once, in reverse order, after the work |
| GemminiDriver.IoctlStartSequence | tests/test-progs/gemmini-apps/driver/gemmini_dev_a_drv.c:195-252 | START is written iff the checks pass and every allocation and copy-in succeeds, and always after the six parameter registers |
| GemminiDriver.IoctlReturn | tests/test-progs/gemmini-apps/driver/gemmini_dev_a_drv.c:183-271 | 0 iff everything succeeds; otherwise one of -ENOTTY, -EFAULT, -EINVAL, -ENOMEM, -ETIMEDOUT, with -ENOMEM for a failed input allocation and -ETIMEDOUT for a timeout |
| GemminiDriver.InitResource | tests/test-progs/gemmini-apps/driver/gemmini_dev_a_drv.c:376-389 | without a device-tree node init rejects `mmio_size == 0` with -EINVAL and otherwise registers `[mmio_base, mmio_base+mmio_size−1]` computed in `unsigned long` (modulo `SIZE_MAX+1`), and `end − start + 1` taken modulo `SIZE_MAX+1` gives back `mmio_size`; without wrap-around the range holds exactly `mmio_size` addresses, with it the end lies below the start |
| GemminiDriver.InitDefaults | tests/test-progs/gemmini-apps/driver/gemmini_dev_a_drv.c:29-30 | the default parameters register 0x40000000 to 0x40000fff on 32-bit and 64-bit kernels alike |
| NpuDevice.NewDevice | src/dev/npu/npu_device.cc:19-23 | the constructor copies `pioAddr`, `pioSize` and `pioDelay` from the parameters |
| NpuDevice.Read | src/dev/npu/npu_device.cc:34-42 | a read returns `pioDelay` and hands back the packet as a response with the same address and size |
| NpuDevice.Write | src/dev/npu/npu_device.cc:44-52 | a write returns `pioDelay` and hands back the packet as a response with the same address and size |
| NpuDevice.AddrRanges | src/dev/npu/npu_device.cc:54-62 | empty iff `pioSize == 0`, otherwise exactly the one range at `pioAddr` of size `pioSize` |
| NpuDevice.AddrRangesCover | src/dev/npu/npu_device.cc:54-62 | an address is served iff it lies in `[pioAddr, pioAddr + pioSize)` |
| NpuDevice.TranslateChunk | src/dev/npu/npu_device.cc:25-32 | translate sets `paddr` to `vaddr` and keeps `vaddr` and the size |
| NpuDevice.Translate | src/dev/npu/npu_device.cc:64-69 | the generator covers the requested `(vaddr, size)` |
| NpuDevice.ChunksIdentity | src/dev/npu/npu_device.cc:25-69 | every produced chunk has `paddr == vaddr`; a non-empty region is one chunk |
| NpuDevice.TranslateIdentity | src/dev/npu/npu_device.cc:25-69 | translating `(vaddr, size)` maps exactly the addresses of `[vaddr, vaddr+size)`, each to itself |
| NpuDevice.LatencyIndependent | src/dev/npu/npu_device.cc:34-52 | the latency is `pioDelay` for reads and writes alike, whatever the packet's address and size |
| NpuDevice.ReadIsWrite | src/dev/npu/npu_device.cc:34-52 | a read and a write of the same packet are handled alike |
| NpuDevice.DefaultDevice | src/dev/npu/NPUDevice.py:19-23 | the default parameters give one 0x1000-byte window at `pioAddr` and a 10 ns latency |
| TopDown.TopDownL1 | src/cpu/o3/tdm.cc:86-120 | `frontendBound·slots = fetchBubbles`, `badSpeculation·slots` is the wasted slots (renamed minus committed) plus the recovery slots of mispredictions detected at decode and at IEW, `retiring·slots = committedInst`, and the four categories sum to 1 |
| TopDown.L1Fractions | src/cpu/o3/tdm.cc:90-117 | with counts between 0 and the total slots, frontend bound and retiring lie in [0,1] |
| TopDown.FractionBounds | src/cpu/o3/tdm.cc:90-117 | a quotient of `0 <= a <= t` lies in [0,1] |
| TopDown.TopDownFrontendBoundL2 | src/cpu/o3/tdm.cc:138-141 | `fetchLatency·cycles = fetchBubblesMax`, and fetch latency plus fetch bandwidth is frontend bound |
| TopDown.BranchFraction | src/cpu/o3/tdm.cc:161-163 | the branch fraction times all mispeculation events is the branch mispredictions |
| TopDown.TopDownBadSpeculationL2 | src/cpu/o3/tdm.cc:157-169 | branch mispredicts are the branch fraction of bad speculation, and with machine clears they sum to bad speculation |
| TopDown.BranchFractionBounds | src/cpu/o3/tdm.cc:161-169 | for non-negative counts with a positive sum the fraction lies in [0,1], and both shares of a non-negative bad speculation are non-negative |
| TopDown.ShareBounds | src/cpu/o3/tdm.cc:165-169 | a [0,1] share of a non-negative total and its remainder are non-negative |
| TopDown.CoreBoundRaw | src/cpu/o3/tdm.cc:186-194 | raw memory bound plus raw core bound is the execution stalls |
| TopDown.TopDownBackendBoundL2 | src/cpu/o3/tdm.cc:186-202 | the execution-stall formula, memory bound in proportion of raw memory to execution stalls, and memory bound plus core bound is backend bound |
| TopDown.SplitTwo | src/cpu/o3/tdm.cc:199-202 | two proportional shares of a total add up to it |
| TopDown.TotalMemoryBound | src/cpu/o3/tdm.cc:235-250 | the five raw level-3 terms sum to the raw level-2 memory bound (the miss counts cancel) |
| TopDown.Telescope | src/cpu/o3/tdm.cc:235-250 | the miss counts cancel in the sum |
| TopDown.TopDownBackendBoundL3 | src/cpu/o3/tdm.cc:231-256 | the five level-3 shares sum to the level-2 memory bound, and each share (L1, L2, L3, external memory, store) times the raw total is its raw term times the memory bound |
| TopDown.ShareOut | src/cpu/o3/tdm.cc:252-256 | a total shared out in proportion to five terms: the shares sum to the total, and each is its term's proportion of it |
| TopDown.SplitFive | src/cpu/o3/tdm.cc:252-256 | five proportional shares of a total add up to it |
| TopDown.LeavesPartitionSlots | src/cpu/o3/tdm.cc:86-256 | the leaves of the tree (fetch latency and bandwidth, branch mispredicts and machine clears, the five memory shares, core bound, retiring) sum to 1 |

## Left out

- I/O and the simulator library: `print`, `m5.util.inform`, the marker lines of `_dump_stats_with_marker`, `m5.simulate`, `m5.stats`, `m5.checkpoint`, `m5.instantiate`, `m5.curTick` and `_to_ticks`/`_to_tick`. The simulator is the `StopEvent` sequence; tick conversion happens before the model (`sliceTicks`, `simQuantum` are already in ticks).
- `os.path.abspath`/`normpath` of `ckpt_dir`: the model does not compute them. It takes a base already in normal form (`NormalAbsolute`: absolute, no empty component except a leading `//`, no `.` or `..` component, no trailing `/`), for which both return it unchanged. `os.makedirs` is only recorded as an action.
- SavedSliceIsRestored: the round trip is stated only for a `--ckpt-dir` that is absolute and in normal form, as the default `os.path.abspath(os.path.join(outdir, "ckpts"))` is. For a relative or non-normal one the run saves under the raw string, while the restore resolves its normalised absolute form. Relating the two would need the working directory and `normpath`, which the model does not compute, and through a symbolic link they can even name different directories.
- The `build` steps that only call library code: the kernel command line, disks, `createSystem`, `addCaches`, the device tree, the FastModel/SystemC setup and `attach_9p`; cluster class bodies and core parameter tables are inert data.
- `_build_kvm`'s `KvmVM`, release and GIC settings are left out; its event-queue loop is modelled on values (`AssignKvmQueues`), so aliasing between CPU objects is not captured.
- The argparse options of `addOptions` and the `main` entry point.
- `m5.proxy.isproxy` is modelled as an `EventQ` that is either `Proxy` or a concrete queue.
- Driver kernel plumbing: probe/remove, DMA-mask negotiation, misc and platform registration (other than the init resource), `gemmini_dev_a_open`, and the internals of `copy_from_user`, `copy_to_user`, `memset` and `dma_alloc_coherent`; these are outcomes in `Env`.
- `gemmini_wait_done`'s jiffies polling: only whether it times out (`env.timedOut`).
- The mutex only as `Lock`/`Unlock` actions; concurrent callers are not modelled.
- Init with a device-tree node only records that the platform driver is registered; a failure of `platform_device_register_simple` or `platform_driver_register` is not modelled.
- The user test program `gemmini_dev_a_user.c` and the device-tree wrapper `GemminiDevA.py`.
- The NPU's `DPRINTF` logging, the `DmaVirtDevice` base class and gem5's `Packet`: a packet is its address, size and response flag. `RangeSize` is modelled as a start and a size.
- NpuDevice.Chunks: the `TranslationGen` base class is not part of this model; the chunks are one `translate` call on the whole region, as the source's comment states the base class does.
- NpuDevice.DefaultDevice: the tick rate is a parameter (`ticksPerNs`), since it is a simulator-wide setting.
- Floating point in `tdm.cc`: formulas are exact reals, and each division requires a non-zero denominator instead of yielding NaN or infinity; per-thread vector statistics are modelled as scalars.
- TopDown.L1Fractions: bad speculation and backend bound have no [0,1] bound, since the source's formulas do not guarantee one.
