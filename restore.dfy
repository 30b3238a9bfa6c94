/**
 * Restoring from a saved slice: `_resolve_slice_dir` maps `--restore-slice` to
 * its `slice_NNNN` directory under the checkpoint directory, and `instantiate`
 * chooses the checkpoint to restore from and whether to set a simulation quantum.
 *
 * The file system is a parameter: which paths are directories and what
 * `os.listdir` answers for a path (its entries, or the text of the error it raises).
 */
module Restore {
  import opened Wrappers
  import opened Strings
  import opened SliceRun
  import opened SliceRunProperties
  import EventQueues

  datatype Listing = Entries(names: seq<string>) | ListFailed(error: string)

  datatype FileSystem = FileSystem(isDir: string -> bool, listDir: string -> Listing)

  /** What the panic of `_resolve_slice_dir` reports: the directory it expected,
      that directory's parent and the text shown for the parent's entries. */
  datatype RestoreError = RestoreError(expected: string, parent: string, listing: string)

  /** The `entries:` text: the parent's entries sorted and joined with ", ", or a
      `<cannot list …>` placeholder when listing fails. */
  function EntriesText(parent: string, l: Listing): string
  {
    match l
    case Entries(names) => JoinWith(", ", SortStrings(names))
    case ListFailed(e) => "<cannot list " + parent + ": " + e + ">"
  }

  /**
   * `_resolve_slice_dir(options)`, where `base` is
   * `os.path.abspath(os.path.normpath(options.ckpt_dir))`, a path in normal form.
   * Joining the slice leaf to it gives a path in normal form again
   * (`SliceDirNormal`), which the final `os.path.abspath` leaves as it is.
   */
  function ResolveSliceDir(base: string, restoreSlice: int, fs: FileSystem): (r: Result<string, RestoreError>)
    requires NormalAbsolute(base)
    ensures r.Ok? <==> fs.isDir(Join(base, SliceDirName(restoreSlice)))
    ensures r.Ok? ==> r.value == Join(base, SliceDirName(restoreSlice))
    ensures r.Err? ==> r.error.expected == Join(base, SliceDirName(restoreSlice)) && r.error.parent == base
  {
    var cdir := Join(base, SliceDirName(restoreSlice));
    if !fs.isDir(cdir) then
      var parent := Dirname(cdir);
      ResolveParent(base, restoreSlice);
      Err(RestoreError(cdir, parent, EntriesText(parent, fs.listDir(parent))))
    else
      Ok(cdir)
  }

  lemma ResolveParent(base: string, restoreSlice: int)
    requires NormalAbsolute(base)
    ensures Dirname(Join(base, SliceDirName(restoreSlice))) == base
  {
    SliceLeafNoSlash(restoreSlice);
    DirnameOfJoin(base, SliceDirName(restoreSlice));
  }

  /** The slice directory `_resolve_slice_dir` builds from a base in normal form
      is in normal form too, so the final `os.path.abspath` leaves it as it is. */
  lemma SliceDirNormal(base: string, restoreSlice: int)
    requires NormalAbsolute(base)
    ensures NormalAbsolute(Join(base, SliceDirName(restoreSlice)))
  {
    var leaf := SliceDirName(restoreSlice);
    SliceLeafNoSlash(restoreSlice);
    assert leaf[0] == 's';
    JoinNormal(base, leaf);
  }

  /** A slice directory name, even of a negative index, is a single component. */
  lemma SliceLeafNoSlash(restoreSlice: int)
    ensures NoSlash(SliceDirName(restoreSlice))
  {
    var leaf := SliceDirName(restoreSlice);
    forall i | 0 <= i < |leaf| ensures leaf[i] != '/' {
      var f := FormatD04(restoreSlice);
      if i >= 6 {
        assert leaf[i] == f[i - 6];
        if restoreSlice >= 0 {
          FormatD04Properties(restoreSlice);
          assert IsDigit(f[i - 6]);
        } else {
          assert f == "-" + ZeroPad(Digits(-restoreSlice), 3);
          if i > 6 {
            var z := ZeroPad(Digits(-restoreSlice), 3);
            assert f[i - 6] == z[i - 7];
            ZeroPadDigits(Digits(-restoreSlice), 3);
            assert IsDigit(z[i - 7]);
          }
        }
      }
    }
  }

  lemma ZeroPadDigits(s: string, width: nat)
    requires AllDigits(s)
    ensures AllDigits(ZeroPad(s, width))
  {
    if |s| < width {
      var z := Zeros(width - |s|);
      forall i | 0 <= i < |z + s| ensures IsDigit((z + s)[i]) {
        if i < |z| {
          assert (z + s)[i] == z[i];
        } else {
          assert (z + s)[i] == s[i - |z|];
        }
      }
    }
  }

  /** The text `m5.util.panic` is given when the slice directory is missing. */
  function PanicMessage(e: RestoreError): string
  {
    "Restore slice directory not found:\n" +
    " expected:" + e.expected + "\n" +
    " parent:  " + e.parent + "\n" +
    " entries: " + e.listing + "\n"
  }

  /** When listing the parent works, the panic shows each of its entries exactly
      once, in sorted order. */
  lemma PanicListsSortedEntries(base: string, restoreSlice: int, fs: FileSystem)
    requires NormalAbsolute(base)
    requires !fs.isDir(Join(base, SliceDirName(restoreSlice)))
    requires fs.listDir(base).Entries?
    ensures var r := ResolveSliceDir(base, restoreSlice, fs);
      var names := fs.listDir(base).names;
      r.Err? && exists sorted ::
        (SortedStrings(sorted) && multiset(sorted) == multiset(names) && r.error.listing == JoinWith(", ", sorted))
  {
    var names := fs.listDir(base).names;
    var sorted := SortStrings(names);
    assert ResolveSliceDir(base, restoreSlice, fs).error.listing == JoinWith(", ", sorted);
  }

  /** When the parent cannot be listed, the panic shows the placeholder naming the
      parent, which is `base`, and the listing error. */
  lemma PanicShowsListingError(base: string, restoreSlice: int, fs: FileSystem, e: string)
    requires NormalAbsolute(base)
    requires !fs.isDir(Join(base, SliceDirName(restoreSlice)))
    requires fs.listDir(base) == ListFailed(e)
    ensures var r := ResolveSliceDir(base, restoreSlice, fs);
      r.Err? && r.error.listing == "<cannot list " + base + ": " + e + ">"
  {
    ResolveParent(base, restoreSlice);
  }

  /** Every checkpoint a sliced run writes is a slice the run completed, from its
      start slice on, and `--restore-slice` of that slice with the same checkpoint
      directory finds exactly that directory again, as long as it is there. The
      run saves under `options.ckpt_dir` as given and the restore resolves under
      its normalised absolute form; the two agree when `--ckpt-dir` is already in
      normal form, as its default `os.path.abspath(os.path.join(outdir, "ckpts"))`
      is. */
  lemma SavedSliceIsRestored(o: RunOptions, evs: seq<StopEvent>, tick0: nat, path: string, fs: FileSystem)
    requires o.sliceRun && NormalAbsolute(o.ckptDir)
    requires Checkpoint(path) in RunSpec(o, evs, tick0).trace
    requires fs.isDir(path)
    ensures o.saveSlices && NormalAbsolute(path)
    ensures exists j ::
      (StartSlice(o.restoreSlice) <= j < o.slices &&
       j < StartSlice(o.restoreSlice) + Completed(o.slices, |evs|, StartSlice(o.restoreSlice)) &&
       ResolveSliceDir(o.ckptDir, j, fs) == Ok(path))
  {
    var j := SavedSliceIndex(o, evs, tick0, path);
    SliceDirNormal(o.ckptDir, j);
    assert ResolveSliceDir(o.ckptDir, j, fs) == Ok(path);
  }

  /** Distinct saved slices are distinct directories, so restoring slice `j` never
      picks up the checkpoint of another slice. */
  lemma SliceDirsDistinct(base: string, a: nat, b: nat)
    requires NormalAbsolute(base)
    requires a != b
    ensures Join(base, SliceDirName(a)) != Join(base, SliceDirName(b))
  {
    SliceDirNameInjective(a, b);
    var k := if base[|base| - 1] == '/' then |base| else |base| + 1;
    assert Join(base, SliceDirName(a))[k..] == SliceDirName(a);
    assert Join(base, SliceDirName(b))[k..] == SliceDirName(b);
  }

  // ---------------------------------------------------------------------------
  // instantiate
  // ---------------------------------------------------------------------------

  /** The options `instantiate` reads. `restoreSlice` is `None` when the option is
      unset, `restoreFrom == ""` when `--restore-from` is unset or empty, and
      `simQuantum` is `_to_ticks(options.sim_quantum)`. */
  datatype InstantiateOptions = InstantiateOptions(
    base: string,
    restoreSlice: Option<int>,
    restoreFrom: string,
    simQuantum: nat)

  /** What `instantiate` decides: the new `options.restore_from`, the quantum it
      gives the root (if any) and the checkpoint `m5.instantiate` restores (if any). */
  datatype Instantiation = Instantiation(restoreFrom: string, simQuantum: Option<nat>, checkpoint: Option<string>)

  predicate IsAbs(p: string) { |p| > 0 && p[0] == '/' }

  /** `instantiate(options, checkpoint_dir)` for the simulation root `root`
      (`None` when there is no `Root` instance). */
  function Instantiate(io: InstantiateOptions, checkpointDir: Option<string>, root: Option<EventQueues.SimObj>, fs: FileSystem)
    : (r: Result<Instantiation, RestoreError>)
    requires NormalAbsolute(io.base)
  {
    var resolved :=
      if io.restoreSlice.Some? && io.restoreSlice.value >= 0 then ResolveSliceDir(io.base, io.restoreSlice.value, fs)
      else Ok(io.restoreFrom);
    match resolved
    case Err(e) => Err(e)
    case Ok(restoreFrom) =>
      var quantum := if root.Some? && EventQueues.UsingPdes(root.value) then Some(io.simQuantum) else None;
      var cpt :=
        if restoreFrom == "" then None
        else if checkpointDir.Some? && checkpointDir.value != "" && !IsAbs(restoreFrom) then Some(Join(checkpointDir.value, restoreFrom))
        else Some(restoreFrom);
      Ok(Instantiation(restoreFrom, quantum, cpt))
  }

  /**
   * `instantiate` resolves a slice only for `--restore-slice` >= 0, and then
   * restores from exactly the resolved directory (it is absolute, so
   * `checkpoint_dir` plays no part) or panics when it is missing; otherwise
   * `--restore-from` is left as it was.
   */
  lemma InstantiateRestore(io: InstantiateOptions, checkpointDir: Option<string>, root: Option<EventQueues.SimObj>, fs: FileSystem)
    requires NormalAbsolute(io.base)
    ensures var r := Instantiate(io, checkpointDir, root, fs);
      if io.restoreSlice.Some? && io.restoreSlice.value >= 0 then
        var cdir := Join(io.base, SliceDirName(io.restoreSlice.value));
        (r.Ok? <==> fs.isDir(cdir)) &&
        (r.Ok? ==> r.value.restoreFrom == cdir && r.value.checkpoint == Some(cdir)) &&
        (r.Err? ==> r.error == ResolveSliceDir(io.base, io.restoreSlice.value, fs).error)
      else
        r.Ok? && r.value.restoreFrom == io.restoreFrom &&
        (r.value.checkpoint.Some? <==> io.restoreFrom != "")
  {
    if io.restoreSlice.Some? && io.restoreSlice.value >= 0 {
      var cdir := Join(io.base, SliceDirName(io.restoreSlice.value));
      assert IsAbs(cdir);
      assert cdir != "";
    }
  }

  /** A relative `--restore-from` is looked up under a given `checkpoint_dir`; an
      absolute one, or one with no `checkpoint_dir`, is used as it is. */
  lemma InstantiateCheckpointPath(io: InstantiateOptions, checkpointDir: Option<string>, root: Option<EventQueues.SimObj>, fs: FileSystem)
    requires NormalAbsolute(io.base)
    requires io.restoreSlice.None? || io.restoreSlice.value < 0
    requires io.restoreFrom != ""
    ensures var r := Instantiate(io, checkpointDir, root, fs);
      r.Ok? &&
      r.value.checkpoint == Some(
        if checkpointDir.Some? && checkpointDir.value != "" && !IsAbs(io.restoreFrom) then Join(checkpointDir.value, io.restoreFrom)
        else io.restoreFrom)
  {
  }

  /** The simulation quantum is set exactly when there is a root and it runs in
      PDES mode, that is some object below it has an event queue of its own. */
  lemma InstantiateQuantum(io: InstantiateOptions, checkpointDir: Option<string>, root: Option<EventQueues.SimObj>, fs: FileSystem)
    requires NormalAbsolute(io.base)
    requires Instantiate(io, checkpointDir, root, fs).Ok?
    ensures var r := Instantiate(io, checkpointDir, root, fs).value;
      (r.simQuantum.Some? <==>
        root.Some? && exists i ::
          (0 <= i < |EventQueues.Descendants(root.value)| &&
           EventQueues.OwnQueue(EventQueues.Descendants(root.value)[i], root.value.eventq))) &&
      (r.simQuantum.Some? ==> r.simQuantum.value == io.simQuantum)
  {
    if root.Some? {
      EventQueues.UsingPdesIff(root.value);
    }
  }
}
