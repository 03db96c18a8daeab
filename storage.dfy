/** check_storage_dir (konadl_cli.py:51-87): turns the -o argument into the
    storage path handed to the engine, creating the directory on request. */
module Storage {
  import opened Arguments
  import opened Paths
  import opened Disks

  /** How check_storage_dir ends: it returns False (no -o given), returns a
      path, calls exit(code), or raises an exception it does not catch
      (storage[-1] on an empty path) that reaches the top-level handler. */
  datatype StorageOutcome = NotGiven | Resolved(path: string) | Exit(code: int) | Crash

  /** The directories check_storage_dir creates, in order. */
  function Layout(storage: string, separate: bool): (ps: seq<string>)
    ensures |ps| == (if separate then 4 else 1) && ps[0] == storage
  {
    [storage] + (if separate then Subfolders(storage) else [])
  }

  /** The outcome of check_storage_dir and the disk afterwards, given the
      user's answer to "Create storage directory?". */
  function ResolveStorage(a: Args, d: DiskState, create: bool): (r: (StorageOutcome, DiskState))
    ensures r.0 == NotGiven <==> a.storage.None?
    ensures r.0 == Crash <==> a.storage == Some([])
    ensures r.0.Resolved? ==>
      (a.storage.Some? && a.storage.value != [] &&
       r.0.path == Normalize(a.storage.value) && EndsWithSlash(r.0.path))
    ensures r.0.Exit? ==> r.0.code in {0, 1}
    ensures r.1 == d.(dirs := r.1.dirs) && d.dirs <= r.1.dirs
  {
    if a.storage.None? then (NotGiven, d)
    else if a.storage.value == [] then (Crash, d)
    else ResolveTarget(Normalize(a.storage.value), a.separate, d, create)
  }

  /** Lines 62-87, on the normalised path: an existing directory or an
      entry that the file or link test reports is returned; a missing one is created
      with its layout if the user agrees, and the program exits otherwise. */
  function ResolveTarget(storage: string, separate: bool, d: DiskState, create: bool): (r: (StorageOutcome, DiskState))
    ensures r.0.Resolved? ==> r.0.path == storage
    ensures r.0.Exit? ==> r.0.code in {0, 1}
    ensures !r.0.NotGiven? && !r.0.Crash?
    ensures r.1 == d.(dirs := r.1.dirs) && d.dirs <= r.1.dirs
  {
    match Classify(d, storage)
    case Directory => (Resolved(storage), d)
    case FileOrLink => (Resolved(storage), d)
    case Missing =>
      if !create then (Exit(1), d)
      else
        var (res, d1) := MkdirAll(d, Layout(storage, separate));
        var outcome := match res
          case Made => Resolved(storage)
          case PermissionDenied => Exit(1)
          case Failed => Exit(0);
        (outcome, d1)
  }

  /** The imperative check_storage_dir: builds the path step by step, then
      inspects and, if asked to, creates it. */
  method CheckStorageDir(a: Args, disk: Disk, create: bool) returns (r: StorageOutcome)
    modifies disk`dirs
    ensures (r, disk.State()) == ResolveStorage(a, old(disk.State()), create)
  {
    if a.storage.None? {
      return NotGiven;
    }
    var storage := a.storage.value;
    if storage == [] {
      return Crash;  // storage[-1] raises IndexError
    }
    if storage[|storage| - 1] != '/' {
      storage := storage + "/";
    }
    assert storage == Normalize(a.storage.value);
    r := CheckTarget(storage, a.separate, disk, create);
  }

  /** Lines 62-87 on the disk. */
  method CheckTarget(storage: string, separate: bool, disk: Disk, create: bool) returns (r: StorageOutcome)
    modifies disk`dirs
    ensures (r, disk.State()) == ResolveTarget(storage, separate, old(disk.State()), create)
  {
    if storage in disk.dirs {
      return Resolved(storage);
    }
    if storage in disk.links {
      return Resolved(storage);  // only an error message is shown
    }
    if !create {
      return Exit(1);
    }
    var res := MakeLayout(disk, storage, separate);
    match res
    case Made => return Resolved(storage);
    case PermissionDenied => return Exit(1);
    case Failed => return Exit(0);
  }

  /** The mkdir calls of konadl_cli.py:69-73: the storage directory, then,
      with --separate, its three subfolders, stopping at the first exception. */
  method MakeLayout(disk: Disk, storage: string, separate: bool) returns (res: MkdirResult)
    modifies disk`dirs
    ensures (res, disk.State()) == MkdirAll(old(disk.State()), Layout(storage, separate))
  {
    ghost var layout := Layout(storage, separate);
    MkdirAllStep(disk.State(), layout);
    res := disk.MakeDir(storage);
    if res == Made && separate {
      MkdirAllStep(disk.State(), layout[1..]);
      res := disk.MakeDir(Subfolder(storage, Safe));
      if res == Made {
        MkdirAllStep(disk.State(), layout[2..]);
        res := disk.MakeDir(Subfolder(storage, Questionable));
        if res == Made {
          MkdirAllStep(disk.State(), layout[3..]);
          res := disk.MakeDir(Subfolder(storage, Explicit));
          assert layout[4..] == [];
        }
      }
    } else if res == Made {
      assert layout[1..] == [];
    }
  }

  /** One mkdir of the chain: stop on its exception, otherwise go on. */
  lemma MkdirAllStep(d: DiskState, ps: seq<string>)
    requires ps != []
    ensures var (res, d1) := Mkdir(d, ps[0]);
      MkdirAll(d, ps) == if res != Made then (res, d1) else MkdirAll(d1, ps[1..])
  {
  }

  /** A missing directory the user agrees to create, where every mkdir
      succeeds: exactly the directories of Layout are added (the storage
      directory and, with --separate, its three rating subfolders, whatever
      rating flags are set), and the normalised path is returned. */
  lemma CreatedLayout(a: Args, d: DiskState)
    requires a.storage.Some? && a.storage.value != []
    requires var s := Normalize(a.storage.value);
      forall p :: p in Layout(s, a.separate) ==>
        p !in d.dirs && p !in d.links && p !in d.denied && p !in d.faulty
    ensures var s := Normalize(a.storage.value);
      ResolveStorage(a, d, true) ==
        (Resolved(s), d.(dirs := d.dirs + (set p | p in Layout(s, a.separate))))
  {
    var s := Normalize(a.storage.value);
    var ps := Layout(s, a.separate);
    assert ps[0] == s;
    SubfoldersDistinct(s);
    assert forall i, j :: 0 <= i < j < |ps| ==> ps[i] != ps[j];
    MkdirAllFresh(d, ps);
  }

  /** mkdir over fresh, distinct, permitted paths creates every one of them. */
  lemma {:induction false} MkdirAllFresh(d: DiskState, ps: seq<string>)
    requires forall i, j :: 0 <= i < j < |ps| ==> ps[i] != ps[j]
    requires forall p :: p in ps ==> p !in d.dirs && p !in d.links && p !in d.denied && p !in d.faulty
    ensures MkdirAll(d, ps) == (Made, d.(dirs := d.dirs + (set p | p in ps)))
    decreases |ps|
  {
    if ps != [] {
      var d1 := d.(dirs := d.dirs + {ps[0]});
      assert forall p :: p in ps[1..] ==> p != ps[0] by {
        forall p | p in ps[1..] ensures p != ps[0] {
          var k :| 0 <= k < |ps[1..]| && ps[1..][k] == p;
          assert ps[k + 1] == p;
        }
      }
      MkdirAllFresh(d1, ps[1..]);
      assert (set p | p in ps) == {ps[0]} + (set p | p in ps[1..]);
    }
  }

  /** The directories of the layout as a set: the storage directory and,
      with --separate, exactly the three rating subfolders. */
  lemma LayoutDirs(storage: string, separate: bool)
    ensures (set p | p in Layout(storage, separate)) == {storage} +
      (if separate then {Subfolder(storage, Safe), Subfolder(storage, Questionable), Subfolder(storage, Explicit)} else {})
  {
    var ps := Layout(storage, separate);
    if separate {
      assert ps == [storage, Subfolder(storage, Safe), Subfolder(storage, Questionable), Subfolder(storage, Explicit)];
    } else {
      assert ps == [storage];
    }
  }

  /** Only the directories of the layout can appear, and only when a path was given
      and the user agreed to create a missing directory. */
  lemma OnlyLayoutCreated(a: Args, d: DiskState, create: bool)
    ensures var r := ResolveStorage(a, d, create);
      r.1.dirs != d.dirs ==>
        (a.storage.Some? && a.storage.value != [] && create &&
         r.1.dirs <= d.dirs + (set p | p in Layout(Normalize(a.storage.value), a.separate)))
  {
  }

  /** Declining the creation prompt exits 1 with nothing created. */
  lemma DeclineExits(a: Args, d: DiskState)
    requires a.storage.Some? && a.storage.value != []
    requires Classify(d, Normalize(a.storage.value)) == Missing
    ensures ResolveStorage(a, d, false) == (Exit(1), d)
  {
  }

  /** Creation errors: a PermissionError on the storage directory exits 1 and
      any other failure exits 0, neither creating anything; a failure on a
      subfolder exits the same way but leaves the directories made before it,
      so a denied safe/ subfolder leaves the storage directory behind. */
  lemma CreationErrors(a: Args, d: DiskState)
    requires a.storage.Some? && a.storage.value != []
    requires Classify(d, Normalize(a.storage.value)) == Missing
    ensures var s := Normalize(a.storage.value);
      s in d.denied ==> ResolveStorage(a, d, true) == (Exit(1), d)
    ensures var s := Normalize(a.storage.value);
      s !in d.denied && s in d.faulty ==> ResolveStorage(a, d, true) == (Exit(0), d)
    ensures var s := Normalize(a.storage.value);
      var safe := Subfolder(s, Safe);
      (a.separate && s !in d.denied && s !in d.faulty &&
       safe !in d.dirs && safe !in d.links && safe in d.denied) ==>
      ResolveStorage(a, d, true) == (Exit(1), d.(dirs := d.dirs + {s}))
    ensures var r := ResolveStorage(a, d, true);
      r.0.Exit? ==> r.0.code == (if MkdirAll(d, Layout(Normalize(a.storage.value), a.separate)).0 == PermissionDenied then 1 else 0)
  {
    var s := Normalize(a.storage.value);
    var safe := Subfolder(s, Safe);
    if a.separate && s !in d.denied && s !in d.faulty &&
       safe !in d.dirs && safe !in d.links && safe in d.denied {
      var ps := Layout(s, true);
      assert ps[..1] == [s];
      assert (set p | p in ps[..1]) == {s};
      assert ps[1] == safe;
      CreationStopsAt(a, d, 1);
    }
  }

  /** A creation that fails at the k-th directory of the layout (the storage
      directory is the 0th, then safe, questionable and explicit): the
      directories before it stay created, the ones after it are not
      attempted, and the run exits 1 for PermissionError and 0 otherwise. */
  lemma CreationStopsAt(a: Args, d: DiskState, k: nat)
    requires a.storage.Some? && a.storage.value != []
    requires Classify(d, Normalize(a.storage.value)) == Missing
    requires var ps := Layout(Normalize(a.storage.value), a.separate);
      k < |ps| &&
      (forall i :: 0 <= i < k ==>
        ps[i] !in d.dirs && ps[i] !in d.links && ps[i] !in d.denied && ps[i] !in d.faulty) &&
      Mkdir(d.(dirs := d.dirs + (set p | p in ps[..k])), ps[k]).0 != Made
    ensures var ps := Layout(Normalize(a.storage.value), a.separate);
      var dk := d.(dirs := d.dirs + (set p | p in ps[..k]));
      ResolveStorage(a, d, true) ==
        (Exit(if Mkdir(dk, ps[k]).0 == PermissionDenied then 1 else 0), dk)
  {
    var s := Normalize(a.storage.value);
    var ps := Layout(s, a.separate);
    SubfoldersDistinct(s);
    assert forall i, j :: 0 <= i < j < |ps| ==> ps[i] != ps[j];
    MkdirAllStopsAt(d, ps, k);
  }

  /** An entry the file or link test reports only draws an error message: the normalised
      path is still returned and nothing is created. An existing directory
      is returned the same way. */
  lemma ExistingTargetReturned(a: Args, d: DiskState, create: bool)
    requires a.storage.Some? && a.storage.value != []
    requires Classify(d, Normalize(a.storage.value)) != Missing
    ensures ResolveStorage(a, d, create) == (Resolved(Normalize(a.storage.value)), d)
  {
  }

  /** Running the resolution again on the disk it produced finds the
      directory and returns the same path without prompting or creating. */
  lemma ResolveAgainIsStable(a: Args, d: DiskState, create: bool, create2: bool)
    requires ResolveStorage(a, d, create).0.Resolved?
    ensures var (r, d1) := ResolveStorage(a, d, create);
      ResolveStorage(a, d1, create2) == (r, d1)
  {
    var s := Normalize(a.storage.value);
    var (r, d1) := ResolveStorage(a, d, create);
    if Classify(d, s) == Missing {
      assert s in d1.dirs by {
        assert s == Layout(s, a.separate)[0];
      }
    }
  }
}
