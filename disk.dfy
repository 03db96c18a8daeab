/** The filesystem as the orchestrator sees it (os.path.isdir, os.path.isfile,
    os.path.islink, os.mkdir and the engine's progress files), abstracted to
    sets of path strings. Paths are compared as strings: "a//b" and "a/b" are
    different entries here, although an operating system resolves both alike. */
module Disks {

  /** Existing directories, the paths os.path.isfile or os.path.islink
      reports as a file or link (see Kind), the paths whose mkdir
      the system refuses with PermissionError, the paths whose mkdir fails
      for any other reason (a missing parent, an I/O error), and whether the
      engine's progress files are present under the storage directory. */
  datatype DiskState = DiskState(
    dirs: set<string>,
    links: set<string>,
    denied: set<string>,
    faulty: set<string>,
    progress: bool)

  /** What the three os.path predicates report for a path, asked in the
      order of konadl_cli.py:62-63: directory first, then file or link. The
      path asked about always ends in '/', and on a POSIX system isfile and
      islink are false for such a path; FileOrLink keeps that branch as the
      code is written, for an entry of links that ends in '/'. */
  datatype Kind = Directory | FileOrLink | Missing

  function Classify(d: DiskState, p: string): (k: Kind)
    ensures k == Directory <==> p in d.dirs
    ensures k == Missing <==> p !in d.dirs && p !in d.links
  {
    if p in d.dirs then Directory
    else if p in d.links then FileOrLink
    else Missing
  }

  /** How one os.mkdir call ends: the directory is made, PermissionError is
      raised, or another exception (FileExistsError included) is raised. */
  datatype MkdirResult = Made | PermissionDenied | Failed

  /** One os.mkdir: an existing entry raises FileExistsError; otherwise the
      system's answer for that path decides. Only the directory set changes. */
  function Mkdir(d: DiskState, p: string): (r: (MkdirResult, DiskState))
    ensures r.0 == Made <==> p !in d.dirs && p !in d.links && p !in d.denied && p !in d.faulty
    ensures r.0 == PermissionDenied <==> p !in d.dirs && p !in d.links && p in d.denied
    ensures r.1 == if r.0 == Made then d.(dirs := d.dirs + {p}) else d
  {
    if p in d.dirs || p in d.links then (Failed, d)
    else if p in d.denied then (PermissionDenied, d)
    else if p in d.faulty then (Failed, d)
    else (Made, d.(dirs := d.dirs + {p}))
  }

  /** mkdir on each path in turn, stopping at the first that raises: the
      result of the last call made, and the disk afterwards. */
  function MkdirAll(d: DiskState, ps: seq<string>): (r: (MkdirResult, DiskState))
    ensures r.1 == d.(dirs := r.1.dirs)
    ensures d.dirs <= r.1.dirs <= d.dirs + (set p | p in ps)
    ensures r.0 == Made ==> r.1.dirs == d.dirs + (set p | p in ps)
    ensures ps != [] && Mkdir(d, ps[0]).0 != Made ==> r == Mkdir(d, ps[0])
    decreases |ps|
  {
    if ps == [] then (Made, d)
    else
      var (res, d1) := Mkdir(d, ps[0]);
      if res != Made then (res, d1)
      else
        var r := MkdirAll(d1, ps[1..]);
        assert (set p | p in ps) == {ps[0]} + (set p | p in ps[1..]);
        r
  }

  /** mkdir over a chain that fails at position k: when every path before it
      is distinct, fresh and permitted, they are all created, the chain stops
      with the exception of ps[k], and nothing after it is attempted. */
  lemma {:induction false} MkdirAllStopsAt(d: DiskState, ps: seq<string>, k: nat)
    requires k < |ps|
    requires forall i, j :: 0 <= i < j < k ==> ps[i] != ps[j]
    requires forall i :: 0 <= i < k ==>
      ps[i] !in d.dirs && ps[i] !in d.links && ps[i] !in d.denied && ps[i] !in d.faulty
    requires Mkdir(d.(dirs := d.dirs + (set p | p in ps[..k])), ps[k]).0 != Made
    ensures var dk := d.(dirs := d.dirs + (set p | p in ps[..k]));
      MkdirAll(d, ps) == (Mkdir(dk, ps[k]).0, dk)
    decreases k
  {
    if k == 0 {
      assert (set p | p in ps[..0]) == {};
      assert d.(dirs := d.dirs + {}) == d;
    } else {
      var d1 := d.(dirs := d.dirs + {ps[0]});
      assert Mkdir(d, ps[0]) == (Made, d1);
      var qs := ps[1..];
      var rest := qs[..k - 1];
      assert forall i :: 0 <= i < k - 1 ==> qs[i] == ps[i + 1];
      assert (set p | p in ps[..k]) == {ps[0]} + (set p | p in rest) by {
        assert ps[..k] == [ps[0]] + rest;
      }
      assert d1.(dirs := d1.dirs + (set p | p in rest)) ==
        d.(dirs := d.dirs + (set p | p in ps[..k]));
      MkdirAllStopsAt(d1, qs, k - 1);
    }
  }

  /** The mutable disk. The permission and failure oracles are fixed for a run. */
  class Disk {
    var dirs: set<string>
    var links: set<string>
    const denied: set<string>
    const faulty: set<string>
    var progress: bool

    function State(): DiskState
      reads this
    {
      DiskState(dirs, links, denied, faulty, progress)
    }

    constructor (init: DiskState)
      ensures State() == init
    {
      dirs, links, denied, faulty, progress := init.dirs, init.links, init.denied, init.faulty, init.progress;
    }

    /** os.mkdir(p); the caller sees the exception as the result. */
    method MakeDir(p: string) returns (r: MkdirResult)
      modifies this`dirs
      ensures (r, State()) == Mkdir(old(State()), p)
    {
      if p in dirs || p in links {
        r := Failed;
      } else if p in denied {
        r := PermissionDenied;
      } else if p in faulty {
        r := Failed;
      } else {
        dirs := dirs + {p};
        r := Made;
      }
    }
  }
}
