/** The top-level block of konadl_cli.py (lines 176-272): the version flag,
    storage resolution, the resume prompt, the field transfer onto the engine
    object, validation, dispatch of at most one engine call, the final
    progress-file cleanup, and the exit status of each way the program ends.
    Session is the reference definition of one run; RunSession is the block
    itself, step by step, proved to end where Session says. */
module Cli {
  import opened Arguments
  import opened Disks
  import opened Storage
  import opened Modes
  import opened Engine

  /** The user's answers to the two yes/no prompts: "Create storage
      directory?" and "Continue from where you left off?". */
  datatype Answers = Answers(createStorage: bool, resume: bool)

  /** How a run ends: the exit status, the disk and the engine object. A
      script that runs to its end exits with status 0. */
  datatype Outcome = Outcome(exitCode: int, disk: DiskState, kona: KonaState)

  /** A run ready for validation: the resume decision (load_progress), the
      disk and the engine object with the arguments copied onto it. */
  datatype Prepared = Prepared(load: bool, disk: DiskState, kona: KonaState)

  /** The engine operation each branch of the dispatch calls. Resuming and
      crawling n pages both call kona.crawl(). */
  function CallOf(m: RunMode): EngineCall
    requires m != NoEngineCall
  {
    match m
    case Resume => Crawl
    case Update => UpdateImages
    case CrawlPages(_) => Crawl
    case CrawlAll => CrawlAllPages
    case CrawlPage(p) => CrawlOnePage(p)
  }

  /** Lines 192-195 and the top-level handler: how the run ends when
      check_storage_dir gives no path. False is stored on the engine object
      before the exit; an exit() inside check_storage_dir keeps its code; the
      IndexError of an empty path is caught by the handler and exits 1. */
  function StorageExit(st: StorageOutcome, d: DiskState, k: KonaState): (o: Outcome)
    requires !st.Resolved?
  {
    match st
    case NotGiven => Outcome(1, d, k.(storage := None))
    case Crash => Outcome(1, d, k)
    case Exit(c) => Outcome(c, d, k)
  }

  /** Lines 192 and 199-216, once the storage path is known: the resume
      decision, then the arguments copied onto the engine object. Case by
      case, accepting sets load_progress and keeps the files; declining
      deletes them and leaves load_progress as it was; without files nothing
      is prompted or deleted. The arguments, thread counts included, are
      copied unchanged, and no engine call is made. */
  function Configure(a: Args, path: string, d: DiskState, k: KonaState, accept: bool): (p: Prepared)
    ensures d.progress && accept ==> p.load && p.kona.loadProgress && p.disk == d
    ensures d.progress && !accept ==>
      !p.load && p.kona.loadProgress == k.loadProgress && p.disk == d.(progress := false)
    ensures !d.progress ==> !p.load && p.kona.loadProgress == k.loadProgress && p.disk == d
    ensures p.kona.storage == Some(path)
    ensures p.kona.crawlerThreads == a.crawlers && p.kona.downloaderThreads == a.downloaders
    ensures p.kona.safe == a.safe && p.kona.questionable == a.questionable && p.kona.explicit == a.explicit
    ensures p.kona.separate == a.separate && p.kona.yandere == a.yandere
    ensures p.kona.pages == k.pages && p.kona.jobDone == k.jobDone && p.kona.calls == k.calls
  {
    var load := d.progress && accept;
    var d1 := if d.progress && !accept then d.(progress := false) else d;
    var k1 := k.(storage := Some(path),
      loadProgress := if load then true else k.loadProgress,
      separate := a.separate, yandere := a.yandere,
      safe := a.safe, questionable := a.questionable, explicit := a.explicit,
      crawlerThreads := a.crawlers, downloaderThreads := a.downloaders);
    Prepared(load, d1, k1)
  }

  /** Lines 250-258, after a normal return: the progress files are removed
      exactly when the engine reports the job done and they are present. */
  function Finish(d: DiskState, k: KonaState): (o: Outcome)
    ensures o.exitCode == 0 && o.kona == k
    ensures o.disk == d.(progress := o.disk.progress)
    ensures o.disk.progress <==> d.progress && !k.jobDone
  {
    Outcome(0, if k.jobDone && d.progress then d.(progress := false) else d, k)
  }

  /** The engine object after the one engine call of the dispatch: kona.pages
      is set on the pages branch only, and the call is logged. */
  function Invoked(m: RunMode, eff: EngineEffect, k: KonaState): (k1: KonaState)
    requires m != NoEngineCall
  {
    (if m.CrawlPages? then k.(pages := m.n) else k).(
      jobDone := eff.jobDone, totalDownloads := eff.totalDownloads, calls := k.calls + [CallOf(m)])
  }

  /** How the run ends once the engine call is over: a normal return goes on
      to the cleanup; KeyboardInterrupt exits 0 and any other exception exits
      1, both without touching the progress files. */
  function Ended(eff: EngineEffect, d: DiskState, k: KonaState): (o: Outcome)
    ensures o.kona == k
    ensures eff.ending != Returned ==> o.disk == d
  {
    match eff.ending
    case Returned => Finish(d, k)
    case Interrupted => Outcome(0, d, k)
    case Raised => Outcome(1, d, k)
  }

  /** Lines 219-258 and the two exception handlers of lines 262-272. */
  function Dispatch(a: Args, load: bool, d: DiskState, k: KonaState, eff: EngineEffect): (o: Outcome)
    ensures k.calls <= o.kona.calls && |o.kona.calls| <= |k.calls| + 1
  {
    var m := SelectMode(a, load);
    if Validate(a, load) == NoRating then Outcome(1, d, k)
    else if m == NoEngineCall then Finish(d, k)
    else Ended(eff, d.(progress := eff.progressAfter), Invoked(m, eff, k))
  }

  /** Lines 192-272 once the storage path is known. */
  function Proceed(a: Args, path: string, d: DiskState, k: KonaState, accept: bool, eff: EngineEffect): (o: Outcome)
    ensures k.calls <= o.kona.calls && |o.kona.calls| <= |k.calls| + 1
  {
    var p := Configure(a, path, d, k, accept);
    Dispatch(a, p.load, p.disk, p.kona, eff)
  }

  /** One run of the program, from parsed arguments, the disk, a new engine
      object, the user's answers and the effect of the engine call (if one
      is made) to how it ends. */
  function Session(a: Args, d: DiskState, k: KonaState, ans: Answers, eff: EngineEffect): (o: Outcome)
    ensures k.calls <= o.kona.calls && |o.kona.calls| <= |k.calls| + 1
    ensures o.exitCode in {0, 1}
  {
    if a.version then Outcome(0, d, k)
    else
      var (st, d1) := ResolveStorage(a, d, ans.createStorage);
      if !st.Resolved? then StorageExit(st, d1, k)
      else Proceed(a, st.path, d1, k, ans.resume, eff)
  }

  /** The main block, step by step, on the disk: it creates the engine
      object (line 180) in the engine's initial state init and returns it
      with the exit status. */
  method RunSession(a: Args, disk: Disk, init: KonaState, ans: Answers, eff: EngineEffect)
    returns (code: int, kona: Kona)
    requires init.calls == []
    modifies disk`dirs, disk`progress
    ensures fresh(kona)
    ensures Outcome(code, disk.State(), kona.State()) == Session(a, old(disk.State()), init, ans, eff)
  {
    kona := new Kona(init);
    if a.version {
      code := 0;
      return;
    }
    var st := CheckStorageDir(a, disk, ans.createStorage);
    if !st.Resolved? {
      code := StorageFailed(st, disk, kona);
    } else {
      code := ProceedRun(a, st.path, disk, kona, ans.resume, eff);
    }
  }

  /** The steps of Proceed on the disk and the engine object. */
  method ProceedRun(a: Args, path: string, disk: Disk, kona: Kona, accept: bool, eff: EngineEffect)
    returns (code: int)
    modifies disk`progress, kona
    ensures Outcome(code, disk.State(), kona.State()) ==
      Proceed(a, path, old(disk.State()), old(kona.State()), accept, eff)
  {
    var loadProgress := ConfigureRun(a, path, disk, kona, accept);
    code := ValidateAndDispatch(a, loadProgress, disk, kona, eff);
  }

  /** Lines 192-195 and the handlers: how the run ends when check_storage_dir
      does not return a path. */
  method StorageFailed(st: StorageOutcome, disk: Disk, kona: Kona) returns (code: int)
    requires !st.Resolved?
    modifies kona`storage
    ensures Outcome(code, disk.State(), kona.State()) == StorageExit(st, disk.State(), old(kona.State()))
  {
    if st.NotGiven? {
      kona.storage := None;  // kona.storage = False
      return 1;
    } else if st.Crash? {
      return 1;  // the top-level handler of any other exception
    }
    return st.code;
  }

  /** The steps of Configure on the disk and the engine object. */
  method ConfigureRun(a: Args, path: string, disk: Disk, kona: Kona, accept: bool) returns (load: bool)
    modifies disk`progress, kona
    ensures Prepared(load, disk.State(), kona.State()) ==
      Configure(a, path, old(disk.State()), old(kona.State()), accept)
  {
    kona.storage := Some(path);
    load := OfferResume(disk, kona, accept);
    TransferArguments(a, kona);
  }

  /** Lines 199-207: the resume prompt is shown only when progress files are
      present; accepting sets load_progress, declining deletes the files. */
  method OfferResume(disk: Disk, kona: Kona, accept: bool) returns (load: bool)
    modifies disk`progress, kona`loadProgress
    ensures load == (old(disk.progress) && accept)
    ensures kona.State() == old(kona.State()).(loadProgress := if load then true else old(kona.loadProgress))
    ensures disk.State() == old(disk.State()).(progress := old(disk.progress) && accept)
  {
    load := false;
    if disk.progress {
      if accept {
        kona.loadProgress := true;
        load := true;
      } else {
        kona.RemoveProgressFiles(disk);
      }
    }
  }

  /** Lines 210-216: the arguments copied onto the engine object unchanged;
      thread counts are not checked. */
  method TransferArguments(a: Args, kona: Kona)
    modifies kona`separate, kona`yandere, kona`safe, kona`questionable, kona`explicit,
      kona`crawlerThreads, kona`downloaderThreads
    ensures kona.State() == old(kona.State()).(
      separate := a.separate, yandere := a.yandere,
      safe := a.safe, questionable := a.questionable, explicit := a.explicit,
      crawlerThreads := a.crawlers, downloaderThreads := a.downloaders)
  {
    kona.separate := a.separate;
    kona.yandere := a.yandere;
    kona.safe := a.safe;
    kona.questionable := a.questionable;
    kona.explicit := a.explicit;
    kona.crawlerThreads := a.crawlers;
    kona.downloaderThreads := a.downloaders;
  }

  /** Lines 219-258 and the handlers of lines 262-272. */
  method ValidateAndDispatch(a: Args, loadProgress: bool, disk: Disk, kona: Kona, eff: EngineEffect)
    returns (code: int)
    requires kona.safe == a.safe && kona.questionable == a.questionable && kona.explicit == a.explicit
    modifies disk`progress, kona`pages, kona`jobDone, kona`totalDownloads, kona`calls
    ensures Outcome(code, disk.State(), kona.State()) ==
      Dispatch(a, loadProgress, old(disk.State()), old(kona.State()), eff)
  {
    if !kona.safe && !kona.questionable && !kona.explicit && !loadProgress && !a.update {
      assert Validate(a, loadProgress) == NoRating;
      return 1;
    }
    // a run without -n, -a or -p only prints guidance here and carries on
    assert Validate(a, loadProgress) != NoRating;

    var mode := SelectMode(a, loadProgress);
    if mode != NoEngineCall {
      CallEngine(mode, eff, disk, kona);
      code := EndRun(eff, disk, kona);
    } else {
      code := FinishRun(disk, kona);
    }
  }

  /** Lines 236-248 once a branch is chosen: kona.pages is set on the pages
      branch only, then the one engine call is made. */
  method CallEngine(mode: RunMode, eff: EngineEffect, disk: Disk, kona: Kona)
    requires mode != NoEngineCall
    modifies disk`progress, kona`pages, kona`jobDone, kona`totalDownloads, kona`calls
    ensures kona.State() == Invoked(mode, eff, old(kona.State()))
    ensures disk.State() == old(disk.State()).(progress := eff.progressAfter)
  {
    if mode.CrawlPages? {
      kona.pages := mode.n;
    }
    kona.Invoke(CallOf(mode), eff, disk);
  }

  /** The handlers of lines 262-272 around the engine call, or the cleanup
      after it returned. */
  method EndRun(eff: EngineEffect, disk: Disk, kona: Kona) returns (code: int)
    modifies disk`progress
    ensures Outcome(code, disk.State(), kona.State()) == Ended(eff, old(disk.State()), kona.State())
  {
    if eff.ending == Interrupted {
      return 0;  // except KeyboardInterrupt
    } else if eff.ending == Raised {
      return 1;  // except Exception
    }
    code := FinishRun(disk, kona);
  }

  /** Lines 250-258: report, then remove the progress files if the engine
      says the job is done and they are present. */
  method FinishRun(disk: Disk, kona: Kona) returns (code: int)
    modifies disk`progress
    ensures Outcome(code, disk.State(), kona.State()) == Finish(old(disk.State()), kona.State())
  {
    if kona.jobDone && disk.progress {
      kona.RemoveProgressFiles(disk);
    }
    return 0;
  }
}
