/** What one run of konadl_cli.py promises, stated over Cli.Session: exit
    statuses, the order of the steps, the resume contract, validation, the
    single engine call and the final cleanup. */
module SessionProperties {
  import opened Arguments
  import opened Paths
  import opened Disks
  import opened Storage
  import opened Modes
  import opened Engine
  import opened Cli

  /** The run gets past the version flag and check_storage_dir returns a path. */
  predicate PastStorage(a: Args, d: DiskState, ans: Answers)
  {
    !a.version && ResolveStorage(a, d, ans.createStorage).0.Resolved?
  }

  /** load_progress: progress files were present and the user chose to resume. */
  predicate Resumes(d: DiskState, ans: Answers)
  {
    d.progress && ans.resume
  }

  /** --version exits 0 before storage is resolved: nothing is prompted,
      created, deleted or called. */
  lemma VersionExitsFirst(a: Args, d: DiskState, k: KonaState, ans: Answers, eff: EngineEffect)
    requires a.version
    ensures Session(a, d, k, ans, eff) == Outcome(0, d, k)
  {
  }

  /** Without -o the run exits 1 before any progress check, prompt or engine
      call: the outcome depends neither on the answers nor on the engine. */
  lemma MissingStorageExits(a: Args, d: DiskState, k: KonaState, ans: Answers, eff: EngineEffect,
                            ans2: Answers, eff2: EngineEffect)
    requires !a.version && a.storage.None?
    ensures Session(a, d, k, ans, eff) == Outcome(1, d, k.(storage := None))
    ensures Session(a, d, k, ans2, eff2) == Session(a, d, k, ans, eff)
  {
  }

  /** A bare invocation (every argument at its default) exits 1 untouched. */
  lemma BareInvocationExits(d: DiskState, k: KonaState, ans: Answers, eff: EngineEffect)
    ensures Session(Defaults(), d, k, ans, eff) == Outcome(1, d, k.(storage := None))
  {
  }

  /** -o "" reaches storage[-1], whose IndexError the top-level handler turns
      into exit status 1, again before anything else happens. */
  lemma EmptyStorageExits(a: Args, d: DiskState, k: KonaState, ans: Answers, eff: EngineEffect)
    requires !a.version && a.storage == Some([])
    ensures Session(a, d, k, ans, eff) == Outcome(1, d, k)
  {
  }

  /** The engine is handed the normalised storage path whenever the run gets
      past check_storage_dir, and it ends in '/'. */
  lemma EngineGetsNormalizedPath(a: Args, d: DiskState, k: KonaState, ans: Answers, eff: EngineEffect)
    requires PastStorage(a, d, ans)
    ensures a.storage.Some? && a.storage.value != []
    ensures Session(a, d, k, ans, eff).kona.storage == Some(Normalize(a.storage.value))
    ensures EndsWithSlash(Normalize(a.storage.value))
  {
  }

  /** Thread counts left at their argparse defaults reach the engine object
      as 10 crawler and 20 downloader threads, however the run then ends. */
  lemma DefaultThreadCounts(a: Args, d: DiskState, k: KonaState, ans: Answers, eff: EngineEffect)
    requires PastStorage(a, d, ans)
    requires a.crawlers == Defaults().crawlers && a.downloaders == Defaults().downloaders
    ensures Session(a, d, k, ans, eff).kona.crawlerThreads == 10
    ensures Session(a, d, k, ans, eff).kona.downloaderThreads == 20
  {
  }

  /** The orchestrator's own steps after check_storage_dir create no
      directory and touch no file or link. The engine's own downloads are
      outside the disk model: an engine call changes only the progress flag. */
  lemma DirectoriesOnlyFromStorage(a: Args, d: DiskState, k: KonaState, ans: Answers, eff: EngineEffect)
    ensures Session(a, d, k, ans, eff).disk.dirs ==
      (if a.version then d.dirs else ResolveStorage(a, d, ans.createStorage).1.dirs)
    ensures Session(a, d, k, ans, eff).disk.links == d.links
  {
  }

  /** The resume prompt is offered only when progress files are present:
      without them the answer to it makes no difference to anything. */
  lemma ResumeAnswerIgnoredWithoutProgress(a: Args, d: DiskState, k: KonaState, ans: Answers,
                                           eff: EngineEffect, answer: bool)
    requires !d.progress
    ensures Session(a, d, k, ans.(resume := answer), eff) == Session(a, d, k, ans, eff)
  {
  }

  /** A fresh crawl (no resume, no update) without any rating flag exits 1
      with no engine call. */
  lemma NoRatingExits(a: Args, d: DiskState, k: KonaState, ans: Answers, eff: EngineEffect)
    requires PastStorage(a, d, ans)
    requires !AnyRating(a) && !a.update && !Resumes(d, ans)
    ensures Session(a, d, k, ans, eff).exitCode == 1
    ensures Session(a, d, k, ans, eff).kona.calls == k.calls
  {
  }

  /** In resume or update mode the rating flags play no part: exit status,
      engine call and disk are the same whatever ratings are given. */
  lemma RatingsIgnoredInResumeOrUpdate(a: Args, d: DiskState, k: KonaState, ans: Answers,
                                       eff: EngineEffect, s: bool, q: bool, e: bool)
    requires a.update || Resumes(d, ans)
    ensures var b := a.(safe := s, questionable := q, explicit := e);
      var o, o2 := Session(a, d, k, ans, eff), Session(b, d, k, ans, eff);
      o2.exitCode == o.exitCode && o2.disk == o.disk && o2.kona.calls == o.kona.calls
  {
    // Past storage resolution, ProceedIgnoresRatings carries the argument.
    // Naming both runs' Proceed steps keeps the solver from unfolding them
    // in full, which costs several times as much.
    var b := a.(safe := s, questionable := q, explicit := e);
    if !a.version {
      var (st, d1) := ResolveStorage(a, d, ans.createStorage);
      assert ResolveStorage(b, d, ans.createStorage) == (st, d1);
      if st.Resolved? {
        assert Session(a, d, k, ans, eff) == Proceed(a, st.path, d1, k, ans.resume, eff);
        assert Session(b, d, k, ans, eff) == Proceed(b, st.path, d1, k, ans.resume, eff);
        ProceedIgnoresRatings(a, b, st.path, d1, k, ans.resume, eff);
      }
    }
  }

  /** The same, once the storage path is known. */
  lemma ProceedIgnoresRatings(a: Args, b: Args, path: string, d: DiskState, k: KonaState, accept: bool,
                              eff: EngineEffect)
    requires b == a.(safe := b.safe, questionable := b.questionable, explicit := b.explicit)
    requires a.update || (d.progress && accept)
    ensures var o, ob := Proceed(a, path, d, k, accept, eff), Proceed(b, path, d, k, accept, eff);
      ob.exitCode == o.exitCode && ob.disk == o.disk && ob.kona.calls == o.kona.calls
  {
    // Both runs reach the same dispatch decision, and equal decisions end alike.
    var p := Configure(a, path, d, k, accept);
    RatingsIgnoredWhenResumingOrUpdating(a, p.load, b.safe, b.questionable, b.explicit);
    DispatchSameDecisions(a, b, p.load, p.disk, p.kona, Configure(b, path, d, k, accept).kona, eff);
  }

  /** Two runs whose validation and dispatch decide alike end alike, however
      their engine objects differ outside the call log and job_done. */
  lemma DispatchSameDecisions(a: Args, b: Args, load: bool, d: DiskState, k: KonaState, kb: KonaState,
                              eff: EngineEffect)
    requires Validate(a, load) == Validate(b, load) && SelectMode(a, load) == SelectMode(b, load)
    requires k.calls == kb.calls && k.jobDone == kb.jobDone
    ensures var o, ob := Dispatch(a, load, d, k, eff), Dispatch(b, load, d, kb, eff);
      ob.exitCode == o.exitCode && ob.disk == o.disk && ob.kona.calls == o.kona.calls
  {
  }

  /** At most one engine call is made: exactly the call of the selected
      branch when validation lets the run through and a branch matches, and
      none otherwise. */
  lemma OneEngineCall(a: Args, d: DiskState, k: KonaState, ans: Answers, eff: EngineEffect)
    ensures var o := Session(a, d, k, ans, eff);
      var load := Resumes(d, ans);
      var m := SelectMode(a, load);
      o.kona.calls ==
        if PastStorage(a, d, ans) && Validate(a, load) != NoRating && m != NoEngineCall
        then k.calls + [CallOf(m)] else k.calls
  {
  }

  /** A run whose only gap is the scope (-n, -a, -p) prints guidance but does
      not exit: no engine call is made and the run ends with status 0. */
  lemma NoScopeFallsThrough(a: Args, d: DiskState, k: KonaState, ans: Answers, eff: EngineEffect)
    requires PastStorage(a, d, ans)
    requires Validate(a, Resumes(d, ans)) == NoScope
    ensures Session(a, d, k, ans, eff).exitCode == 0
    ensures Session(a, d, k, ans, eff).kona.calls == k.calls
  {
  }

  /** kona.pages is assigned on the pages branch only. */
  lemma PagesSetOnlyOnPagesBranch(a: Args, d: DiskState, k: KonaState, ans: Answers, eff: EngineEffect)
    ensures var o := Session(a, d, k, ans, eff);
      var m := SelectMode(a, Resumes(d, ans));
      o.kona.pages ==
        if PastStorage(a, d, ans) && Validate(a, Resumes(d, ans)) != NoRating && m.CrawlPages?
        then m.n else k.pages
  {
  }

  /** After the engine call: a normal return exits 0 and removes the progress
      files exactly when the engine reports the job done; KeyboardInterrupt
      exits 0 and any other exception exits 1, and in both the progress files
      are left as the engine left them. */
  lemma EngineEndings(a: Args, d: DiskState, k: KonaState, ans: Answers, eff: EngineEffect)
    requires PastStorage(a, d, ans)
    requires Validate(a, Resumes(d, ans)) != NoRating
    requires SelectMode(a, Resumes(d, ans)) != NoEngineCall
    ensures var o := Session(a, d, k, ans, eff);
      && o.kona.jobDone == eff.jobDone && o.kona.totalDownloads == eff.totalDownloads
      && (eff.ending == Returned ==> o.exitCode == 0 && (o.disk.progress <==> eff.progressAfter && !eff.jobDone))
      && (eff.ending == Interrupted ==> o.exitCode == 0 && o.disk.progress == eff.progressAfter)
      && (eff.ending == Raised ==> o.exitCode == 1 && o.disk.progress == eff.progressAfter)
  {
  }

  /** The exit status is 1 exactly for a missing or empty -o, a PermissionError
      or declined creation in check_storage_dir, a fresh crawl without
      ratings, and an engine call that raises; every other run exits 0. */
  lemma ExitStatusOne(a: Args, d: DiskState, k: KonaState, ans: Answers, eff: EngineEffect)
    ensures var o := Session(a, d, k, ans, eff);
      var st := ResolveStorage(a, d, ans.createStorage).0;
      var load := Resumes(d, ans);
      o.exitCode == 1 <==>
        !a.version &&
        (st.NotGiven? || st.Crash? || st == Exit(1) ||
         (st.Resolved? && Validate(a, load) == NoRating) ||
         (st.Resolved? && Validate(a, load) != NoRating && SelectMode(a, load) != NoEngineCall &&
          eff.ending == Raised))
  {
  }

  /** A failed mkdir that is not a PermissionError exits 0, like a success. */
  lemma GenericMkdirFailureExitsZero(a: Args, d: DiskState, k: KonaState, ans: Answers, eff: EngineEffect)
    requires !a.version
    requires ResolveStorage(a, d, ans.createStorage).0 == Exit(0)
    ensures Session(a, d, k, ans, eff).exitCode == 0
    ensures Session(a, d, k, ans, eff).kona.calls == k.calls
  {
  }
}
