/** The engine object `kona` (a libkonadl.konadl) as far as the command line
    touches it: the fields the main block assigns, the fields it reads back
    after the run, and the engine operations it calls. libkonadl is not part
    of this model; each engine operation is an oracle whose effect is given. */
module Engine {
  import opened Arguments
  import opened Disks

  /** The engine operations the dispatch can call. */
  datatype EngineCall = Crawl | UpdateImages | CrawlAllPages | CrawlOnePage(page: int)

  /** How an engine call ends: it returns, it is cut short by Ctrl+C
      (KeyboardInterrupt), or it raises any other exception. */
  datatype Ending = Returned | Interrupted | Raised

  /** What one engine call leaves behind: how it ended, the job_done and
      total_downloads it leaves on the object, and whether progress files are
      present afterwards (the engine saves them when stopped early). */
  datatype EngineEffect = EngineEffect(ending: Ending, jobDone: bool, totalDownloads: int, progressAfter: bool)

  /** The observable fields of the engine object, plus the log of engine
      calls made on it. storage is None for the Python value False. */
  datatype KonaState = KonaState(
    storage: Option<string>,
    loadProgress: bool,
    separate: bool,
    yandere: bool,
    safe: bool,
    questionable: bool,
    explicit: bool,
    crawlerThreads: int,
    downloaderThreads: int,
    pages: int,
    jobDone: bool,
    totalDownloads: int,
    calls: seq<EngineCall>)

  class Kona {
    var storage: Option<string>
    var loadProgress: bool
    var separate: bool
    var yandere: bool
    var safe: bool
    var questionable: bool
    var explicit: bool
    var crawlerThreads: int
    var downloaderThreads: int
    var pages: int
    var jobDone: bool
    var totalDownloads: int
    var calls: seq<EngineCall>

    function State(): KonaState
      reads this
    {
      KonaState(storage, loadProgress, separate, yandere, safe, questionable, explicit,
        crawlerThreads, downloaderThreads, pages, jobDone, totalDownloads, calls)
    }

    /** A new engine object in the engine's own initial state (libkonadl's
        defaults are not part of this model), with no call made yet. */
    constructor (init: KonaState)
      requires init.calls == []
      ensures State() == init
    {
      storage, loadProgress, separate, yandere := init.storage, init.loadProgress, init.separate, init.yandere;
      safe, questionable, explicit := init.safe, init.questionable, init.explicit;
      crawlerThreads, downloaderThreads, pages := init.crawlerThreads, init.downloaderThreads, init.pages;
      jobDone, totalDownloads, calls := init.jobDone, init.totalDownloads, [];
    }

    /** kona.crawl(), kona.update(), kona.crawl_all_pages() or
        kona.crawl_page(p): the call is logged and its effect applied. */
    method Invoke(call: EngineCall, effect: EngineEffect, disk: Disk)
      modifies this`jobDone, this`totalDownloads, this`calls, disk`progress
      ensures State() == old(State()).(jobDone := effect.jobDone,
        totalDownloads := effect.totalDownloads, calls := old(calls) + [call])
      ensures disk.State() == old(disk.State()).(progress := effect.progressAfter)
    {
      jobDone, totalDownloads := effect.jobDone, effect.totalDownloads;
      calls := calls + [call];
      disk.progress := effect.progressAfter;
    }

    /** kona.remove_progress_files(). */
    method RemoveProgressFiles(disk: Disk)
      modifies disk`progress
      ensures disk.State() == old(disk.State()).(progress := false)
    {
      disk.progress := false;
    }
  }
}
