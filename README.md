# KonaDL command line: a verified model of the session orchestrator

`konadl_cli.py` is the command-line front end of KonaDL, a bulk downloader for
the Konachan and Yande.re image boards. Under its terminal output it holds a
small orchestrator, and this project models that orchestrator in Dafny:

1. `check_storage_dir` turns the `-o` argument into the storage path. It
   appends a `/` if one is missing. An existing directory, or a path the
   file or link test reports, is returned, normalised. A missing directory is created if the user agrees,
   and with `--separate` its three rating subfolders are created too.
   Otherwise the program exits.
2. The resume decision. If the engine's progress files are present, the user
   is asked whether to continue. Accepting sets `load_progress`, and declining
   deletes the files.
3. The field transfer onto the engine object `kona`.
4. Validation. A fresh crawl with no rating flag exits 1. A run with no scope
   only prints guidance.
5. Dispatch of at most one engine call, in the priority
   resume > update > pages > all > page, with Python truthiness for `-n` and `-p`.
6. The final cleanup and the exit status of each way the program ends,
   including the two top-level exception handlers.

Module layout:

- `Paths` (paths.dfy): path normalisation and subfolder names.
- `Arguments` (arguments.dfy): the parsed-argument record and its defaults.
- `Modes` (modes.dfy): validation and dispatch, as pure functions.
- `Disks` (disk.dfy): the filesystem, both as a value and as the mutable
  `Disk` class.
- `Storage` (storage.dfy): `check_storage_dir`, both as the reference
  function `ResolveStorage` and as the imperative method `CheckStorageDir`.
- `Engine` (engine.dfy): the engine object as the `Kona` class.
- `Cli` (cli.dfy): the main block, as the reference function `Session` and
  as the imperative method `RunSession`, which is proved to end where
  `Session` says.
- `SessionProperties` (session_properties.dfy): what a whole run promises.

The filesystem is a set of directory paths and a set of file or link paths.
Two more sets act as oracles for `os.mkdir`: the paths that raise
`PermissionError` and the paths that raise any other error. A flag records
whether progress files are present. The engine (`libkonadl`) is external.
Each engine call is an oracle `EngineEffect`, which gives how the call ended
(normal return, `KeyboardInterrupt`, or another exception) and the
`job_done`, `total_downloads` and progress-file presence it leaves behind.
The two interactive prompts are boolean inputs (`Answers`).

The model follows the code as written, including these behaviours a reader might not expect:

- Thread counts are never checked, so a zero or negative count is passed on.
- A generic `mkdir` failure exits 0, not with an error status.
- The branch for a storage target that `os.path.isfile` or `os.path.islink`
  reports only logs an error, and the path is still used. The branch is
  modelled as written (see "## Left out" for when it can be taken).
- A run with ratings but no scope prints guidance, makes no engine call, and
  exits 0.
- Subfolders are spelled `storage + "/safe"`, so a normalised path gives
  `/data/kona//safe`, not `/data/kona/safe/`.
- `-o ""` is not treated as "no storage given". `storage[-1]` raises
  `IndexError`, which the top-level handler turns into exit 1.

## Model

| member | source | states |
|---|---|---|
| Arguments.Defaults | konadl_cli.py:32-47 | a bare invocation has no rating, no scope, no `-o`, no update, version or separate flag, and 10 crawler and 20 downloader threads |
| Paths.Normalize | konadl_cli.py:59-61 | the result ends in `/`, keeps the input as its prefix, is at most one character longer, and equals the input exactly when the input already ended in `/` |
| Paths.NormalizeIdempotent | konadl_cli.py:59-61 | normalising twice gives the same path as normalising once |
| Paths.Subfolder | konadl_cli.py:71-73 | a subfolder path is the storage path, one more `/`, then the rating name |
| Paths.Subfolders | konadl_cli.py:70-73 | there are three subfolders, and each is the subfolder of one rating |
| Paths.SubfoldersDistinct | konadl_cli.py:70-73 | the three subfolder paths differ from each other and from the storage path |
| Paths.SubfolderDoubleSlash | konadl_cli.py:59-73 | with a normalised storage path, every subfolder path has a doubled `//` where the two parts meet |
| Modes.FirstSet | konadl_cli.py:236-248 | the index of the first set flag: every earlier flag is clear, and the flag at that index is set unless none is |
| Modes.Validate | konadl_cli.py:219-234 | NoRating exactly when no rating is set and the run is neither a resume nor an update; NoScope exactly when ratings are set but no truthy scope is given and the run is neither; resume or update is always accepted |
| Modes.SelectMode | konadl_cli.py:236-248 | pages and page modes carry the given, non-zero value; no engine call is selected exactly when there is no resume, no update and no truthy scope |
| Modes.DispatchPicksFirstIntent | konadl_cli.py:236-248 | the selected branch is the first set intent in the order load_progress, update, pages, all, page |
| Modes.ZeroMeansAbsent | konadl_cli.py:227-248 | `-n 0` and `-p 0` (declared at lines 32-34) validate and dispatch exactly like an absent option, since both are falsy at lines 227 and 242-248 |
| Modes.RatingsIgnoredWhenResumingOrUpdating | konadl_cli.py:219-248 | in resume or update mode, any rating flags are accepted and select the same branch |
| Modes.VerdictMatchesDispatch | konadl_cli.py:219-248 | an accepted run always selects an engine call; a run without scope never does; a run without ratings is never a resume or an update |
| Modes.EveryModeReachable | konadl_cli.py:236-248 | each engine branch (resume, update, pages n, all, page p) is selected by some accepted command line |
| Disks.Classify | konadl_cli.py:62-63 | a directory is reported first, then a file or link; a path is missing exactly when it is neither |
| Disks.Mkdir | konadl_cli.py:69-73 | mkdir succeeds exactly for a new path with no refusal; PermissionError exactly for a new, denied path; only a success adds the path |
| Disks.MkdirAll | konadl_cli.py:68-82 | only directories change; they grow only by the requested paths; a full success adds them all; a failure of the first mkdir is that mkdir's result |
| Disks.MkdirAllStopsAt | konadl_cli.py:68-82 | when the mkdir at position k raises and every path before it is distinct, new and permitted, all those earlier paths are created, the chain stops with that exception, and no later path is attempted |
| Disks.Disk.MakeDir | konadl_cli.py:69 | the disk changes as `Mkdir` says, and the exception is returned as the result |
| Storage.Layout | konadl_cli.py:69-73 | the storage directory comes first, followed by three subfolders with `--separate`, or nothing more without it |
| Storage.ResolveStorage | konadl_cli.py:51-87 | returns False exactly when no `-o` is given; raises exactly on an empty path; a returned path is the normalised input and ends in `/`; an exit is 0 or 1; only directories are added |
| Storage.ResolveTarget | konadl_cli.py:62-87 | any returned path is the normalised path itself; an exit is 0 or 1; only directories are added |
| Storage.CheckStorageDir | konadl_cli.py:51-87 | the step-by-step function ends with the outcome and disk that `ResolveStorage` gives |
| Storage.CheckTarget | konadl_cli.py:62-87 | the isdir, isfile/islink and ask steps end as `ResolveTarget` says |
| Storage.MakeLayout | konadl_cli.py:68-75 | the mkdir calls in sequence, stopping at the first exception, as `MkdirAll` over the layout |
| Storage.CreatedLayout | konadl_cli.py:66-75 | for a missing directory that the user agrees to create, with no mkdir failure, the normalised path is returned and exactly the layout directories are added, whatever rating flags are set |
| Storage.MkdirAllFresh | konadl_cli.py:69-73 | mkdir over fresh, distinct, permitted paths creates every one of them |
| Storage.LayoutDirs | konadl_cli.py:70-73 | the layout is the storage directory plus, with `--separate`, exactly the safe, questionable and explicit subfolders |
| Storage.OnlyLayoutCreated | konadl_cli.py:62-87 | directories appear only if a path was given and creation was accepted, and only directories of the layout appear |
| Storage.DeclineExits | konadl_cli.py:83-86 | declining creation exits 1 and creates nothing |
| Storage.CreationErrors | konadl_cli.py:76-82 | a PermissionError on the storage directory exits 1 and another error exits 0, neither creating anything; with `--separate`, a PermissionError on the safe subfolder exits 1 and leaves the storage directory created; any creation exit is 1 for PermissionError and 0 otherwise |
| Storage.CreationStopsAt | konadl_cli.py:68-82 | a creation that fails at the k-th directory of the layout keeps the directories made before it, attempts none after it, and exits 1 for PermissionError and 0 for any other error |
| Storage.ExistingTargetReturned | konadl_cli.py:62-87 | an existing directory, or an entry the file or link test reports, is returned normalised, with nothing created |
| Storage.ResolveAgainIsStable | konadl_cli.py:59-75 | resolving again on the resulting disk returns the same path and creates nothing |
| Engine.Kona.constructor | konadl_cli.py:180 | a new engine object, as `RunSession` creates it, holds the engine's initial state and has no calls logged |
| Engine.Kona.Invoke | konadl_cli.py:236-248 | an engine call is appended to the call log and leaves job_done, total_downloads and the progress files as its effect says; nothing else changes |
| Engine.Kona.RemoveProgressFiles | konadl_cli.py:207 | the progress files are gone afterwards, and nothing else on disk changes |
| Cli.Configure | konadl_cli.py:192-216 | accepted: load_progress is set and the files are kept. Declined: the files are deleted and load_progress is unchanged. Absent: nothing is prompted or deleted. The storage path is stored, the arguments and thread counts are copied unchanged, and no engine call is made |
| Cli.Finish | konadl_cli.py:250-258 | exit 0; the progress files remain exactly when they were present and job_done is false; nothing else changes |
| Cli.Ended | konadl_cli.py:262-272 | the engine object is kept as the call left it; after KeyboardInterrupt or another exception the disk is not touched |
| Cli.Dispatch | konadl_cli.py:219-258 | at most one call is appended to the engine's call log |
| Cli.Proceed | konadl_cli.py:192-272 | at most one call is appended to the engine's call log |
| Cli.Session | konadl_cli.py:176-272 | at most one engine call per run, and the exit status is always 0 or 1 |
| Cli.RunSession | konadl_cli.py:176-272 | the main block, step by step: it creates a fresh engine object and ends with the exit status, disk and engine object that `Session` gives |
| Cli.ProceedRun | konadl_cli.py:192-272 | the steps after storage resolution end as `Proceed` says |
| Cli.StorageFailed | konadl_cli.py:192-195 | ends as its reference function `StorageExit` (which also covers lines 266-272) says: for a missing `-o` it stores False and exits 1; it keeps check_storage_dir's exit code; it exits 1 on the IndexError with kona untouched |
| Cli.ConfigureRun | konadl_cli.py:192-216 | the resume decision and field transfer end as `Configure` says |
| Cli.OfferResume | konadl_cli.py:199-207 | load_progress is true exactly when files are present and resume is accepted; the files are deleted exactly when present and declined |
| Cli.TransferArguments | konadl_cli.py:210-216 | the ratings, separate, yandere and thread counts are copied unchanged; nothing else changes |
| Cli.ValidateAndDispatch | konadl_cli.py:219-258 | validation, the one engine call and the cleanup end as `Dispatch` says |
| Cli.CallEngine | konadl_cli.py:236-248 | ends with the engine object that its reference function `Invoked` gives: kona.pages is set on the pages branch only, then the call that `CallOf` gives for the branch is logged |
| Cli.EndRun | konadl_cli.py:254-272 | KeyboardInterrupt exits 0, another exception exits 1, and a normal return goes on to the cleanup |
| Cli.FinishRun | konadl_cli.py:250-258 | the cleanup after a normal return ends as `Finish` says |
| SessionProperties.VersionExitsFirst | konadl_cli.py:183-190 | `--version` exits 0, with the disk and the engine untouched |
| SessionProperties.MissingStorageExits | konadl_cli.py:57-58 | without `-o`, the run exits 1 before any prompt, progress check or engine call; the outcome does not depend on the answers or the engine |
| SessionProperties.BareInvocationExits | konadl_cli.py:24-48 | with every argument at its default, the run exits 1 with nothing changed except `kona.storage = False` |
| SessionProperties.EmptyStorageExits | konadl_cli.py:60 | `-o ""` exits 1 through the top-level handler, with nothing changed |
| SessionProperties.EngineGetsNormalizedPath | konadl_cli.py:192 | past storage resolution, the engine holds the normalised path, which ends in `/` |
| SessionProperties.DefaultThreadCounts | konadl_cli.py:44-45 | thread counts left at their defaults reach the engine object (copied at lines 215-216) as 10 crawler and 20 downloader threads, however the run then ends |
| SessionProperties.DirectoriesOnlyFromStorage | konadl_cli.py:176-272 | the orchestrator's own steps after check_storage_dir create no directory and touch no file or link: the directories at the end are those check_storage_dir left, and the files and links are those the run started with |
| SessionProperties.ResumeAnswerIgnoredWithoutProgress | konadl_cli.py:199-207 | without progress files, the answer to the resume prompt changes nothing, so resume is offered only when files are present |
| SessionProperties.NoRatingExits | konadl_cli.py:219-226 | a fresh crawl without ratings exits 1 with no engine call |
| SessionProperties.RatingsIgnoredInResumeOrUpdate | konadl_cli.py:219-248 | in resume or update mode, rating flags change neither the exit status, the disk nor the engine call |
| SessionProperties.ProceedIgnoresRatings | konadl_cli.py:219-248 | the same, once the storage path is known |
| SessionProperties.DispatchSameDecisions | konadl_cli.py:219-258 | two runs whose validation and dispatch decide alike end with the same status, disk and call log |
| SessionProperties.OneEngineCall | konadl_cli.py:236-248 | the call log gains exactly the selected branch's call when the run gets that far and a branch matches, and nothing otherwise |
| SessionProperties.NoScopeFallsThrough | konadl_cli.py:227-250 | a run with ratings but no scope makes no engine call and exits 0 |
| SessionProperties.PagesSetOnlyOnPagesBranch | konadl_cli.py:242-244 | kona.pages changes only on the pages branch, to the given count |
| SessionProperties.EngineEndings | konadl_cli.py:254-272 | a normal return exits 0 and removes the progress files exactly when job_done is true; KeyboardInterrupt exits 0 and another exception exits 1, both leaving the files as the engine left them |
| SessionProperties.ExitStatusOne | konadl_cli.py:57-86 | exit 1 happens exactly for a missing or empty `-o`, a PermissionError or declined creation, a fresh crawl without ratings, or an engine call that raises |
| SessionProperties.GenericMkdirFailureExitsZero | konadl_cli.py:79-82 | a non-permission mkdir failure exits 0 with no engine call |

## Left out

- The `libkonadl` engine (`crawl`, `update`, `crawl_all_pages`, `crawl_page`,
  progress saving and loading, faulty-progress handling) is a foreign library
  and is not part of this model. Each call is an oracle effect, and the
  engine's initial field values are a parameter of `Kona`'s constructor.
- `kona.update()` returning False only prints "No new images found", so it is
  not modelled.
- argparse parsing (lines 30-48) is a library call. The model starts from the
  parsed record `Args`.
- All terminal output is left out: `display_options`, the `konadl_avalon`
  print overrides, `kona.icon()`, the version banner, the guidance text and
  `traceback.print_exc`. It is presentation only.
- The `print_locker` decorator is left out: it serialises printing across
  the engine's threads, which is a concurrency concern.
- The elapsed-time report (lines 252-253) is left out: it is floating-point
  arithmetic on the clock.
- Real path semantics are not modelled. Paths are compared as strings, so
  `a//b` and `a/b` are different entries. A missing parent directory is
  folded into the generic mkdir-failure oracle.
- Ctrl+C while a prompt is open, and exceptions raised by
  `progress_files_present` or `remove_progress_files`, are not modelled. The
  prompts are boolean answers, and only the engine call can be interrupted or
  raise.
- The images the engine downloads, and any folder it makes for them, are
  not tracked on the disk. An engine call changes only the progress flag.
- `os.path.isfile` and `os.path.islink` are asked about the path after a `/`
  is appended. On Linux they are then never true for a file or link. The
  branch of lines 63-64 is kept as written, with an entry of `links` that
  ends in `/` standing for it. A real file target takes the missing branch
  instead. Its mkdir fails with FileExistsError, a path in `faulty` here, so
  the run exits 0, or exits 1 if creation is declined.
- Progress files are one flag on the disk, not tied to the storage path.
  So the model allows a directory that check_storage_dir has just created to
  already hold progress files, and then offers resume. No property stated
  here depends on that case.
- The `Disk` constructor stands for the disk as the program finds it. The
  program never creates a disk, so nothing calls this constructor.
- The branch for a file imported as a module (lines 259-261) is not
  modelled. The model is of the script run as a program.
