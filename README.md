# TarSync archive coordinator in Dafny

TarSync keeps a TAR archive of a directory up to date: `start()` archives the
directory once, then watches it and re-archives on every change;
`stop()` stops watching. Every archive is packed into a temporary file
`<output>~` and renamed onto `<output>` once the stream closes. Two process-wide
tables coordinate the runs per watched path:
- `locks` holds the paths being archived now;
- `pending` holds the paths for which a change arrived during a run.

A change during a run does not start a second run. It marks the path pending,
and the running archive starts exactly one rerun when its write stream closes.

This project models that coordinator and the helpers around it, for both builds
of the repository:
- the compiled `dist/index.js`, which is the reference;
- the older `src/index.ts`, selected by the `Variant` value `Src`.

The `src` build differs from `dist` in these ways, all modelled:
- it has no `outPath` option and no `verbose` option;
- its publish resolves silently when the temporary file is missing;
- its close handler does not catch a rejected rerun, so the outer run's promise never settles and the rejection goes unhandled;
- its `stop()` leaves the tables alone;
- its `init` swallows an unreadable directory and any archive error;
- its watcher listeners do not catch a rejected run.

- `naming.dfy` (module `Naming`) covers the option defaulting:
  - the output path (`(outPath or path) + "." + extension`) and the temporary path (`+ "~"`), which dist recomputes on every `archiveDir` call from the caller's options object and the model fixes at construction;
  - the trigger set, built event by event as the constructor's `forEach` does;
  - the verbose flag.
- `coordinator.dfy` (module `Coordinator`) is `archiveDir` as a state machine.
  - The state is the two tables, the filesystem as `map<string, seq<int>>`, and
    every run started so far.
  - Each step is one event: a request, the close of a run's write stream, an
    error on that stream, and the table clearing of `stop`.
  - JavaScript runs each handler to completion. Awaited continuations run before
    the next I/O event. So each event, including the resumption of the runs that
    were awaiting a rerun, is one atomic step.
- `invariants.dfy` (module `CoordinatorInvariants`) proves two invariants.
  - Every event keeps `pending ⊆ locks`, keeps a writing run behind every lock,
    and keeps the links between a run and its rerun.
  - Exclusion (at most one run per path writing) holds throughout, except after
    the dist build's `stop` of a path whose run is still writing.
- `properties.dfy` (module `CoordinatorProperties`) proves what each event does
  and what follows across events:
  - coalescing;
  - no lost update;
  - what publishing does to the files;
  - the shared-temporary-path quirk;
  - the effects of `stop`.
- `registry.dfy` (module `Registry`) has the class `Registry`. It holds the
  static tables, the filesystem and the runs as mutable fields. Each method
  updates them in place and is proved equal to the coordinator's step for its
  event.
- `tarsync.dfy` (module `Sync`) has the class `TarSync`: one instance with its
  configuration, its watcher and the promise of its `start()`. Watcher events
  become calls of the registry's `Request`, one per listener the event reaches.

The packed bytes, the readdir result, a failing `renameSync` and stream errors
are parameters of the events: `bytes`, `readdirError`, `fault` and `err`.

Some behaviours of the code are worth stating explicitly:
- A stream error rejects the run but does not release the lock; only the close does.
- A stream error does not stop the close handler. When the error comes after
  the stream created its temporary file and the stream then closes, whatever
  reached the temporary file is renamed onto the output, possibly a partial
  archive, while the run stays rejected.
- After a pending rerun, the rerun renames the shared temporary file away.
  - The dist outer run then rejects with `"<tmp> does not exist"`, although the archive was published.
  - A rejected rerun rejects the dist outer run with the same error.
  - In src the outer run resolves after a published rerun. After a rejected rerun it never settles.
- The dist `stop()` clears the tables even while a run is writing. A request after
  that starts a second run for the same path at the same time. So per-path runs
  are not always exclusive.
- The src `stop()` does not clear the tables.

## Model

| member | source | states |
|---|---|---|
| Naming.Extension | dist/index.js:28-38 | the extension is never empty: it is the given one when that is non-empty, and "tar" otherwise |
| Naming.OutputPath | dist/index.js:50-54 | the output path is the base (outPath in dist when non-empty, else the watched path), a dot, then the extension; without an override it starts with the watched path |
| Naming.TempPath | dist/index.js:55 | the temporary path is one character longer than the output path and ends in "~" (OutputPathShape recovers the output from it) |
| Naming.TriggerSet | dist/index.js:29-35 | without a list the triggers are exactly {add, change, unlink}; with a list, an event triggers iff it is listed |
| Naming.Verbose | dist/index.js:26-27 | verbose is on in dist iff the option is true, and never in src |
| Naming.OutputOfTemp | dist/index.js:55 | a path recognised as temporary is exactly the recovered output path plus "~" |
| Naming.CollectEvents | dist/index.js:29-35 | the set built event by event holds exactly the listed events, and is no larger than the list |
| Naming.Configure | dist/index.js:25-38 | the configuration's output path is `(outPath or path) + "." + extension` (dist) or `path + "." + extension` (src); its temporary path is the output plus "~"; its triggers are the trigger set; verbose only when set true, and never in src |
| Naming.GivenTriggerSet | src/index.ts:37-38 | with a list (even an empty one), an event triggers iff it is listed; duplicates collapse |
| Naming.CollectedSize | dist/index.js:30-31 | the set of a list's events has no more elements than the list |
| Naming.OutputPathShape | dist/index.js:50-55 | the temporary path differs from the output, and the output is recovered from it |
| Naming.TempPathInjective | src/index.ts:57 | distinct outputs have distinct temporary paths |
| Naming.ArchiveNeverOverwritesWatchedPath | src/index.ts:56-57 | without an outPath override, neither the archive nor its temporary file is the watched path |
| Naming.SrcIgnoresOutPath | src/index.ts:35-57 | the src output path ignores outPath and is `path + "." + extension` |
| Coordinator.Launch | dist/index.js:56-91 | the path is locked, pending is unchanged, the temporary file exists and is empty, other files are unchanged, and exactly one writing, unsettled run is appended |
| Coordinator.Request | dist/index.js:46-91 | the request coalesces iff the path is locked, and then only marks it pending; otherwise it starts a new run, numbered after all earlier ones, for the instance's paths; either way the path ends up locked |
| Coordinator.Close | dist/index.js:57-82 | pending loses the path; the lock stays only if a rerun started; exactly one run is added iff the path was pending; the closed run is no longer writing |
| Coordinator.StreamError | dist/index.js:83-86 | no table and no file changes; the run still writes and, if unsettled, is rejected with the error |
| Coordinator.Stop | dist/index.js:143-145 | runs and files are unchanged; dist removes the path from both tables; src changes nothing |
| Coordinator.Publish | dist/index.js:69-81 | publishing always settles the run, and never touches the tables or the runs |
| Coordinator.Settle | dist/index.js:59-68 | settling keeps the state well formed, changes runs only by settling or finishing them, settles run `id` if it was unsettled, and changes no file on a rejection or a missing temporary file |
| Coordinator.SettleStops | dist/index.js:57-68 | the cascade ends at a run already settled (no change) or at a run no close handler awaits (only that run settles) |
| Coordinator.SettleResumesParent | dist/index.js:59-68 | settling a rerun whose parent awaits it settles the parent next: with the same rejection (dist), not at all after a rejection (src), or with the parent's own publish outcome |
| CoordinatorInvariants.InitialValid | dist/index.js:174-178 | empty tables with no runs satisfy the invariant and exclusion |
| CoordinatorInvariants.SameShapeKeepsInvariants | dist/index.js:57-82 | settling runs or finishing awaits keeps the invariant and exclusion |
| CoordinatorInvariants.LaunchKeepsValid | dist/index.js:56-91 | taking the lock and starting a run keeps the invariant |
| CoordinatorInvariants.LaunchKeepsExclusive | dist/index.js:46-49 | starting a run for an unlocked path keeps exclusion |
| CoordinatorInvariants.RequestKeepsInvariants | dist/index.js:46-90 | a request keeps `pending ⊆ locks`, a writer behind every lock, and exclusion |
| CoordinatorInvariants.FinishKeepsValid | dist/index.js:57-69 | the state after a close with nothing pending, before publishing, keeps the invariant and exclusion |
| CoordinatorInvariants.AwaitKeepsValid | dist/index.js:57-63 | after a close with a pending request, before the rerun starts, only the closing run's link is open |
| CoordinatorInvariants.LaunchRerunKeepsValid | dist/index.js:62-64 | starting the rerun closes that link and restores the invariant |
| CoordinatorInvariants.RerunKeepsExclusive | dist/index.js:58-64 | a close that starts the pending rerun keeps exclusion: the closed run stops writing as its rerun starts |
| CoordinatorInvariants.CloseKeepsInvariants | dist/index.js:57-82 | the close of a write stream keeps the invariant and exclusion |
| CoordinatorInvariants.StreamErrorKeepsInvariants | dist/index.js:83-86 | a stream error keeps the invariant and exclusion |
| CoordinatorInvariants.StopKeepsValid | dist/index.js:141-147 | `stop` keeps the invariant in both builds |
| CoordinatorInvariants.StopKeepsExclusive | dist/index.js:143-145 | `stop` keeps exclusion iff the build is src or no run of the path is writing |
| CoordinatorProperties.RequestEffect | dist/index.js:46-91 | a request for a locked path only adds it to pending; otherwise it locks it, truncates its temporary file and starts exactly one run; other paths' entries and files do not change |
| CoordinatorProperties.RepeatedRequestsCoalesce | src/index.ts:51-55 | any number of requests for a locked path amount to one pending mark |
| CoordinatorProperties.RequestsCompose | dist/index.js:126-133 | one more request after n requests is n + 1 requests |
| CoordinatorProperties.CloseTablesEffect | dist/index.js:57-63 | a close releases the lock; a pending path is cleared and exactly one rerun with the same paths starts and re-locks; otherwise no run starts |
| CoordinatorProperties.BurstYieldsOneRerun | dist/index.js:46-63 | n requests during a run give exactly one rerun when n > 0 and none when n = 0 |
| CoordinatorProperties.PendingRequestIsHonoured | src/index.ts:61-65 | a request that arrived during a run makes its close start a writing run for that path |
| CoordinatorProperties.PendingSurvives | dist/index.js:59-60 | a pending mark is cleared only by the close of its own path's run or by the dist stop of that path |
| CoordinatorProperties.PublishEffect | dist/index.js:69-81 | missing temporary file: rejects with "<tmp> does not exist" (dist) or resolves (src), no file changes; rename fault: rejects, no file changes; otherwise the output holds the temporary file's bytes, the temporary file is gone, no other path changes |
| CoordinatorProperties.CloseFileEffect | src/index.ts:59-76 | a close changes only the run's temporary file and output; the output keeps its old content or gets the bytes that reached the temporary file |
| CoordinatorProperties.ErrorThenClosePublishes | dist/index.js:57-86 | after a stream error raised once the temporary file exists, the later close still renames the temporary file's bytes onto the output while the run stays rejected with the error |
| CoordinatorProperties.RerunStrandsOuterRun | dist/index.js:55-81 | after its rerun publishes, the outer run finds the shared temporary file gone: rejects with "<tmp> does not exist" (dist) or resolves (src); the output holds the rerun's bytes |
| CoordinatorProperties.StopEffect | dist/index.js:141-147 | dist `stop` removes the path from both tables and touches no other path, run or file; src `stop` changes nothing |
| CoordinatorProperties.StopDropsPendingRerun | dist/index.js:144-145 | a dist stop during a run drops its pending rerun |
| CoordinatorProperties.StopDuringRunAllowsOverlap | dist/index.js:141-147 | a dist stop during a run, then a request, leaves two runs of one path writing |
| CoordinatorProperties.SrcKeepsExclusive | src/index.ts:48-84 | in the src build every event keeps exclusion |
| Registry.Registry.constructor | dist/index.js:174-178 | the tables start empty, with no runs |
| Registry.Registry.Request | dist/index.js:45-91 | the request changes the fields exactly as the coordinator's request step, returns the same result, and keeps the invariant |
| Registry.Registry.Launch | src/index.ts:58-82 | the fields become the coordinator's launch of a run |
| Registry.Registry.Publish | src/index.ts:66-75 | the fields and outcome are the coordinator's publish |
| Registry.Registry.Settle | dist/index.js:59-68 | the loop walking up the awaiting runs ends in the coordinator's recursive settlement |
| Registry.Registry.Resume | src/index.ts:59-76 | one step of the cascade: either the settlement is complete, or a strictly earlier run is next to settle and settling it completes the same settlement |
| Registry.Registry.WriteClosed | dist/index.js:57-82 | the close handler changes the fields exactly as the coordinator's close step and keeps the invariant |
| Registry.Registry.StreamError | dist/index.js:83-86 | the error handler changes the fields exactly as the coordinator's error step and keeps the invariant |
| Registry.Registry.Release | dist/index.js:143-145 | the table clearing changes the fields exactly as the dist stop step and keeps the invariant |
| Sync.StartResult | dist/index.js:121-138 | `start()` resolves iff the build is src or the initial archive resolved; otherwise it rejects with "Failed init: " followed by the archive's reason |
| Sync.Listeners | dist/index.js:126-133 | an event reaches no listener unless the watcher is listening, and then exactly one per trigger among its own kind and "all" (at most two) |
| Sync.StartFailsAfterInitialRerun | dist/index.js:121-137 | a rerun during the initial archive makes the dist `start()` reject with "Failed init: <tmp> does not exist"; src resolves |
| Sync.TarSync.constructor | src/index.ts:35-45 | the instance's configuration is the defaulted options; it is not started |
| Sync.TarSync.Start | dist/index.js:98-114 | unreadable directory: dist rejects with "Failed init: " and the error, src starts watching; otherwise one request, after which `start()` either resolves and watches (coalesced) or awaits the run it started |
| Sync.TarSync.InitSettled | src/index.ts:87-118 | once the initial run settles, `start()` settles as StartResult and the watcher is attached iff it resolved |
| Sync.TarSync.OnEvent | dist/index.js:126-133 | an event amounts to as many requests as listeners it reaches |
| Sync.TarSync.Stop | dist/index.js:141-149 | without a watcher, `stop()` rejects and changes nothing; otherwise it closes the watcher and, in dist, clears the path from both tables |

## Left out

- The chokidar watcher and its event delivery are left out. Events are `OnEvent` calls with the event's kind. Watcher options, `ready` and `error` events, and closing the OS resources are not modelled.
- tar-fs packing and `extract` are left out. The archive bytes are an opaque `seq<int>` that the stream delivers at once on close. So the byte format and the pack/extract round trip are not modelled.
- Node streams are reduced to two events per run, close and error, and their timing is the caller's choice. Writes that reach a temporary path after it was renamed (through the open file descriptor) are not modelled.
- Promise timing is not modelled. Each handler and the continuations it wakes form one atomic step. `TarSync.Stop` clears the tables in the same step as closing the watcher, although the source clears them once `close()` has resolved.
- Coordinator.Launch: opening the write stream always succeeds in the model, so the temporary file exists, empty, from the request on. A failed open (a missing directory, an unwritable path) is not modelled. In the source no file is created, the stream errors and then closes, and the close finds no temporary file: nothing is renamed, the output is untouched, and the run stays rejected with the open error, which the error handler raised first. In the model that close renames `bytes` onto the output.
- CoordinatorProperties.ErrorThenClosePublishes: the rename it proves follows a stream error raised after the temporary file was created, the only kind of stream error the model has. After a failed open the source renames nothing.
- Files are paths with contents, not open files. Two runs may write to one temporary path at once: after a dist `stop` followed by a request, or when two watched paths share an output. In the model the run that closes second writes its bytes to the temporary path again, renames them onto the output and resolves. In the source both streams write to the same file, which the first close has already renamed away. The second close then finds no temporary file and, in dist, rejects with "<tmp> does not exist".
- Changes to the options object after construction are not modelled. Dist reads `options.outPath` again on every `archiveDir` call (dist/index.js:50-54), so such a change would redirect later archives, a pending rerun included. The model's `Configure` fixes the output path once, at construction.
- `console.log` and `logVerbose` output is left out: it is logging only. Only the verbose flag is modelled.
- The readdir contents are left out. Only whether readdir failed matters.
- `fs` injection and `watcherOpts`/`tarOpts` are left out. The filesystem is the state's map, and the other options only pass through to foreign code.
- The src build's unhandled rejections are not modelled. One comes from an event-triggered run; another comes from the close handler when a rerun rejects (src/index.ts:64), whoever started the outer run. Either can end the process. The model's `OnEvent` ignores run outcomes in both builds, and the registry goes on accepting events after such a rejection.
- Sync.TarSync.Start: calling `start()` a second time is excluded by its precondition. The source would create a second watcher and leak the first.
- Sync.TarSync.Stop: the rejection of `stop()` without a watcher is the TypeError's message as a string, not the error object.
- Errors are strings throughout. In the source they are error objects that `"Failed init: " + err` turns into text.
- `dist/index.d.ts` and `jest.config.ts` are not part of this model: they contain declarations and test configuration only.
