# A verified model of groot-windows

groot-windows is the Windows image driver of Garden: `Unpack` turns the tar archive of an image layer into a
container-service layer and remembers its size, `Bundle` creates a writable volume on top of a list of layers,
`Delete` removes it, `WriteMetadata` and `Stats` record and report its size. The driver is small, but it is a state
machine over persistent stores in which every outside call can fail. This project models that state machine and
proves what every run of it keeps.

## How the model is built

- Every outside call (container service, file system, tar reader, privileges, lock, quota library) is one step
  `Perform` on a `World`: a disk and the trace of calls so far (`Machine.dfy`). An environment `nat -> Answer` decides
  the reply to each call by its position, so a statement for all environments is a statement for all patterns of
  failures. A failed call may have taken effect all the same and may leave debris; the exceptions are listed under
  Assumptions.
- A run killed between two calls leaves the disk that replaying a prefix of its trace gives.
- The driver's code is imperative and so are the classes: `Machine.Host`, `Hcs.Client`, `Tarstream.Streamer`,
  `DriverObject.Driver`, `Limiting.Limiter`, `Quota.Library`. Each method is proved to do exactly what a function on
  worlds says (`UnpackRun`, `BundleRun`, `DestroyRun`, `Stream`, ...); the theorems are about these functions.
  Deferred calls stand after the part of the method they guard.
- `Bundle` is specified as a program that makes one call at a time (`Bundle.Request`, `Bundle.Resume`), so that any
  number of processes can be interleaved call by call.

| file | contents |
|---|---|
| `GoBase.dfy` | int64 and uint64, decimal printing and parsing |
| `WinPath.dfy` | path normalisation, the two stores, whiteout names |
| `Tar.dfy` | tapes, alternate streams, the logical entries of an archive |
| `Machine.dfy` | disk, calls, replies, traces |
| `Hcs.dfy` | hcs/client.go |
| `Tarstream.dfy` | tarstream/tarstream.go: buffer and tee |
| `Unpack.dfy`, `Runs.dfy`, `Outcomes.dfy`, `Discipline.dfy` | one run of `Unpack`; what it does to the disk; when it succeeds; its resource discipline |
| `Bundle.dfy`, `Interleaving.dfy`, `Volumes.dfy` | bundle lifecycle; concurrent bundles; metadata and stats |
| `Histories.dfy` | any sequence of `Unpack`, `Bundle`, `Delete` and `WriteMetadata`: commit marker, convergence, cache, isolation |
| `Marker.dfy` | archives that name the size file |
| `Overlay.dfy` | what a stack of layers means |
| `Quota.dfy`, `Limiter.dfy` | volume/quota/quota.c; volume/limiter.go |
| `Driver.dfy` | the driver object |

## Main results

1. **Meaning of an image** (`Overlay.ImageMeaning`). After any history of operations on layers and volumes of an empty
   store, each failing or killed anywhere, truncated and corrupt archives included: once all layers of an image are
   committed and sealed, looking any path up through the layer folders in the order the driver emits them equals
   replaying the archives oldest first, with whiteouts, hard links into older layers and files that replace
   directories. A failure-free pull reaches that state (`Overlay.PulledImage`). As the property demands, no layer both
   adds and whites out a path; `Overlay.ClashLost` shows that this is needed.
2. **Commit marker** (`Histories.CommitMarker`). In every reachable state a layer with a size file is exactly the layer
   its whole archive describes, built on the right parents, the file holds its size, and the layer is sealed exactly if
   the run that built it got as far as a successful Close. Archives have to be clear of the marker's own name, and that
   condition is exact (`Marker.ClearExact`).
3. **Convergence and cache** (`Histories.Convergence`, `Histories.CacheAgrees`). One failure-free run repairs any
   history, and after a success every later run that can look at the layer returns the same size and changes nothing,
   whatever happened to the store in between.
4. **Loop refinement** (`Unpack.FeedExact`, `Unpack.FeedRefines`, `Unpack.FeedIssues`). The look-ahead loop issues one
   operation per logical entry, and reaches EOF exactly under the stated conditions.
5. **Tee and buffer** (`Tarstream.StreamDelivers`). For any chunking, a stream call whose writes and flush succeed
   delivered exactly its entry's bytes to the layer writer and to the backup, however the call ends.
6. **Discipline** (`Discipline.UnpackDisciplined`). On every exit the resources are taken and given back in one order.
7. **Concurrent bundles** (`Interleaving.InterleavedBundles`). Mutual exclusion, each process as if alone, no deadlock,
   and every schedule can be continued until all have finished.
8. **All or nothing, isolation** (`Bundle.BundleAllOrNothing`, `Bundle.DeleteUndoesBundle`, `Histories.HistoryIsolated`,
   `Histories.HistoryQuotas`).
9. **Resources and arithmetic** (`Quota.ResourcesConserved`, `Quota.LimitExact`, `Volumes.StatsAfterBundle`).
10. **Every answer read off the calls** (`Outcomes.UnpackExact`, `Bundle.BundleReads`, `Bundle.DeleteReads`,
    `Volumes.StatsReads`, `Hcs.DestroyReads`, `Hcs.CreateReads`). For every pattern of failures, what an operation
    answers is decided by the calls it made and their replies: which call stopped it, what was cleaned up, when it
    succeeds.

Four promises a reader might expect turn out not to hold; each comes with the exact condition and a witness:

- `DestroyLayer` does not always return its error: if all removals fail but the last unprepare or deactivate
  succeeded, building the message dereferences nil (`Hcs.DestroyTrace`, `Hcs.DestroyCanPanic`).
- A success of `Unpack` does not mean that the layer was imported: the size file is written before the writer's Close,
  whose error is dropped. The seal is missing exactly if Close failed or the run was killed before it, and no later
  operation changes that (`Histories.CommitMarker`, `Histories.MarkerStays`, `Runs.CommittedUnsealed`).
- A size file does not always mean a finished layer. The writer of a base layer creates its entries in the very folder
  in which the driver keeps that file, so an archive with a top-level entry `size` can leave any number as the layer's
  size when its run is cut off, and every later `Unpack` believes it. This happens exactly for base-layer archives
  with such an entry behind sound ones (`Marker.MarkerForged`, `Marker.ClearExact`). When the run does finish, the
  driver's write replaces the entry, and its backups replace entries of the four `.bak` names
  (`Overlay.FinishedShows`).
- The COM initialise count does not always come back: cleanup leaves the apartment even if it was never entered
  (`Quota.ResourcesConserved`, `Quota.FailedEntryUnbalances`).

## Assumptions

- `LayerExists` tells the truth when it answers: any folder in the store counts as a layer, also one that only
  `MkdirAll` has made, which is what lets a later run remove it.
- `os.WriteFile` writes the whole text or leaves the file alone; a quota whose Commit fails is not put on record.
- All archives offered for one layer that can be read to their end are the same archive, offered on the same parents:
  that is what a chain ID stands for (`Histories.SameJob`). Archives that arrive truncated or corrupt may be anything,
  as long as those for a base layer are clear of the marker's name (`Histories.AllClear`).
- No volume folder is a layer folder. For IDs of one component this is proved (`Histories.SparesLayers`).
- Closing the create lock releases it.
- The container service moves a layer from created to activated to prepared, and no removing call raises its stage.
- A folder and an archive's path are known by their exact string; upper and lower case are different. Only entries
  that could meet the driver's own files are compared without case.
- What a lookup shows is what the archives brought: the driver's own files in a layer folder are not part of it,
  except where they replace an entry.

## Model

| member | source | states |
|---|---|---|
| `GoBase.ParseFormat` | driver/unpack.go:57 | parsing the size file undoes printing it for every int64, the minimum included, and fails for every other integer |
| `GoBase.ParseExact` | driver/unpack.go:57 | any text is accepted exactly if it denotes an int64, with that value |
| `WinPath.StoresRooted` | driver/driver.go:66-72 | for every store without a volume name both stores are rooted at `C:\` and free of `..`; a rooted spelling and its `C:` spelling give the same stores |
| `WinPath.StoreIs` | driver/driver.go:66-72 | closed form of a store directory, on any drive |
| `WinPath.RootLater` | driver/driver.go:82-88 | normalising an unrooted path before rooting it does not change the rooted result |
| `WinPath.ToWindowsVolumeless` | driver/driver.go:82-88 | a path without volume becomes its components under `C:\` |
| `WinPath.ToWindowsIdempotent` | driver/driver.go:82-88 | `toWindowsPath` applied twice is `toWindowsPath` |
| `WinPath.FolderPath` | driver/driver.go:74-80 | closed form of a layer or volume folder; the size and metadata files lie directly in it |
| `WinPath.StoreLayout` | driver/driver.go:46-80 | layers lie in `layers`, volumes in `volumes`, the files are `size` and `metadata.json`, for every store and single-component ID |
| `WinPath.PartsLaw` | driver/driver.go:82-88 | normalising, component by component: nothing for an empty one and `.`, one name less for `..`, one more for a name |
| `WinPath.FoldersDisjoint` | driver/driver.go:66-80 | for single-component IDs no layer folder and volume folder overlap, and distinct IDs have folders that do not overlap |
| `WinPath.WhiteoutDecodes` | driver/unpack.go:88-92 | the whiteout branch removes exactly the cleaned path whose final component was prefixed with `.wh.`, with Windows separators |
| `WinPath.WhiteoutExact` | driver/unpack.go:88 | an entry is a whiteout exactly if its last component begins with `.wh.` |
| `WinPath.WhiteoutsDistinct` | driver/unpack.go:88-92 | two whiteouts remove the same path if and only if the paths they encode are the same once cleaned |
| `WinPath.CleanUnix` | driver/unpack.go:90 | without volume and backslashes the Windows clean is the Unix clean with Windows separators |
| `Tar.AlternateExact` | vendor/github.com/Microsoft/go-winio/backuptar/tar.go:491 | exactly the regular entries under the file's name and a colon are swallowed with it |
| `Tar.StreamPlanMeans` | vendor/github.com/Microsoft/go-winio/backuptar/tar.go:411-508 | one backup-stream call takes the file and all alternate streams behind it, writes their bytes in order, and hands back the header after them |
| `Hcs.DestroyTrace` | hcs/client.go:56-69 | at most three attempts, only the last can have removed the layer; success, error or panic read off the last replies |
| `Hcs.DestroyReads` | hcs/client.go:56-69 | attempts of unprepare, deactivate, remove; success exactly if a removal succeeded, otherwise all nine calls and error or panic |
| `Hcs.CreateReads` | hcs/client.go:38-54 | open the lock, create and prepare on exactly the given layers, up to the first failure; close the lock if opened; success exactly if all succeeded |
| `Hcs.DestroyOutcome` | hcs/client.go:59-66 | from any stage: the stage never rises, nothing else changes, success leaves the layer absent, and it is there if and only if it was and no removal took effect |
| `Hcs.DestroyCanPanic` | hcs/client.go:68 | the failure message panics when unprepare and deactivate succeed while removal fails |
| `Hcs.Client.DestroyLayer` | hcs/client.go:56-69 | the retry loop computes `DestroyRun` |
| `Hcs.Client.CreateLayer` | hcs/client.go:38-54 | create, activate, prepare on the given layers under the lock, released on every exit; success exactly if all succeeded |
| `Tarstream.PushConserves` | tarstream/tarstream.go:68-79 | the buffered writer loses, repeats and reorders nothing, for writes of any length |
| `Tarstream.DrainDelivers` | tarstream/tarstream.go:68-79 | reset, any chunks, flush: exactly the chunks' bytes arrive at both ends, and an error is reported exactly if a write failed |
| `Tarstream.StreamDelivers` | tarstream/tarstream.go:47-80 | how a stream call ends, exactly: as the tar stream, unless a create, write or flush failed, or a close failed while entries follow; unless a create, write or flush failed, layer writer and backup hold exactly the bytes read for this entry, also when the call fails by a close or a broken archive |
| `Tarstream.TeeDelivers` | tarstream/tarstream.go:50-68 | the same for the four boot files, with the deferred flush and closes in order |
| `Tarstream.TableIsRight` | tarstream/tarstream.go:16-21 | the table of boot files is the four names with their four backups |
| `Tarstream.TeeOrder` | tarstream/tarstream.go:55-79 | create, all writes and the flush, then the backup writer's close, then the file's |
| `Tarstream.Streamer.WriteBackupStreamFromTarFile` | tarstream/tarstream.go:47-80 | the result does not depend on what the reused buffer held before |
| `Tarstream.Streamer.BufWrite` | tarstream/tarstream.go:25 | the loop of the buffered writer computes `Push` |
| `Tarstream.Streamer.Next` | tarstream/tarstream.go:39-41 | the next header, EOF or the read error |
| `Tarstream.Streamer.SetReader` | tarstream/tarstream.go:35-37 | a new archive replaces the old reader |
| `Unpack.FolderListReverses` | driver/unpack.go:65-68 | IDs oldest first give folders newest first |
| `Unpack.FeedRefines` | driver/unpack.go:79-118 | at EOF the folder holds the logical entries and the backups, up to a size file that the archive itself brings, and the total is the int64 sum of the header sizes of the regular files that are logical entries; a sound archive with no failure reaches EOF |
| `Unpack.FeedIssues` | driver/unpack.go:85-118 | in every run the writer operations issued are the expected ones in order, none skipped or repeated, up to where it stopped |
| `Unpack.FeedExact` | driver/unpack.go:85-122 | the loop reaches EOF if and only if the archive is sound, nothing was refused, and no backup's close failed with another entry behind it |
| `Unpack.FilledEntries` | driver/unpack.go:85-113 | the entries of the finished folder are the archive's logical entries |
| `Unpack.BackupsMatch` | tarstream/tarstream.go:16-21 | in the finished folder each boot file's backup holds the bytes of its last entry |
| `Unpack.BackupsNamed` | tarstream/tarstream.go:16-21 | by name: `bcd.bak` holds the last `BCD`, and so on for the four; no other file is touched |
| `Runs.FinishedFiles` | tarstream/tarstream.go:16-21 | a finished layer has its size, the backups of the boot files in its archive, and no other file of the driver |
| `Outcomes.UnpackExact` | driver/unpack.go:20-126 | on a layer without size file: success if and only if the archive is good, no call was refused, no close cut it short and what was there could be removed; failure or panic as `DestroyLayer`; which size a failure returns |
| `Outcomes.CachedExact` | driver/unpack.go:41-58 | on a layer with one: the parsed text if and only if the calls that look at it succeed, and an error otherwise; nothing changes |
| `Discipline.UnpackDisciplined` | driver/unpack.go:34-77 | on every exit, panics included, and whatever the process did before: privileges released exactly if obtained, once and last; destroy, writer calls and Close inside that window; reader reset before Close; Close once and last |
| `Runs.RunSafe` | driver/unpack.go:20-126 | from any world: a run on a committed layer changes nothing; otherwise a success is a complete build, sealed exactly if Close succeeded, and any other end leaves no size file, if the archive is clear of the marker |
| `Runs.PrefixSafe` | driver/unpack.go:41-125 | killing a run after any call leaves a committed layer as it was, and a new size file means a complete layer, sealed exactly if Close had succeeded |
| `Histories.CommitMarker` | driver/unpack.go:41-63 | after any history of `Unpack`, `Bundle`, `Delete` and `WriteMetadata`, a layer with a size file was built by one of the runs from its whole archive on its parents, untouched since, the file holds that total, and the layer is sealed if and only if the calls that run made contain a successful Close |
| `Marker.MarkerForged` | vendor/github.com/Microsoft/hcsshim/internal/wclayer/baselayer.go:96 | every base-layer archive that gets to an entry named as the size file has, for every int64, a run cut off there that leaves that number as the layer's size, which every later run returns |
| `Marker.ClearExact` | driver/driver.go:78-80 | a job's runs leave a size file only on a complete layer if and only if its archive is clear of the marker's name |
| `Runs.CleanRun` | driver/unpack.go:48-125 | from any disk without the size file a failure-free run destroys what is there and builds the finished layer, nothing else changing |
| `Histories.CommittedIsComplete` | driver/unpack.go:41-125 | after any history, truncated and corrupt archives included, a committed layer is the one its archive describes |
| `Histories.Convergence` | driver/unpack.go:41-125 | after any such history one failure-free run returns and leaves what it would on an empty store; only the seal can be missing, exactly if the layer was committed without it |
| `Runs.Cached` | driver/unpack.go:41-58 | a layer with a size file is answered from it, whatever archive is offered |
| `Histories.MarkerStays` | driver/unpack.go:41-59 | no history changes anything of a committed layer |
| `Histories.CacheAgrees` | driver/unpack.go:57-125 | once a run succeeded every later run that can look at the layer, after any history in between, returns the same size and leaves the disk unchanged |
| `Runs.CommittedUnsealed` | driver/unpack.go:74-124 | a run whose Close fails succeeds and commits |
| `Overlay.TargetHides` | driver/unpack.go:88-92 | the path removed for a whiteout is the path the whiteout hides |
| `Overlay.LogicalMeans` | driver/unpack.go:85-113 | the operations issued change what the archive's headers say |
| `Overlay.LayerSame` | driver/unpack.go:85-113 | within a layer, change by change, lookup and replay agree; hard links resolve to the same node |
| `Overlay.LayersSame` | driver/bundle.go:32-35 | lookup newest first is replay oldest first, for every path and every list of layers in which no path is both added and whited out and no change undoes its own layer's |
| `Overlay.ClashLost` | vendor/github.com/Microsoft/hcsshim/internal/wclayer/importlayer.go:79-83 | a path that one layer whites out and then adds is in the replay and not in the lookup |
| `Overlay.FinishedShows` | driver/driver.go:78-80 | a finished layer shows its archive entry by entry, except that the driver's own files replace a base layer's entries of their names |
| `Overlay.ImageMeaning` | driver/unpack.go:65-118 | the same on every reachable disk on which the image's layers are committed and sealed |
| `Overlay.UnreadPullable` | driver/unpack.go:41-63 | histories in which every archive of the image's layers was truncated or corrupt, and clear of the marker's name, do not stand in the way of a pull |
| `Overlay.PullReaches` | driver/unpack.go:41-125 | unpacking the layers of an image in order, after any history, finishes each and leaves every other folder as it was |
| `Overlay.PulledImage` | driver/unpack.go:65-118 | after such a pull, lookup through the emitted folders is replay of the archives |
| `Bundle.RunCreates` | hcs/client.go:38-54 | the locked part of a bundle is `CreateLayer` |
| `Bundle.RunDestroys` | driver/bundle.go:37-42 | the cleanup of a bundle is `DestroyLayer` |
| `Bundle.BundleReads` | driver/bundle.go:12-72 | the outcome of every run read off its calls: which call in the order of the source stopped it, on which layers the volume was created and prepared, that every later failure is followed by `DestroyLayer` and how that ended |
| `Bundle.BundleSucceeds` | driver/bundle.go:12-72 | a Bundle of an absent ID without failures and with a mount path succeeds |
| `Bundle.BundleAllOrNothing` | driver/bundle.go:12-72 | success: volume prepared on exactly the given layers, non-empty mount path, exactly the limit on record; failure with successful cleanup: absent; existing bundle: untouched; no other folder changes |
| `Bundle.DeleteReads` | driver/delete.go:8-28 | error exactly if the check fails or `DestroyLayer` does; nothing to do if the bundle is absent; otherwise the removal calls and their verdict |
| `Bundle.DeleteRemoves` | driver/delete.go:8-28 | a successful Delete leaves the bundle absent from any stage; deleting again is one existence check; without failures it succeeds |
| `Bundle.DeleteUndoesBundle` | driver/delete.go:8-28 | Bundle and then a successful Delete restores every folder |
| `Interleaving.InterleavedBundles` | hcs/client.go:38-54 | any number of processes, distinct IDs, any interleaving: never two between create and prepare, each ends as if alone, no deadlock, and some continuation finishes all |
| `Interleaving.InterleavedCreation` | driver/bundle.go:24-61 | the invariant behind it, after every schedule |
| `Interleaving.FinishedAsAlone` | driver/bundle.go:24-61 | a finished process has the outcome and the folder of its solo run |
| `Interleaving.SomeoneCanGoOn` | hcs/client.go:39-43 | while a process is unfinished some process can make its next call |
| `Interleaving.SomeScheduleFinishes` | driver/bundle.go:24-61 | wherever the processes stand, some schedule brings every one to its end |
| `Volumes.UsageExact` | driver/stats.go:40-43 | total minus exclusive is the image size modulo 2^64, and exactly if the sum fits an int64; both are int64, usage is reported modulo 2^64 and exactly below 2^63 |
| `Volumes.StatsReads` | driver/stats.go:13-44 | numbers if and only if mount path, quota query, metadata and decoding are all good, and then their sum; missing path if and only if it is empty; nothing changes |
| `Volumes.MetadataReads` | driver/write_metadata.go:12-30 | one write of the encoded size to `metadata.json`, success exactly if it succeeds |
| `Volumes.StatsAfterBundle` | driver/stats.go:13-44 | after Bundle and WriteMetadata: with no limit and no quota, exclusive 0 and total the image size; otherwise the usage on top |
| `Histories.SparesLayers` | driver/driver.go:66-80 | with single-component IDs no operation on a volume works in a layer folder |
| `Histories.HistoryIsolated` | driver/driver.go:66-80 | in any history, failing or killed anywhere, a layer changes only by `Unpack` of that layer and a volume only by operations that name it |
| `Histories.HistoryQuotas` | driver/bundle.go:58-61 | in any history the quota of a mount path changes only by a `Bundle` that was given that path, and to its limit |
| `Limiting.CommitIsSetQuota` | volume/limiter.go:36-41 | the machine's quota commit is the library's |
| `Limiting.QueryIsGetQuotaUsed` | volume/limiter.go:58-63 | the machine's quota query succeeds, finds and reports as the library does |
| `Quota.SetQuotaBalanced` | volume/quota/quota.c:14-57 | on every path all handles are given back once; success exactly if no call but the string's allocation failed, and then the limit is on record |
| `Quota.GetQuotaUsedBalanced` | volume/quota/quota.c:60-101 | on every path all handles are given back once; success exactly if the manager answered and an existing quota's usage could be read, which is the result; a volume without quota is success with 0 |
| `Quota.ResourcesConserved` | volume/quota/quota.c:103-151 | over any sequence of calls no handle leaks or is released twice, and the initialise count drops by exactly the number of calls that never entered the apartment |
| `Quota.FailedEntryUnbalances` | volume/quota/quota.c:122-127 | a failed CoInitializeEx takes one from the count |
| `Quota.LimitExact` | volume/limiter.go:18-23 | every limit from 0 on goes out with exactly the overhead; the addition wraps exactly for limits from -10240 to -1; only 0 means no quota |
| `Quota.Library.InitializeQuotaManager` | volume/quota/quota.c:103-142 | the four calls and the count and handle they leave |
| `Quota.Library.CleanUp` | volume/quota/quota.c:143-151 | both handles released if there, the count lowered in any case |
| `Quota.Library.SetQuota` | volume/quota/quota.c:14-57 | the function as written is balanced and computes `SetQuotaRun` |
| `Quota.Library.GetQuotaUsed` | volume/quota/quota.c:60-101 | the function as written is balanced and computes `GetQuotaUsedRun` |
| `Limiting.Limiter.SetQuota` | volume/limiter.go:18-42 | 0 makes no call; otherwise one call with size plus overhead, on record exactly if it succeeds; nothing else changes |
| `Limiting.Limiter.GetQuotaUsed` | volume/limiter.go:44-64 | the bytes the library reports, 0 without quota or on failure |
| `DriverObject.Driver.LayerFolders` | driver/bundle.go:32-35 | the prepending loop yields the reversed list of folders |
| `DriverObject.Driver.Unpack` | driver/unpack.go:20-126 | the method computes `UnpackRun`; every call of it, not only the first of a process, keeps the discipline and has the outcomes of `RunSafe` and `UnpackExact` |
| `DriverObject.Driver.UnpackElevated` | driver/unpack.go:41-59 | the part under the privileges |
| `DriverObject.Driver.UnpackBuild` | driver/unpack.go:61-77 | the part that builds, with reader reset and Close behind it |
| `DriverObject.Driver.UnpackFill` | driver/unpack.go:79-125 | the look-ahead loop with `hdr`, `nextFileErr` and `totalSize` computes `Fill` |
| `DriverObject.Driver.Bundle` | driver/bundle.go:12-72 | the method computes `BundleRun`, its calls tell its outcome, and a success stands on exactly the folders it returns |
| `DriverObject.Driver.FinishBundle` | driver/bundle.go:49-61 | mount path and quota, each failure followed by the cleanup |
| `DriverObject.Driver.CleanupLayer` | driver/bundle.go:37-42 | the cleanup closure |
| `DriverObject.Driver.Delete` | driver/delete.go:8-28 | the method computes `DeleteRun`; its calls tell its answer; success leaves the bundle absent |
| `DriverObject.Driver.WriteMetadata` | driver/write_metadata.go:12-30 | success leaves the encoded metadata in `metadata.json` in the bundle's folder |
| `DriverObject.Driver.Stats` | driver/stats.go:13-44 | the method computes `StatsRun`; its calls tell its answer; nothing changes |

## Left out

- Command line, configuration, logging and the text of errors; of the errors only which call failed is kept.
- The insides of the container service, the backup-stream library, the tar reader, the file lock and the DLL loader: they are calls whose replies the environment chooses, or data of the tape.
- UNC and device volumes, colons inside path components, drive-relative stores, and IDs of more than one component.
- Opaque whiteouts, which the code treats like any other whiteout, and whiteout names with a trailing slash.
- The general JSON grammar: the decoder is any function that gives back what encoding an image size wrote.
- Two processes bundling the same ID, or unpacking the same layer, at once.
- A lock whose release fails, and a process killed while holding it.
- Torn writes of the size file.
- Windows' case-insensitive file names, except for entries that meet the driver's own files.
- Tarstream.Streamer.BufWrite: after a failed write it does not track how many bytes are still pending, because only a reset follows.
- Interleaving.InterleavedBundles: says that a limit is on record only if no other process was given the same mount path.
