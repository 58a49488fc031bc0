# RxDownloader — verified model of the download registry

RxDownloader wraps Android's `DownloadManager` in RxJava: `download` hands a
request to the platform's download engine and returns a `PublishSubject` that
later delivers the downloaded file's local URI (then completes) or one error.
The library's own logic is the registry that routes a completion broadcast back
to the right subject — `subjectMap` (download id → subject) and `queueOfFiles`
(download id → source URL) — together with the operations over it
(`download`, `cancelDownload`, `isFileAlreadyInQueue`,
`DownloadStatusReceiver.onReceive`) and the defaulting in `getDefaultRequest`.

The model is split by component:

- `wrappers.dfy` — `Option` (a nullable argument, a missing intent extra) and
  `Result` (an exception thrown before anything is enqueued).
- `subjects.dfy` — the subject as a class holding the log of events delivered
  to its subscribers, with `OnNext`, `OnError`, `OnComplete`; `Emit` states the
  protocol: nothing follows a terminal event.
- `requests.dfy` — `getDefaultRequest` as a pure function from the caller's
  arguments and the filesystem's answers (`Storage`) to a request descriptor
  or the `RuntimeException` of the folder preparation.
- `registry.dfy` — the registry as a value (the ids that have a subject, and
  `queueOfFiles`), one step function per operation, a run over any sequence of
  calls, and the lemmas about such runs.
- `downloader.dfy` — class `RxDownloader` with the fields `subjectMap` and
  `queueOfFiles`; every operation is a method that updates them in place and
  whose contract ties the new state to the step function of `registry.dfy`.
  The engine's `enqueue` id and `query` row are parameters; the requests it
  receives and the id arrays it is told to remove are ghost logs.
- `scenarios.dfy` — three callers that use only the class's contracts: a
  successful download, a failed one, and one cancelled before it completes.

The invariant the code keeps is that every id in `subjectMap` is also in
`queueOfFiles` (`Registry.Consistent`, part of `RxDownloader.Valid`), not that
the two maps have the same keys. A reader might expect the two maps to
have the same keys and `cancelDownload` to clear both; the code clears only
`subjectMap`. After a cancel, the cancelled URLs remain in `queueOfFiles`,
`isFileAlreadyInQueue` keeps reporting them, and their completion broadcasts
are ignored, so nothing removes them unless the engine hands the same id out
again, in which case a later `download` overwrites the entry
(`Registry.AbandonedUrlStaysQueued`).
The subjects dropped by a cancel are never resolved.

For `downloadExternalFilesDir`, the folder that `getDefaultRequest` creates and
clears of a stale file lies under the application's internal files directory
(`context.getFilesDir()`), while the request asks the engine to write under the
application's external files directory. The model keeps the two apart: the
`Storage` answers are those for the folder that is prepared, and the
descriptor's destination is `ExternalFilesDir(path, filename)`.

## Model

| member | source | states |
|---|---|---|
| Subjects.Emit | library/src/main/java/com/esafirm/rxdownloader/RxDownloader.java:182-183 | pushing an event into a subject keeps the stream well formed; after an error or a completion the subject takes no further event; the stream is terminated exactly when it was or the new event is terminal |
| Subjects.Subject.constructor | library/src/main/java/com/esafirm/rxdownloader/RxDownloader.java:95 | a newly created subject has delivered nothing |
| Subjects.Subject.OnNext | library/src/main/java/com/esafirm/rxdownloader/RxDownloader.java:182 | the value is delivered unless the subject has already terminated |
| Subjects.Subject.OnError | library/src/main/java/com/esafirm/rxdownloader/RxDownloader.java:161-162 | the error is delivered unless the subject has already terminated |
| Subjects.Subject.OnComplete | library/src/main/java/com/esafirm/rxdownloader/RxDownloader.java:183 | completion is delivered unless the subject has already terminated |
| Requests.PrepareFolder | library/src/main/java/com/esafirm/rxdownloader/RxDownloader.java:130-141 | "Can't create directory" exactly when the folder is missing and cannot be created; otherwise "Can't delete file" exactly when a file of that name exists and cannot be deleted; no exception in every other case |
| Requests.DefaultRequest | library/src/main/java/com/esafirm/rxdownloader/RxDownloader.java:101-128 | fails exactly when folder preparation throws, with that error; otherwise the request fetches the URL, uses the file name as title and description, keeps the MIME type, targets the public or the app-files directory as asked, uses the Downloads folder when no destination path is given and the given one otherwise, and notifies on completion exactly when asked |
| Registry.ReceivedId | library/src/main/java/com/esafirm/rxdownloader/RxDownloader.java:147 | the id of a notification is its download-id extra, or 0 when the extra is missing |
| Registry.Resolution | library/src/main/java/com/esafirm/rxdownloader/RxDownloader.java:158-185 | a handled completion settles the subject: one error ("Cursor empty…" for a missing row, "Download Failed" for a non-successful status) or the row's local URI followed by completion; a value is delivered exactly when the status is successful |
| Registry.IsQueued | library/src/main/java/com/esafirm/rxdownloader/RxDownloader.java:83-85 | a URL is queued exactly when some id in `queueOfFiles` carries it |
| Registry.Submit | library/src/main/java/com/esafirm/rxdownloader/RxDownloader.java:92-99 | the engine's id gets a subject and the URL, the URL is then queued, no other id changes, and the subset invariant is preserved |
| Registry.CancelAll | library/src/main/java/com/esafirm/rxdownloader/RxDownloader.java:73-81 | no id keeps a subject, the invariant holds, and every URL is queued afterwards exactly when it was before |
| Registry.Notify | library/src/main/java/com/esafirm/rxdownloader/RxDownloader.java:146-186 | a notification for an id without a subject changes nothing; otherwise that id leaves both maps, no other URL changes, and the subset invariant is preserved |
| Registry.RunKeepsConsistent | library/src/main/java/com/esafirm/rxdownloader/RxDownloader.java:73-186 | every sequence of downloads, cancels and notifications keeps every subject's id in `queueOfFiles` |
| Registry.AbandonedUrlStaysQueued | library/src/main/java/com/esafirm/rxdownloader/RxDownloader.java:73-85 | an id whose subject was dropped keeps its URL, stays without a subject and its URL stays queued through any later calls, its own completion notification included, unless the engine hands the id out again |
| Registry.NotifyDropsUrl | library/src/main/java/com/esafirm/rxdownloader/RxDownloader.java:163-185 | after a tracked download's completion is handled, its URL is still queued exactly when another id carries the same URL |
| Registry.ResolvedAtMostOnce | library/src/main/java/com/esafirm/rxdownloader/RxDownloader.java:148-185 | over any later sequence of calls that does not reuse the id, a subject is resolved at most once, and never if it was not tracked at the start |
| Registry.CancelBreaksPairing | library/src/main/java/com/esafirm/rxdownloader/RxDownloader.java:73-81 | after a download and a cancel, the subset invariant holds but the two maps' keys differ and the URL is still queued |
| Downloader.KeysOf | library/src/main/java/com/esafirm/rxdownloader/RxDownloader.java:74-77 | enumerating the keys of `subjectMap` yields `size()` ids, each key exactly once, and nothing else |
| Downloader.RxDownloader.constructor | library/src/main/java/com/esafirm/rxdownloader/RxDownloader.java:31-39 | both maps start empty and the engine has received nothing |
| Downloader.RxDownloader.Download | library/src/main/java/com/esafirm/rxdownloader/RxDownloader.java:92-99 | the request is enqueued; the returned subject is new and pending; the engine's id maps to it in `subjectMap` and to the URL in `queueOfFiles`; no other entry changes |
| Downloader.RxDownloader.DownloadExternalPublicDir | library/src/main/java/com/esafirm/rxdownloader/RxDownloader.java:41-45 | when the folder preparation succeeds, the enqueued request is the default request for the URL and file name, with MIME type `*/*`, targets the Downloads folder of the public directory and notifies on completion exactly when asked; when it throws, nothing is enqueued and the registry is unchanged; on success the registry takes the `download` step |
| Downloader.RxDownloader.DownloadExternalPublicDirTyped | library/src/main/java/com/esafirm/rxdownloader/RxDownloader.java:47-53 | the default request with no destination path is built; on success it is enqueued and registered, targeting the Downloads folder of the public directory; on failure nothing changes |
| Downloader.RxDownloader.DownloadExternalPublicDirTo | library/src/main/java/com/esafirm/rxdownloader/RxDownloader.java:55-62 | the default request for the given folder of the public directory is enqueued and registered, or the folder error is returned with nothing changed |
| Downloader.RxDownloader.DownloadExternalFilesDir | library/src/main/java/com/esafirm/rxdownloader/RxDownloader.java:64-71 | the default request for the given folder of the app-files directory is enqueued and registered, or the folder error is returned with nothing changed |
| Downloader.RxDownloader.CancelDownload | library/src/main/java/com/esafirm/rxdownloader/RxDownloader.java:73-81 | the engine receives one remove call whose ids are exactly the keys of `subjectMap`, each once, `size()` of them; `subjectMap` is then empty and `queueOfFiles` unchanged |
| Downloader.RxDownloader.IsFileAlreadyInQueue | library/src/main/java/com/esafirm/rxdownloader/RxDownloader.java:83-85 | true exactly when some id in `queueOfFiles` carries the URL; nothing changes |
| Downloader.RxDownloader.OnReceive | library/src/main/java/com/esafirm/rxdownloader/RxDownloader.java:146-186 | for an id without a subject nothing changes (no engine call, no map change, no event); otherwise the pending subject is settled exactly once as `Registry.Resolution` says, the engine removes the id only when the download did not succeed, the id leaves both maps and no other entry or subject changes |
| Scenarios.SuccessfulDownload | library/src/main/java/com/esafirm/rxdownloader/RxDownloader.java:178-185 | a caller sees its URL queued after `download`, then the local URI and completion, and the URL no longer queued |
| Scenarios.FailedDownload | library/src/main/java/com/esafirm/rxdownloader/RxDownloader.java:168-176 | a non-successful status gives the caller one "Download Failed" error, one engine remove of that id, and the URL no longer queued |
| Scenarios.CancelledDownload | library/src/main/java/com/esafirm/rxdownloader/RxDownloader.java:73-81 | after a cancel the engine removed the id once, the subject never receives an event even when the completion notification arrives, and the URL is still reported as queued |

## Left out

- The Android `Context`, the registration of the broadcast receiver in the constructor, and the `Intent`/`IntentFilter` plumbing: framework I/O. A notification is modelled as the optional download-id extra it carries.
- The engine's internals — `enqueue`, `Query`, `Cursor` and its column lookup, `Uri.parse`, and a `null` download service: foreign calls. The id `enqueue` returns and the row `query` yields are parameters; `remove` calls and enqueued requests are ghost logs. The URL is kept as the request's URI string.
- The filesystem effects of `createFolderIfNeeded` and `removeDuplicateFileIfExist` (creating the folder, deleting the stale file) and the resolution of the folder path (`getExternalStoragePublicDirectory`, `getFilesDir`): only the filesystem's answers and the exception they lead to are modelled.
- RxJava's subscribers, multicast and scheduling: a subject is the log of events it delivered. An error pushed into a terminated subject goes to RxJava's global error handler, which is not modelled (the subject simply takes no event), and a `null` local URI, which would make `onNext` throw, cannot occur because the row's URI is a string.
- The implementation of `LongSparseArray` is not part of this model: `subjectMap` is a finite map whose keys `KeysOf` enumerates once each, in an order left open.
- Threads: the broadcast thread and caller threads are not interleaved; every call runs to completion before the next, as the source has no locking.
