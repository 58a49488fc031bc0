/** `RxDownloader`: the registry fields `subjectMap` and `queueOfFiles`, the
    facade that submits and cancels downloads and answers "is this URL queued",
    and the broadcast receiver that resolves a download's subject.  The
    platform's download engine is outside the model: the id `enqueue` returns
    and the row `query` returns are parameters, and the requests it is given and
    the ids it is told to remove are recorded in ghost logs. */
module Downloader {
  import opened Wrappers
  import opened Subjects
  import opened Requests
  import opened Registry

  predicate NoDuplicates(s: seq<Long>) {
    forall i, j :: 0 <= i < j < |s| ==> s[i] != s[j]
  }

  /** The keys of a `LongSparseArray` as `keyAt(0) .. keyAt(size() - 1)`
      enumerates them: each key exactly once, in an order the model does not
      fix. */
  method KeysOf<V>(m: map<Long, V>) returns (keys: seq<Long>)
    ensures |keys| == |m|
    ensures NoDuplicates(keys)
    ensures forall k :: k in keys <==> k in m
  {
    keys := [];
    var rest := m.Keys;
    while rest != {}
      invariant rest <= m.Keys
      invariant forall k :: k in keys <==> k in m && k !in rest
      invariant NoDuplicates(keys)
      invariant |keys| + |rest| == |m|
      decreases |rest|
    {
      var k :| k in rest;
      keys := keys + [k];
      rest := rest - {k};
    }
  }

  class RxDownloader {
    /** Download id -> the subject its caller observes. */
    var subjectMap: map<Long, Subject>
    /** Download id -> the URL it fetches. */
    var queueOfFiles: map<Long, string>

    /** Every request handed to the engine's `enqueue`, in order. */
    ghost var enqueued: seq<Request>
    /** The id arrays passed to the engine's `remove`, one per call, in order. */
    ghost var removed: seq<seq<Long>>

    /** Every subject id has a URL; every subject in the map is still pending;
        no two ids share a subject. */
    ghost predicate Valid()
      reads this, subjectMap.Values
    {
      && subjectMap.Keys <= queueOfFiles.Keys
      && (forall k :: k in subjectMap ==> subjectMap[k].events == [])
      && (forall k, k' :: k in subjectMap && k' in subjectMap && k != k' ==> subjectMap[k] != subjectMap[k'])
    }

    /** The registry this object holds, as a value. */
    function Model(): (reg: Registry)
      reads this
      ensures reg.tracked == subjectMap.Keys && reg.queue == queueOfFiles
    {
      Registry(subjectMap.Keys, queueOfFiles)
    }

    /** The subject that a notification for `id` would resolve, if any. */
    function SubjectOf(id: Long): (s: set<Subject>)
      reads this
      ensures id in subjectMap ==> s == {subjectMap[id]}
      ensures id !in subjectMap ==> s == {}
    {
      if id in subjectMap then {subjectMap[id]} else {}
    }

    /** A downloader with nothing queued.  Registering the broadcast receiver
        is left to the platform. */
    constructor ()
      ensures Valid()
      ensures subjectMap == map[] && queueOfFiles == map[]
      ensures enqueued == [] && removed == []
    {
      subjectMap := map[];
      queueOfFiles := map[];
      enqueued := [];
      removed := [];
    }

    /** `download(url, request)`: the engine returns `engineId` for `request`;
        that id gets a new pending subject and the URL, and the subject is
        returned.  No other entry changes. */
    method Download(url: string, request: Request, engineId: Long) returns (s: Subject)
      requires Valid()
      modifies this
      ensures Valid()
      ensures fresh(s) && s.events == []
      ensures subjectMap == old(subjectMap)[engineId := s]
      ensures queueOfFiles == old(queueOfFiles)[engineId := url]
      ensures Model() == Submit(old(Model()), engineId, url)
      ensures enqueued == old(enqueued) + [request] && removed == old(removed)
    {
      enqueued := enqueued + [request];
      s := new Subject();
      subjectMap := subjectMap[engineId := s];
      queueOfFiles := queueOfFiles[engineId := url];
    }

    /** `downloadExternalPublicDir(url, filename, showCompletedNotification)`:
        the any-type MIME default, the Downloads folder, the public directory. */
    method DownloadExternalPublicDir(
      url: string, filename: string, showCompletedNotification: bool,
      st: Storage, engineId: Long)
      returns (r: Result<Subject, StorageError>)
      requires Valid()
      modifies this
      ensures Valid()
      ensures r.Err? <==> PrepareFolder(st).Some?
      ensures r.Err? ==> r.error == PrepareFolder(st).value
      ensures r.Err? ==> subjectMap == old(subjectMap) && queueOfFiles == old(queueOfFiles)
                         && enqueued == old(enqueued) && removed == old(removed)
      ensures r.Err? ==> Model() == old(Model())
      ensures r.Ok? ==> Model() == Submit(old(Model()), engineId, url)
      ensures r.Ok? ==>
                && fresh(r.value) && r.value.events == []
                && subjectMap == old(subjectMap)[engineId := r.value]
                && queueOfFiles == old(queueOfFiles)[engineId := url]
                && removed == old(removed)
                && enqueued == old(enqueued) +
                     [DefaultRequest(url, filename, None, DEFAULT_MIME_TYPE, true, showCompletedNotification, st).value]
                && enqueued[|old(enqueued)|].mimeType == DEFAULT_MIME_TYPE
                && enqueued[|old(enqueued)|].destination == ExternalPublicDir(DIRECTORY_DOWNLOADS, filename)
                && (enqueued[|old(enqueued)|].visibility == VisibleNotifyCompleted <==> showCompletedNotification)
    {
      r := DownloadExternalPublicDirTyped(url, filename, DEFAULT_MIME_TYPE, showCompletedNotification, st, engineId);
    }

    /** `downloadExternalPublicDir(url, filename, mimeType, showCompletedNotification)`:
        the Downloads folder of the public directory. */
    method DownloadExternalPublicDirTyped(
      url: string, filename: string, mimeType: string, showCompletedNotification: bool,
      st: Storage, engineId: Long)
      returns (r: Result<Subject, StorageError>)
      requires Valid()
      modifies this
      ensures Valid()
      ensures r.Err? <==> PrepareFolder(st).Some?
      ensures r.Err? ==> r.error == PrepareFolder(st).value
      ensures r.Err? ==> subjectMap == old(subjectMap) && queueOfFiles == old(queueOfFiles)
                         && enqueued == old(enqueued) && removed == old(removed)
      ensures r.Err? ==> Model() == old(Model())
      ensures r.Ok? ==> Model() == Submit(old(Model()), engineId, url)
      ensures r.Ok? ==>
                && fresh(r.value) && r.value.events == []
                && subjectMap == old(subjectMap)[engineId := r.value]
                && queueOfFiles == old(queueOfFiles)[engineId := url]
                && removed == old(removed)
                && enqueued == old(enqueued) +
                     [DefaultRequest(url, filename, None, mimeType, true, showCompletedNotification, st).value]
                && enqueued[|old(enqueued)|].destination == ExternalPublicDir(DIRECTORY_DOWNLOADS, filename)
    {
      var built := DefaultRequest(url, filename, None, mimeType, true, showCompletedNotification, st);
      if built.Err? {
        return Err(built.error);
      }
      var s := Download(url, built.value, engineId);
      r := Ok(s);
    }

    /** `downloadExternalPublicDir(url, filename, destinationPath, mimeType,
        showCompletedNotification)`: a chosen folder of the public directory. */
    method DownloadExternalPublicDirTo(
      url: string, filename: string, destinationPath: string, mimeType: string,
      showCompletedNotification: bool, st: Storage, engineId: Long)
      returns (r: Result<Subject, StorageError>)
      requires Valid()
      modifies this
      ensures Valid()
      ensures r.Err? <==> PrepareFolder(st).Some?
      ensures r.Err? ==> r.error == PrepareFolder(st).value
      ensures r.Err? ==> subjectMap == old(subjectMap) && queueOfFiles == old(queueOfFiles)
                         && enqueued == old(enqueued) && removed == old(removed)
      ensures r.Err? ==> Model() == old(Model())
      ensures r.Ok? ==> Model() == Submit(old(Model()), engineId, url)
      ensures r.Ok? ==>
                && fresh(r.value) && r.value.events == []
                && subjectMap == old(subjectMap)[engineId := r.value]
                && queueOfFiles == old(queueOfFiles)[engineId := url]
                && removed == old(removed)
                && enqueued == old(enqueued) +
                     [DefaultRequest(url, filename, Some(destinationPath), mimeType, true, showCompletedNotification, st).value]
                && enqueued[|old(enqueued)|].destination == ExternalPublicDir(destinationPath, filename)
    {
      var built := DefaultRequest(url, filename, Some(destinationPath), mimeType, true, showCompletedNotification, st);
      if built.Err? {
        return Err(built.error);
      }
      var s := Download(url, built.value, engineId);
      r := Ok(s);
    }

    /** `downloadExternalFilesDir(url, filename, destinationPath, mimeType,
        showCompletedNotification)`: a folder of the application's own files
        directory. */
    method DownloadExternalFilesDir(
      url: string, filename: string, destinationPath: string, mimeType: string,
      showCompletedNotification: bool, st: Storage, engineId: Long)
      returns (r: Result<Subject, StorageError>)
      requires Valid()
      modifies this
      ensures Valid()
      ensures r.Err? <==> PrepareFolder(st).Some?
      ensures r.Err? ==> r.error == PrepareFolder(st).value
      ensures r.Err? ==> subjectMap == old(subjectMap) && queueOfFiles == old(queueOfFiles)
                         && enqueued == old(enqueued) && removed == old(removed)
      ensures r.Err? ==> Model() == old(Model())
      ensures r.Ok? ==> Model() == Submit(old(Model()), engineId, url)
      ensures r.Ok? ==>
                && fresh(r.value) && r.value.events == []
                && subjectMap == old(subjectMap)[engineId := r.value]
                && queueOfFiles == old(queueOfFiles)[engineId := url]
                && removed == old(removed)
                && enqueued == old(enqueued) +
                     [DefaultRequest(url, filename, Some(destinationPath), mimeType, false, showCompletedNotification, st).value]
                && enqueued[|old(enqueued)|].destination == ExternalFilesDir(destinationPath, filename)
    {
      var built := DefaultRequest(url, filename, Some(destinationPath), mimeType, false, showCompletedNotification, st);
      if built.Err? {
        return Err(built.error);
      }
      var s := Download(url, built.value, engineId);
      r := Ok(s);
    }

    /** `cancelDownload`: the ids of all subjects, each exactly once, are
        collected into an array of `subjectMap.size()` elements; `subjectMap`
        is cleared and the engine is told to remove those ids.  `queueOfFiles`
        is left as it was, and the dropped subjects are never resolved. */
    method CancelDownload()
      requires Valid()
      modifies this
      ensures Valid()
      ensures subjectMap == map[] && queueOfFiles == old(queueOfFiles)
      ensures Model() == CancelAll(old(Model()))
      ensures enqueued == old(enqueued)
      ensures |removed| == |old(removed)| + 1 && removed[..|old(removed)|] == old(removed)
      ensures var ids := removed[|old(removed)|];
              |ids| == |old(subjectMap)| && NoDuplicates(ids) &&
              (forall k :: k in ids <==> k in old(subjectMap))
    {
      var keys := KeysOf(subjectMap);
      var ids := new Long[|subjectMap|];
      for i := 0 to |subjectMap|
        modifies ids
        invariant ids[..i] == keys[..i]
      {
        var downloadId := keys[i];
        ids[i] := downloadId;
      }
      assert ids[..] == keys;
      subjectMap := map[];
      removed := removed + [ids[..]];
    }

    /** `isFileAlreadyInQueue(url)`: whether some id still carries `url`. */
    method IsFileAlreadyInQueue(url: string) returns (b: bool)
      ensures b <==> exists id :: id in queueOfFiles && queueOfFiles[id] == url
      ensures b == IsQueued(Model(), url)
    {
      b := url in queueOfFiles.Values;
    }

    /** `DownloadStatusReceiver.onReceive`: a notification for an id without a
        subject is ignored.  Otherwise the engine's row decides: a missing row
        or a status other than successful makes the engine remove the id and
        the subject fail once; a successful row gives the subject its local URI
        and then completion, without a remove.  Either way the id leaves both
        maps and no other entry changes. */
    method OnReceive(extra: Option<Long>, query: QueryResult)
      requires Valid()
      modifies this, SubjectOf(ReceivedId(extra))
      ensures Valid()
      ensures Model() == Notify(old(Model()), extra, query)
      ensures enqueued == old(enqueued)
      ensures var id := ReceivedId(extra);
              id !in old(subjectMap) ==>
                subjectMap == old(subjectMap) && queueOfFiles == old(queueOfFiles) && removed == old(removed)
      ensures var id := ReceivedId(extra);
              id in old(subjectMap) ==>
                && old(subjectMap)[id].events == Resolution(query)
                && subjectMap == old(subjectMap) - {id}
                && queueOfFiles == old(queueOfFiles) - {id}
                && removed == old(removed) + (if Succeeded(query) then [] else [[id]])
    {
      var id := ReceivedId(extra);
      if id !in subjectMap {
        return;
      }
      var publishSubject := subjectMap[id];

      if query.NoRecord? {
        removed := removed + [[id]];
        publishSubject.OnError(CURSOR_EMPTY);
        subjectMap := subjectMap - {id};
        queueOfFiles := queueOfFiles - {id};
        return;
      }

      if STATUS_SUCCESSFUL != query.status {
        removed := removed + [[id]];
        publishSubject.OnError(DOWNLOAD_FAILED);
        subjectMap := subjectMap - {id};
        queueOfFiles := queueOfFiles - {id};
        return;
      }

      var downloadedPackageUriString := query.localUri;
      publishSubject.OnNext(downloadedPackageUriString);
      publishSubject.OnComplete();
      subjectMap := subjectMap - {id};
      queueOfFiles := queueOfFiles - {id};
    }
  }
}
