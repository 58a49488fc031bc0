/** Callers of `RxDownloader`, written against the class's contracts alone:
    what a subscriber and `isFileAlreadyInQueue` observe over a few calls. */
module Scenarios {
  import opened Wrappers
  import opened Subjects
  import opened Requests
  import opened Registry
  import opened Downloader

  /** A download that succeeds: its subject gets the local URI and then
      completes, and its URL is no longer queued afterwards. */
  method SuccessfulDownload(id: Long, url: string, localUri: string, request: Request)
    returns (queuedBefore: bool, queuedAfter: bool, events: seq<Event>)
    ensures queuedBefore && !queuedAfter
    ensures events == [Next(localUri), Complete]
  {
    var d := new RxDownloader();
    var s := d.Download(url, request, id);
    queuedBefore := d.IsFileAlreadyInQueue(url);
    d.OnReceive(Some(id), Record(STATUS_SUCCESSFUL, localUri));
    queuedAfter := d.IsFileAlreadyInQueue(url);
    events := s.events;
  }

  /** A download that the engine reports as failed: its subject gets one
      error, the engine removes it and its URL is no longer queued. */
  method FailedDownload(id: Long, url: string, status: int, request: Request)
    returns (queuedAfter: bool, events: seq<Event>, ghost removedIds: seq<seq<Long>>)
    requires status != STATUS_SUCCESSFUL
    ensures !queuedAfter
    ensures events == [Error(DOWNLOAD_FAILED)]
    ensures removedIds == [[id]]
  {
    var d := new RxDownloader();
    var s := d.Download(url, request, id);
    d.OnReceive(Some(id), Record(status, "ignored"));
    queuedAfter := d.IsFileAlreadyInQueue(url);
    events := s.events;
    removedIds := d.removed;
  }

  /** A download cancelled before its completion arrives: the engine removes
      it, its subject is never resolved (not even by the completion
      notification that follows) and its URL is still reported as queued. */
  method CancelledDownload(id: Long, url: string, q: QueryResult, request: Request)
    returns (queuedAfter: bool, events: seq<Event>, ghost removedIds: seq<seq<Long>>)
    ensures queuedAfter
    ensures events == []
    ensures removedIds == [[id]]
  {
    var d := new RxDownloader();
    var s := d.Download(url, request, id);
    d.CancelDownload();
    assert d.removed[0] == [id] by {
      var ids := d.removed[0];
      assert |ids| == 1 && id in ids;
    }
    d.OnReceive(Some(id), q);
    queuedAfter := d.IsFileAlreadyInQueue(url);
    events := s.events;
    removedIds := d.removed;
  }
}
