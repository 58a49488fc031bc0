/** The download registry of `RxDownloader` seen as a value: the ids that still
    have a subject (`subjectMap`'s keys, every subject there being unresolved)
    and the id-to-URL map `queueOfFiles`.  The three operations that change it
    are steps of a sequential state machine; the lemmas follow it through any
    sequence of calls. */
module Registry {
  import opened Wrappers
  import opened Subjects

  /** A Java `long`: the download ids the engine hands out. */
  newtype Long = x: int | -0x8000_0000_0000_0000 <= x < 0x8000_0000_0000_0000

  /** `DownloadManager.STATUS_SUCCESSFUL`. */
  const STATUS_SUCCESSFUL: int := 8

  /** The messages of the two `IllegalStateException`s a subject can receive. */
  const CURSOR_EMPTY: string := "Cursor empty, this shouldn't happened"
  const DOWNLOAD_FAILED: string := "Download Failed"

  /** What the engine's `query` for one id yields: an empty cursor, or a row
      with its `COLUMN_STATUS` and `COLUMN_LOCAL_URI`. */
  datatype QueryResult = NoRecord | Record(status: int, localUri: string)

  predicate Succeeded(q: QueryResult) {
    q.Record? && q.status == STATUS_SUCCESSFUL
  }

  /** The id `onReceive` reads from the broadcast: `EXTRA_DOWNLOAD_ID`, or 0 when
      the extra is missing. */
  function ReceivedId(extra: Option<Long>): (id: Long)
    ensures extra.Some? ==> id == extra.value
    ensures extra.None? ==> id == 0
  {
    extra.GetOr(0)
  }

  /** The events a pending subject receives when its download's completion is
      handled: one error when the row is missing or not successful, otherwise
      the local URI followed by completion. */
  function Resolution(q: QueryResult): (events: seq<Event>)
    ensures Settled(events) && WellFormed(events) && Terminated(events)
    ensures events[0].Next? <==> Succeeded(q)
    ensures Succeeded(q) ==> events[0].value == q.localUri
    ensures q.NoRecord? ==> events == [Error(CURSOR_EMPTY)]
    ensures q.Record? && !Succeeded(q) ==> events == [Error(DOWNLOAD_FAILED)]
  {
    match q
    case NoRecord => [Error(CURSOR_EMPTY)]
    case Record(status, uri) =>
      if status != STATUS_SUCCESSFUL then [Error(DOWNLOAD_FAILED)]
      else
        assert IsTerminal([Next(uri), Complete][1]);
        [Next(uri), Complete]
  }

  /** `tracked`: the keys of `subjectMap`; `queue`: `queueOfFiles`. */
  datatype Registry = Registry(tracked: set<Long>, queue: map<Long, string>)

  const Empty: Registry := Registry({}, map[])

  /** The invariant the code keeps: every id with a subject has a URL.  The
      converse fails once `cancelDownload` has run. */
  predicate Consistent(reg: Registry) {
    reg.tracked <= reg.queue.Keys
  }

  /** `isFileAlreadyInQueue`. */
  function IsQueued(reg: Registry, url: string): (b: bool)
    ensures b <==> exists id :: id in reg.queue && reg.queue[id] == url
  {
    url in reg.queue.Values
  }

  /** `download`: the engine's id gets a new subject and the URL. */
  function Submit(reg: Registry, id: Long, url: string): (r: Registry)
    ensures Consistent(reg) ==> Consistent(r)
    ensures id in r.tracked && id in r.queue && r.queue[id] == url
    ensures IsQueued(r, url)
    ensures forall k :: k != id ==> (k in r.tracked <==> k in reg.tracked)
    ensures forall k :: k != id ==> (k in r.queue <==> k in reg.queue)
    ensures forall k :: k != id && k in reg.queue ==> r.queue[k] == reg.queue[k]
  {
    Registry(reg.tracked + {id}, reg.queue[id := url])
  }

  /** `cancelDownload`: every subject is dropped, every URL is kept. */
  function CancelAll(reg: Registry): (r: Registry)
    ensures r.tracked == {} && Consistent(r)
    ensures forall url :: IsQueued(r, url) <==> IsQueued(reg, url)
  {
    Registry({}, reg.queue)
  }

  /** `onReceive`: a notification for an id without a subject changes nothing;
      otherwise the id leaves both maps, whatever the query says. */
  function Notify(reg: Registry, extra: Option<Long>, q: QueryResult): (r: Registry)
    ensures ReceivedId(extra) !in reg.tracked ==> r == reg
    ensures ReceivedId(extra) in reg.tracked ==>
              r.tracked == reg.tracked - {ReceivedId(extra)} &&
              r.queue.Keys == reg.queue.Keys - {ReceivedId(extra)}
    ensures forall k :: k in r.queue ==> k in reg.queue && r.queue[k] == reg.queue[k]
    ensures Consistent(reg) ==> Consistent(r)
  {
    var id := ReceivedId(extra);
    if id !in reg.tracked then reg
    else Registry(reg.tracked - {id}, reg.queue - {id})
  }

  /** One call of the facade or of the broadcast receiver. */
  datatype Op =
    | SubmitOp(id: Long, url: string)
    | CancelOp
    | NotifyOp(extra: Option<Long>, query: QueryResult)

  function Step(reg: Registry, op: Op): Registry {
    match op
    case SubmitOp(id, url) => Submit(reg, id, url)
    case CancelOp => CancelAll(reg)
    case NotifyOp(extra, q) => Notify(reg, extra, q)
  }

  /** The registry after a sequence of calls, in order. */
  function Run(reg: Registry, ops: seq<Op>): Registry
    decreases |ops|
  {
    if ops == [] then reg else Run(Step(reg, ops[0]), ops[1..])
  }

  /** `ops` never hands the id `id` out again. */
  predicate NeverResubmits(ops: seq<Op>, id: Long) {
    forall i :: 0 <= i < |ops| ==> !(ops[i].SubmitOp? && ops[i].id == id)
  }

  /** Every sequence of calls keeps every subject's id in `queueOfFiles`. */
  lemma {:induction false} RunKeepsConsistent(reg: Registry, ops: seq<Op>)
    requires Consistent(reg)
    ensures Consistent(Run(reg, ops))
    decreases |ops|
  {
    if ops != [] {
      var next := Step(reg, ops[0]);
      assert Consistent(next);
      RunKeepsConsistent(next, ops[1..]);
    }
  }

  /** A download whose subject was dropped (by `cancelDownload`) keeps its URL
      in `queueOfFiles` through every later call, its own completion
      notification included, as long as the engine does not reuse its id: the
      URL is reported as queued for good. */
  lemma {:induction false} AbandonedUrlStaysQueued(reg: Registry, ops: seq<Op>, id: Long)
    requires id in reg.queue && id !in reg.tracked
    requires NeverResubmits(ops, id)
    ensures var r := Run(reg, ops); id in r.queue && r.queue[id] == reg.queue[id] && id !in r.tracked
    ensures IsQueued(Run(reg, ops), reg.queue[id])
    decreases |ops|
  {
    if ops != [] {
      var next := Step(reg, ops[0]);
      assert id in next.queue && next.queue[id] == reg.queue[id] && id !in next.tracked by {
        assert !(ops[0].SubmitOp? && ops[0].id == id);
      }
      assert NeverResubmits(ops[1..], id) by {
        forall i | 0 <= i < |ops[1..]|
          ensures !(ops[1..][i].SubmitOp? && ops[1..][i].id == id)
        {
          assert ops[1..][i] == ops[i + 1];
        }
      }
      AbandonedUrlStaysQueued(next, ops[1..], id);
    }
  }

  /** Handling the completion of a tracked download stops `isFileAlreadyInQueue`
      from reporting its URL unless another id still carries the same URL. */
  lemma NotifyDropsUrl(reg: Registry, extra: Option<Long>, q: QueryResult, url: string)
    requires ReceivedId(extra) in reg.tracked
    ensures IsQueued(Notify(reg, extra, q), url) <==>
              exists k :: k in reg.queue && k != ReceivedId(extra) && reg.queue[k] == url
  {
  }

  /** Whether `op` resolves the subject of `id` when applied to `reg`. */
  predicate Resolves(reg: Registry, op: Op, id: Long) {
    op.NotifyOp? && ReceivedId(op.extra) == id && id in reg.tracked
  }

  /** How many calls of `ops`, run from `reg`, resolve the subject of `id`. */
  function Resolutions(reg: Registry, ops: seq<Op>, id: Long): nat
    decreases |ops|
  {
    if ops == [] then 0
    else (if Resolves(reg, ops[0], id) then 1 else 0) + Resolutions(Step(reg, ops[0]), ops[1..], id)
  }

  /** A subject is resolved at most once, and never when it is no longer
      tracked, whatever notifications arrive afterwards. */
  lemma {:induction false} ResolvedAtMostOnce(reg: Registry, ops: seq<Op>, id: Long)
    requires NeverResubmits(ops, id)
    ensures Resolutions(reg, ops, id) <= (if id in reg.tracked then 1 else 0)
    decreases |ops|
  {
    if ops != [] {
      var next := Step(reg, ops[0]);
      assert !(ops[0].SubmitOp? && ops[0].id == id);
      assert id in next.tracked ==> id in reg.tracked && !Resolves(reg, ops[0], id);
      assert NeverResubmits(ops[1..], id) by {
        forall i | 0 <= i < |ops[1..]|
          ensures !(ops[1..][i].SubmitOp? && ops[1..][i].id == id)
        {
          assert ops[1..][i] == ops[i + 1];
        }
      }
      ResolvedAtMostOnce(next, ops[1..], id);
    }
  }

  /** The two maps are not paired: submitting a URL and cancelling leaves an id
      with a URL and no subject, and the URL still counts as queued. */
  lemma CancelBreaksPairing(id: Long, url: string)
    ensures var r := Run(Empty, [SubmitOp(id, url), CancelOp]);
            Consistent(r) && r.tracked != r.queue.Keys && IsQueued(r, url)
  {
    var r1 := Step(Empty, SubmitOp(id, url));
    assert Run(Empty, [SubmitOp(id, url), CancelOp]) == Run(r1, [CancelOp]);
    assert Run(r1, [CancelOp]) == Run(CancelAll(r1), []);
    assert id in CancelAll(r1).queue;
  }
}
