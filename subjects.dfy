/** The part of RxJava's `PublishSubject<String>` that the downloader relies on:
    the sequence of events a subject has delivered to its subscribers.  Once a
    terminal event (an error or a completion) has been delivered, the subject
    drops every further event. */
module Subjects {

  datatype Event = Next(value: string) | Error(message: string) | Complete

  predicate IsTerminal(e: Event) {
    e.Error? || e.Complete?
  }

  /** The subject has delivered a terminal event. */
  predicate Terminated(h: seq<Event>) {
    exists i :: 0 <= i < |h| && IsTerminal(h[i])
  }

  /** The event-stream protocol: nothing follows a terminal event. */
  predicate WellFormed(h: seq<Event>) {
    forall i :: 0 <= i < |h| - 1 ==> !IsTerminal(h[i])
  }

  /** A one-shot stream that is resolved: either exactly one error, or exactly
      one value followed by completion. */
  predicate Settled(h: seq<Event>) {
    (|h| == 1 && h[0].Error?) || (|h| == 2 && h[0].Next? && h[1].Complete?)
  }

  /** What the subject's event log becomes when `e` is pushed into it. */
  function Emit(h: seq<Event>, e: Event): (r: seq<Event>)
    ensures WellFormed(h) ==> WellFormed(r)
    ensures Terminated(h) ==> r == h
    ensures !Terminated(h) ==> r == h + [e]
    ensures Terminated(r) <==> Terminated(h) || IsTerminal(e)
  {
    if Terminated(h) then h
    else
      assert forall i :: 0 <= i < |h| ==> (h + [e])[i] == h[i];
      assert (h + [e])[|h|] == e;
      h + [e]
  }

  class Subject {
    /** Every event delivered so far, in order. */
    var events: seq<Event>

    /** `PublishSubject.create()`: a subject that has delivered nothing. */
    constructor ()
      ensures events == []
    {
      events := [];
    }

    method OnNext(v: string)
      modifies this
      ensures events == Emit(old(events), Next(v))
    {
      events := Emit(events, Next(v));
    }

    method OnError(message: string)
      modifies this
      ensures events == Emit(old(events), Error(message))
    {
      events := Emit(events, Error(message));
    }

    method OnComplete()
      modifies this
      ensures events == Emit(old(events), Complete)
    {
      events := Emit(events, Complete);
    }
  }
}
