/** Interval events on one thread: every Start is closed by exactly one End
    of the same kind and id, innermost first. */
module Intervals {
  import opened Base
  import opened Records

  /** An interval opened on the thread and not yet closed. */
  datatype Frame = Frame(kind: StringId, id: StringId)

  /** Follows the events of one thread with a stack of open intervals: a
      Start pushes, an End must close the innermost open interval; events of
      other threads are skipped. None when an End closes nothing or the
      wrong interval. */
  function Replay(events: seq<RawEvent>, thread: u64, open: seq<Frame>): Option<seq<Frame>>
    decreases |events|
  {
    if events == [] then Some(open)
    else
      var e := events[0];
      if e.threadId != thread then Replay(events[1..], thread, open)
      else if e.timestamp.kind == Start then Replay(events[1..], thread, open + [Frame(e.eventKind, e.id)])
      else if open != [] && open[|open| - 1] == Frame(e.eventKind, e.id) then Replay(events[1..], thread, open[..|open| - 1])
      else None
  }

  /** The thread's intervals in these events are properly nested and all closed. */
  predicate Nested(events: seq<RawEvent>, thread: u64)
  {
    Replay(events, thread, []) == Some([])
  }

  /** Replaying two runs of events one after the other is replaying their
      concatenation. */
  lemma {:induction false} ReplayConcat(a: seq<RawEvent>, b: seq<RawEvent>, thread: u64, open: seq<Frame>)
    ensures Replay(a + b, thread, open) ==
            match Replay(a, thread, open) case None => None case Some(mid) => Replay(b, thread, mid)
  {
    if a == [] {
      assert a + b == b;
    } else {
      var e := a[0];
      assert (a + b)[0] == e;
      assert (a + b)[1..] == a[1..] + b;
      if e.threadId != thread {
        ReplayConcat(a[1..], b, thread, open);
      } else if e.timestamp.kind == Start {
        ReplayConcat(a[1..], b, thread, open + [Frame(e.eventKind, e.id)]);
      } else if open != [] && open[|open| - 1] == Frame(e.eventKind, e.id) {
        ReplayConcat(a[1..], b, thread, open[..|open| - 1]);
      }
    }
  }

  /** Intervals opened further out do not change how a run of events replays:
      it only works on the top of the stack. */
  lemma {:induction false} ReplayAbove(events: seq<RawEvent>, thread: u64, open: seq<Frame>, below: seq<Frame>)
    requires Replay(events, thread, open).Some?
    ensures Replay(events, thread, below + open) == Some(below + Replay(events, thread, open).value)
  {
    if events != [] {
      var e := events[0];
      if e.threadId != thread {
        ReplayAbove(events[1..], thread, open, below);
      } else if e.timestamp.kind == Start {
        assert below + open + [Frame(e.eventKind, e.id)] == below + (open + [Frame(e.eventKind, e.id)]);
        ReplayAbove(events[1..], thread, open + [Frame(e.eventKind, e.id)], below);
      } else {
        assert (below + open)[..|below + open| - 1] == below + open[..|open| - 1];
        ReplayAbove(events[1..], thread, open[..|open| - 1], below);
      }
    }
  }

  /** Events of other threads never disturb a thread's intervals. */
  lemma {:induction false} OtherThreadsIgnored(events: seq<RawEvent>, thread: u64, open: seq<Frame>)
    requires forall i | 0 <= i < |events| :: events[i].threadId != thread
    ensures Replay(events, thread, open) == Some(open)
  {
    if events != [] {
      OtherThreadsIgnored(events[1..], thread, open);
    }
  }

  /** A single Start opens exactly one interval. */
  lemma OpenOne(start: RawEvent)
    requires start.timestamp.kind == Start
    ensures Replay([start], start.threadId, []) == Some([Frame(start.eventKind, start.id)])
  {
    assert [start][1..] == [];
    assert [] + [Frame(start.eventKind, start.id)] == [Frame(start.eventKind, start.id)];
  }

  /** A Start, then properly nested events, then the End of the same kind, id
      and thread: the interval is closed and everything recorded in between
      sits inside it. */
  lemma IntervalNested(start: RawEvent, inner: seq<RawEvent>, end: RawEvent)
    requires start.timestamp.kind == Start && end.timestamp.kind == End
    requires start.eventKind == end.eventKind && start.id == end.id && start.threadId == end.threadId
    requires Nested(inner, start.threadId)
    ensures Nested([start] + inner + [end], start.threadId)
  {
    var t := start.threadId;
    var f := Frame(start.eventKind, start.id);
    OpenOne(start);
    ReplayAbove(inner, t, [], [f]);
    assert [f] + [] == [f];
    ReplayConcat([start], inner, t, []);
    assert Replay([start] + inner, t, []) == Some([f]);
    ReplayConcat([start] + inner, [end], t, []);
    assert [f][..0] == [];
  }

  /** A Start whose End was never recorded leaves the thread unbalanced. */
  lemma UnclosedIntervalNotNested(start: RawEvent, inner: seq<RawEvent>)
    requires start.timestamp.kind == Start
    requires Nested(inner, start.threadId)
    ensures !Nested([start] + inner, start.threadId)
  {
    var t := start.threadId;
    var f := Frame(start.eventKind, start.id);
    OpenOne(start);
    ReplayAbove(inner, t, [], [f]);
    assert [f] + [] == [f];
    ReplayConcat([start], inner, t, []);
  }

  /** An End that names a different kind or id than the innermost open
      interval of its thread does not close it: the replay fails there. */
  lemma MismatchedEndRejected(events: seq<RawEvent>, thread: u64, open: seq<Frame>)
    requires events != [] && events[0].threadId == thread && events[0].timestamp.kind == End
    requires open != [] && open[|open| - 1] != Frame(events[0].eventKind, events[0].id)
    ensures Replay(events, thread, open) == None
  {
  }

  /** An End on a thread with no open interval closes nothing: the replay fails. */
  lemma UnopenedEndRejected(events: seq<RawEvent>, thread: u64)
    requires events != [] && events[0].threadId == thread && events[0].timestamp.kind == End
    ensures Replay(events, thread, []) == None
  {
  }

  /** The guard's stream: a Start record, the records written while the guard
      was alive, then the End written when it was released. If the thread's
      events in between are nested, so is the whole span. */
  lemma RecordedIntervalNested(rs: seq<Record>, s: nat)
    requires s < |rs| - 1
    requires rs[s].Event? && rs[|rs| - 1].Event?
    requires var start, end := rs[s].event, rs[|rs| - 1].event;
      && start.timestamp.kind == Start && end.timestamp.kind == End
      && start.eventKind == end.eventKind && start.id == end.id && start.threadId == end.threadId
    requires Nested(Events(rs[s + 1..|rs| - 1]), rs[s].event.threadId)
    ensures Nested(Events(rs[s..]), rs[s].event.threadId)
  {
    var mid := rs[s + 1..|rs| - 1];
    assert rs[s..] == [rs[s]] + mid + [rs[|rs| - 1]];
    EventsConcat([rs[s]] + mid, [rs[|rs| - 1]]);
    EventsConcat([rs[s]], mid);
    assert Events([rs[s]]) == [rs[s].event];
    assert Events([rs[|rs| - 1]]) == [rs[|rs| - 1].event];
    IntervalNested(rs[s].event, Events(mid), rs[|rs| - 1].event);
  }
}
