/**
 * Real-time job progress: a map from job id to a FIFO queue of events,
 * publishers that append to it and a server-sent-events reader that drains it
 * (backend/app/services/event_stream.py).
 *
 * The asynchronous wait of the reader is modelled by a schedule of `Step`s:
 * each step is what one `wait_for(queue.get(), timeout)` turned out to do.
 * When the schedule runs out the client has closed the stream; the reader's
 * clean-up still runs, as Python's `finally` does when a generator is closed.
 */
module EventStream {

  /** An event `{"type": kind, "data": data}`; `data` is the payload already written as a JSON object. */
  datatype Event = Event(kind: string, data: string)

  /** The outcome of one wait of the stream reader. */
  datatype Step =
    | Poll               // the wait returns the head of the queue, or times out when the queue is empty
    | Deliver(e: Event)  // a publisher puts `e` on the queue during the wait, which then returns the head
    | Raise(msg: string) // an exception is raised inside the reader's loop

  /** One item the reader yields to the client. */
  datatype Sse =
    | Data(e: Event)       // a queued event
    | KeepAlive            // the timeout comment
    | Failure(msg: string) // the error event synthesised from an exception

  /** The JSON text of an event (serialisation of the payload itself is not modelled). */
  function Serialize(e: Event): string {
    "{\"type\": \"" + e.kind + "\", \"data\": " + e.data + "}"
  }

  /** The event synthesised by the reader's exception handler. */
  function ErrorEvent(msg: string): Event {
    Event("error", "{\"message\": \"" + msg + "\"}")
  }

  /** The text that goes over the wire for one yielded item. */
  function Wire(s: Sse): string {
    match s
    case Data(e) => "data: " + Serialize(e) + "\n\n"
    case KeepAlive => ": keep-alive\n\n"
    case Failure(msg) => "data: " + Serialize(ErrorEvent(msg)) + "\n\n"
  }

  /** The event types after which the reader stops. */
  predicate IsTerminal(e: Event) {
    e.kind == "complete" || e.kind == "error"
  }

  /** The queue of a job, empty when the map has none. */
  function QueueOf(streams: map<int, seq<Event>>, jobId: int): seq<Event> {
    if jobId in streams then streams[jobId] else []
  }

  /** What one wait yields on queue `q`: the item, the queue afterwards, and whether the reader stops. */
  datatype Turn = Turn(item: Sse, queue: seq<Event>, stop: bool)

  function Next(q: seq<Event>, step: Step): (t: Turn)
    ensures var q' := q + (if step.Deliver? then [step.e] else []);
      if t.item.Data? then q' != [] && t.item.e == q'[0] && t.queue == q'[1..] else t.queue == q'
    ensures t.stop <==> step.Raise? || (t.item.Data? && IsTerminal(t.item.e))
    ensures step.Raise? ==> t == Turn(Failure(step.msg), q, true)
    ensures !step.Raise? ==> (t.item.Data? <==> step.Deliver? || q != [])
    ensures step.Poll? && q == [] ==> t == Turn(KeepAlive, q, false)
  {
    match step
    case Raise(msg) => Turn(Failure(msg), q, true)
    case Poll =>
      if q == [] then Turn(KeepAlive, q, false)
      else Turn(Data(q[0]), q[1..], IsTerminal(q[0]))
    case Deliver(e) =>
      var q' := q + [e];
      Turn(Data(q'[0]), q'[1..], IsTerminal(q'[0]))
  }

  /**
   * What the reader yields when it starts on queue `q` and its waits go as `steps` say.
   * One item per step at most: the reader ends after a terminal event or an exception.
   */
  function Stream(q: seq<Event>, steps: seq<Step>): (out: seq<Sse>)
    ensures |out| <= |steps|
    decreases |steps|
  {
    if steps == [] then []
    else
      var t := Next(q, steps[0]);
      [t.item] + (if t.stop then [] else Stream(t.queue, steps[1..]))
  }

  /** The events publishers deliver during the waits of a schedule, in order. */
  function Delivered(steps: seq<Step>): (r: seq<Event>)
    ensures |r| <= |steps|
  {
    if steps == [] then []
    else (if steps[0].Deliver? then [steps[0].e] else []) + Delivered(steps[1..])
  }

  /** The queued events among the yielded items, in order. */
  function DataOf(out: seq<Sse>): (r: seq<Event>)
    ensures |r| <= |out|
  {
    if out == [] then [] else (if out[0].Data? then [out[0].e] else []) + DataOf(out[1..])
  }

  predicate IsPrefix<T(==)>(a: seq<T>, b: seq<T>) {
    |a| <= |b| && b[..|a|] == a
  }

  lemma DataOfCons(x: Sse, o: seq<Sse>)
    ensures DataOf([x] + o) == (if x.Data? then [x.e] else []) + DataOf(o)
  {
    assert ([x] + o)[1..] == o;
  }

  lemma PrefixCons(x: Event, a: seq<Event>, b: seq<Event>)
    requires IsPrefix(a, b)
    ensures IsPrefix([x] + a, [x] + b)
  {
    assert ([x] + b)[..|a| + 1] == [x] + b[..|a|];
  }

  /** FIFO: the reader yields the queued events, then the delivered ones, in order, without gaps or repeats. */
  lemma {:induction false} StreamIsFifo(q: seq<Event>, steps: seq<Step>)
    ensures IsPrefix(DataOf(Stream(q, steps)), q + Delivered(steps))
    decreases |steps|
  {
    if steps != [] {
      var rest := steps[1..];
      var t := Next(q, steps[0]);
      var tail := if t.stop then [] else Stream(t.queue, rest);
      DataOfCons(t.item, tail);
      var q' := q + (if steps[0].Deliver? then [steps[0].e] else []);
      assert q + Delivered(steps) == q' + Delivered(rest);
      if t.item.Data? {
        assert t.queue == q'[1..];
        if !t.stop {
          StreamIsFifo(t.queue, rest);
        }
        assert q' + Delivered(rest) == [q'[0]] + (t.queue + Delivered(rest));
        PrefixCons(q'[0], DataOf(tail), t.queue + Delivered(rest));
      } else if !t.stop {
        assert t.queue == q' == [];
        StreamIsFifo(t.queue, rest);
      }
    }
  }

  /** The queue left behind when the reader stops or the schedule runs out. */
  function QueueAfter(q: seq<Event>, steps: seq<Step>): seq<Event>
    decreases |steps|
  {
    if steps == [] then q
    else
      var t := Next(q, steps[0]);
      if t.stop then t.queue else QueueAfter(t.queue, steps[1..])
  }

  /** No exception is raised during the schedule. */
  predicate NoRaise(steps: seq<Step>) {
    forall i :: 0 <= i < |steps| ==> !steps[i].Raise?
  }

  lemma NoRaiseTail(steps: seq<Step>)
    requires steps != [] && NoRaise(steps)
    ensures !steps[0].Raise? && NoRaise(steps[1..])
  {
    forall i | 0 <= i < |steps[1..]| ensures !steps[1..][i].Raise? {
      assert steps[1..][i] == steps[i + 1];
    }
  }

  lemma NoTerminalTail(s: seq<Event>)
    requires s != [] && NoTerminal(s)
    ensures NoTerminal(s[1..])
  {
    forall i | 0 <= i < |s[1..]| ensures !IsTerminal(s[1..][i]) {
      assert s[1..][i] == s[i + 1];
    }
  }

  /**
   * Nothing is lost: while the reader does not stop, every event queued or delivered is either
   * yielded or still waiting in the queue, in its original order.
   */
  lemma {:induction false} StreamLosesNothing(q: seq<Event>, steps: seq<Step>)
    requires NoRaise(steps) && NoTerminal(q + Delivered(steps))
    ensures DataOf(Stream(q, steps)) + QueueAfter(q, steps) == q + Delivered(steps)
    decreases |steps|
  {
    if steps != [] {
      var rest := steps[1..];
      var t := Next(q, steps[0]);
      var q' := q + (if steps[0].Deliver? then [steps[0].e] else []);
      var all := q' + Delivered(rest);
      assert q + Delivered(steps) == all;
      NoRaiseTail(steps);
      var head: seq<Event> := if t.item.Data? then [t.item.e] else [];
      var remaining := t.queue + Delivered(rest);
      if t.item.Data? {
        assert all == [q'[0]] + remaining;
        assert !IsTerminal(all[0]);
        NoTerminalTail(all);
        assert all[1..] == remaining;
      } else {
        assert all == remaining;
      }
      assert !t.stop;
      StreamLosesNothing(t.queue, rest);
      assert Stream(q, steps) == [t.item] + Stream(t.queue, rest);
      assert QueueAfter(q, steps) == QueueAfter(t.queue, rest);
      YieldedThenRemaining(t.item, Stream(t.queue, rest), QueueAfter(t.queue, rest), head, remaining);
      assert all == head + remaining;
    }
  }

  /** One more yielded item in front: its event, if any, goes in front of what was accounted for. */
  lemma YieldedThenRemaining(item: Sse, later: seq<Sse>, left: seq<Event>, head: seq<Event>, remaining: seq<Event>)
    requires DataOf(later) + left == remaining
    requires head == if item.Data? then [item.e] else []
    ensures DataOf([item] + later) + left == head + remaining
  {
    DataOfCons(item, later);
  }

  /**
   * A reader that only waits drains the queue: with `k` waits and no terminal event queued, it
   * yields the first `k` queued events (all of them when there are fewer), in order.
   */
  lemma {:induction false} PollsDrainQueue(q: seq<Event>, steps: seq<Step>)
    requires NoTerminal(q)
    requires forall i :: 0 <= i < |steps| ==> steps[i] == Poll
    ensures DataOf(Stream(q, steps)) == if |steps| <= |q| then q[..|steps|] else q
    decreases |steps|
  {
    if steps != [] {
      var rest := steps[1..];
      assert forall i :: 0 <= i < |rest| ==> rest[i] == steps[i + 1];
      var t := Next(q, Poll);
      assert steps[0] == Poll;
      if q == [] {
        PollsDrainQueue([], rest);
        DataOfCons(KeepAlive, Stream([], rest));
      } else {
        assert t == Turn(Data(q[0]), q[1..], false);
        assert NoTerminal(q[1..]) by {
          forall i | 0 <= i < |q[1..]| ensures !IsTerminal(q[1..][i]) {
            assert q[1..][i] == q[i + 1];
          }
        }
        PollsDrainQueue(q[1..], rest);
        DataOfCons(t.item, Stream(q[1..], rest));
        if |steps| <= |q| {
          assert q[..|steps|] == [q[0]] + q[1..][..|rest|];
        } else {
          assert q == [q[0]] + q[1..];
        }
      }
    }
  }

  /** Every terminal event and every synthesised error among `out` is its last item. */
  predicate EndsAtTerminal(out: seq<Sse>) {
    forall i :: 0 <= i < |out| && ((out[i].Data? && IsTerminal(out[i].e)) || out[i].Failure?) ==> i == |out| - 1
  }

  lemma EndsAtTerminalCons(x: Sse, o: seq<Sse>)
    requires EndsAtTerminal(o)
    requires o != [] ==> (x.Data? && !IsTerminal(x.e)) || x.KeepAlive?
    ensures EndsAtTerminal([x] + o)
  {
    forall i | 1 <= i < |[x] + o|
      ensures ([x] + o)[i] == o[i - 1]
    {
    }
  }

  /** A terminal event is the last item yielded, and a synthesised error is too. */
  lemma {:induction false} StreamEndsAtTerminal(q: seq<Event>, steps: seq<Step>)
    ensures EndsAtTerminal(Stream(q, steps))
    decreases |steps|
  {
    if steps != [] {
      var t := Next(q, steps[0]);
      if !t.stop {
        StreamEndsAtTerminal(t.queue, steps[1..]);
        EndsAtTerminalCons(t.item, Stream(t.queue, steps[1..]));
      }
    }
  }

  predicate NoTerminal(q: seq<Event>) {
    forall i :: 0 <= i < |q| ==> !IsTerminal(q[i])
  }

  /**
   * Time-outs and non-terminal events never end the stream: with no exception and no
   * terminal event, the reader yields exactly one item for every wait until the client closes it.
   */
  lemma {:induction false} StreamRunsUntilClosed(q: seq<Event>, steps: seq<Step>)
    requires NoTerminal(q)
    requires forall i :: 0 <= i < |steps| ==> !steps[i].Raise? && (steps[i].Deliver? ==> !IsTerminal(steps[i].e))
    ensures |Stream(q, steps)| == |steps|
    ensures forall i :: 0 <= i < |Stream(q, steps)| ==> !Stream(q, steps)[i].Failure?
    decreases |steps|
  {
    if steps != [] {
      var t := Next(q, steps[0]);
      var q' := q + (if steps[0].Deliver? then [steps[0].e] else []);
      assert NoTerminal(q');
      assert t.queue == q' || t.queue == q'[1..];
      StreamRunsUntilClosed(t.queue, steps[1..]);
      assert Stream(q, steps) == [t.item] + Stream(t.queue, steps[1..]);
    }
  }

  /** A time-out on an empty queue yields the keep-alive comment and the reader goes on waiting. */
  lemma {:induction false} TimeoutKeepsStreamOpen(rest: seq<Step>)
    ensures Stream([], [Poll] + rest) == [KeepAlive] + Stream([], rest)
    ensures Wire(KeepAlive) == ": keep-alive\n\n"
  {
    assert ([Poll] + rest)[1..] == rest;
  }

  /** Replacing a job's queue leaves the map of all other queues as it was. */
  lemma UpdateKeepsOthers(m: map<int, seq<Event>>, k: int, v: seq<Event>)
    ensures m[k := v] - {k} == m - {k}
  {
  }

  /** Holds the queues of all jobs. */
  class EventStreamManager {
    var streams: map<int, seq<Event>>

    constructor ()
      ensures streams == map[]
    {
      streams := map[];
    }

    /** Creates the job's queue unless it has one; no existing queue changes. */
    method CreateStream(jobId: int)
      modifies this
      ensures streams == if jobId in old(streams) then old(streams) else old(streams)[jobId := []]
    {
      if jobId !in streams {
        streams := streams[jobId := []];
      }
    }

    /** Appends `{type, data}` to the tail of the job's queue, creating the queue first when there is none. */
    method PublishEvent(jobId: int, eventType: string, data: string)
      modifies this
      ensures streams == old(streams)[jobId := QueueOf(old(streams), jobId) + [Event(eventType, data)]]
    {
      if jobId !in streams {
        CreateStream(jobId);
      }
      streams := streams[jobId := streams[jobId] + [Event(eventType, data)]];
    }

    /**
     * The server-sent-events reader: yields what `Stream` says for the job's queue and the
     * schedule, and removes the job's queue when it ends, leaving every other queue as it was.
     */
    /** One wait of the reader: it takes the item `Next` says and leaves the rest of the queue behind. */
    method ReadOnce(jobId: int, step: Step) returns (item: Sse, stop: bool)
      requires jobId in streams
      modifies this
      ensures var t := Next(old(streams[jobId]), step);
        item == t.item && stop == t.stop && streams == old(streams)[jobId := t.queue]
    {
      match step {
        case Raise(msg) =>
          item, stop := Failure(msg), true;
        case Poll =>
          var queue := streams[jobId];
          if queue == [] {
            item, stop := KeepAlive, false;
          } else {
            streams := streams[jobId := queue[1..]];
            item, stop := Data(queue[0]), IsTerminal(queue[0]);
          }
        case Deliver(e) =>
          PublishEvent(jobId, e.kind, e.data);
          var queue := streams[jobId];
          streams := streams[jobId := queue[1..]];
          item, stop := Data(queue[0]), IsTerminal(queue[0]);
      }
    }

    /**
     * The server-sent-events reader: yields what `Stream` says for the job's queue and the
     * schedule, and removes the job's queue when it ends, leaving every other queue as it was.
     */
    method StreamEvents(jobId: int, steps: seq<Step>) returns (out: seq<Sse>)
      modifies this
      ensures out == Stream(QueueOf(old(streams), jobId), steps)
      ensures streams == old(streams) - {jobId}
    {
      if jobId !in streams {
        CreateStream(jobId);
      }
      ghost var q0 := streams[jobId];
      ghost var others := streams - {jobId};
      out := [];
      var i := 0;
      var done := false;
      while i < |steps| && !done
        invariant 0 <= i <= |steps|
        invariant jobId in streams && streams - {jobId} == others
        invariant !done ==> out + Stream(streams[jobId], steps[i..]) == Stream(q0, steps)
        invariant done ==> out == Stream(q0, steps)
        decreases |steps| - i
      {
        ghost var cur := streams[jobId];
        ghost var t := Next(cur, steps[i]);
        assert steps[i..][0] == steps[i] && steps[i..][1..] == steps[i + 1..];
        assert Stream(cur, steps[i..]) == [t.item] + (if t.stop then [] else Stream(t.queue, steps[i + 1..]));
        UpdateKeepsOthers(streams, jobId, t.queue);
        ghost var prev := out;
        var item, stop := ReadOnce(jobId, steps[i]);
        out := out + [item];
        if !stop {
          var rest := Stream(t.queue, steps[i + 1..]);
          assert out + rest == prev + ([t.item] + rest);
        }
        done := stop;
        i := i + 1;
      }
      if !done {
        assert steps[i..] == [];
      }
      streams := streams - {jobId};
    }
  }
}
