/** Buffered channels and the in-process transport of Pattern 1. */
module Transport {
  import opened Models

  const EVENT_BUFFER := 256

  /** A select with a default branch: send if there is room, else drop. */
  function Offer<T>(buffer: seq<T>, capacity: nat, x: T): (after: seq<T>)
    ensures |buffer| <= capacity ==> |after| <= capacity
  {
    if |buffer| < capacity then buffer + [x] else buffer
  }

  /** A buffered channel. Sending on a closed channel panics, so `Send` forbids it. */
  class Channel<T> {
    const capacity: nat
    var buffer: seq<T>
    var closed: bool

    constructor (capacity: nat)
      ensures this.capacity == capacity && buffer == [] && !closed
    {
      this.capacity := capacity;
      buffer := [];
      closed := false;
    }

    method Send(x: T) returns (sent: bool)
      requires !closed
      modifies this`buffer
      ensures sent <==> |old(buffer)| < capacity
      ensures buffer == Offer(old(buffer), capacity, x)
    {
      sent := |buffer| < capacity;
      if sent {
        buffer := buffer + [x];
      }
    }

    /** `None` when a receive would block. */
    method Receive() returns (x: Option<T>)
      modifies this`buffer
      ensures x.None? <==> old(buffer) == []
      ensures x.Some? ==> old(buffer) == [x.value] + buffer
      ensures x.None? ==> buffer == old(buffer)
    {
      if buffer == [] {
        return None;
      }
      x := Some(buffer[0]);
      buffer := buffer[1..];
    }
  }

  datatype EmitOutcome = Sent | Dropped | Blocks

  /** What Emit does with an event: a terminal event waits for room, any other is dropped. */
  function EmitOutcomeOf(buffer: seq<TaskEvent>, e: TaskEvent): EmitOutcome {
    if |buffer| < EVENT_BUFFER then Sent
    else if IsTerminalEvent(e) then Blocks
    else Dropped
  }

  /** The manager-side and worker-side views share these two channels. */
  class ChannelTransport {
    const tasks: Channel<Task>
    const events: Channel<TaskEvent>

    ghost predicate Valid()
      reads events, tasks
    {
      events.capacity == EVENT_BUFFER && !events.closed && !tasks.closed
    }

    constructor (queueSize: nat)
      ensures Valid() && fresh(tasks) && fresh(events)
      ensures tasks.capacity == queueSize && tasks.buffer == [] && events.buffer == []
    {
      tasks := new Channel<Task>(queueSize);
      events := new Channel<TaskEvent>(EVENT_BUFFER);
    }

    /** False is ErrDispatchFull. */
    method Dispatch(task: Task) returns (ok: bool)
      requires Valid()
      modifies tasks`buffer
      ensures Valid()
      ensures ok <==> |old(tasks.buffer)| < tasks.capacity
      ensures tasks.buffer == if ok then old(tasks.buffer) + [task] else old(tasks.buffer)
    {
      ok := tasks.Send(task);
    }

    method ReceiveTask() returns (task: Option<Task>)
      requires Valid()
      modifies tasks`buffer
      ensures Valid()
      ensures task.None? <==> old(tasks.buffer) == []
      ensures old(tasks.buffer) == (if task.Some? then [task.value] else []) + tasks.buffer
    {
      task := tasks.Receive();
    }

    method ReceiveEvent() returns (event: Option<TaskEvent>)
      requires Valid()
      modifies events`buffer
      ensures Valid()
      ensures event.None? <==> old(events.buffer) == []
      ensures old(events.buffer) == (if event.Some? then [event.value] else []) + events.buffer
    {
      event := events.Receive();
    }

    /** A terminal event is never dropped; the other outcomes leave the channel alone. */
    method Emit(event: TaskEvent) returns (outcome: EmitOutcome)
      requires Valid()
      modifies events`buffer
      ensures Valid()
      ensures outcome == EmitOutcomeOf(old(events.buffer), event)
      ensures outcome.Sent? <==> |old(events.buffer)| < 256
      ensures outcome.Blocks? <==> |old(events.buffer)| >= 256 && IsTerminalEvent(event)
      ensures events.buffer == if outcome.Sent? then old(events.buffer) + [event] else old(events.buffer)
      ensures IsTerminalEvent(event) ==> !outcome.Dropped?
    {
      if IsTerminalEvent(event) {
        if |events.buffer| >= EVENT_BUFFER {
          return Blocks;
        }
        var sent := events.Send(event);
        outcome := Sent;
      } else {
        var sent := events.Send(event);
        outcome := if sent then Sent else Dropped;
      }
    }
  }
}
