/** The dispatcher as an object: its fields, one method per section between lock
    operations, each proved to do what module Dispatcher says
    (pkg/api/dispatcher.go). */
module MessageDispatchers {
  import opened Protocol
  import opened Dispatcher

  class DispatchStream {
    var queue: seq<Message>
    var scheduled: bool
    var draining: bool

    constructor ()
      ensures queue == [] && !scheduled && !draining
    {
      queue, scheduled, draining := [], false, false;
    }

    function View(): Stream
      reads this
    {
      Stream(queue, scheduled, draining)
    }
  }

  /** What the top of the loop in next found to do. */
  datatype Work =
    | ControlWork(msg: Message)
    | StreamWork(id: string, stream: DispatchStream)
    | StaleWork
    | NoWork

  class MessageDispatcher {
    const capacity: nat
    var control: seq<Message>
    var streams: map<string, DispatchStream>
    var ready: seq<string>
    var closed: bool
    var signalled: bool
    var wake: bool

    // Every stream object ever created, and where the map's objects stand in it.
    ghost var pool: seq<DispatchStream>
    ghost var refs: map<string, nat>

    ghost predicate Valid()
      reads this
    {
      && capacity >= 1
      && refs.Keys == streams.Keys
      && (forall id <- refs :: refs[id] < |pool| && pool[refs[id]] == streams[id])
      && (forall i, j | 0 <= i < j < |pool| :: pool[i] != pool[j])
    }

    ghost function View(): Core
      reads this, pool
    {
      Core(capacity, control, seq(|pool|, i requires 0 <= i < |pool| reads this, pool => pool[i].View()),
           refs, ready, closed, signalled, wake)
    }

    /** What a mutation of one stream object does to the view. */
    ghost predicate Holds(stream: DispatchStream, ref: nat)
      reads this
    {
      ref < |pool| && pool[ref] == stream
    }

    constructor (streamQueueCapacity: int)
      ensures Valid() && View() == NewDispatcher(streamQueueCapacity) && pool == []
    {
      capacity := if streamQueueCapacity <= 0 then 1 else streamQueueCapacity;
      control, streams, ready := [], map[], [];
      closed, signalled, wake := false, false, false;
      pool, refs := [], map[];
    }

    /** Refuses when closed, as AppendControl does. */
    method EnqueueControl(message: Message) returns (ok: bool)
      requires Valid()
      modifies this
      ensures Valid() && ok == !old(closed) && pool == old(pool)
      ensures View() == AppendControl(old(View()), message)
    {
      if closed {
        return false;
      }
      control := control + [message];
      wake := true;
      return true;
    }

    /** First locked section of EnqueueStream; a closed dispatcher gives no stream. */
    method FindStream(streamID: string) returns (found: DispatchStream?, ghost ref: nat)
      requires Valid()
      modifies this
      ensures Valid() && old(pool) <= pool && fresh(set s | s in pool && s !in old(pool))
      ensures old(closed) ==> found == null && View() == old(View())
      ensures !old(closed) ==> found != null && Holds(found, ref) && (View(), ref) == LookupStream(old(View()), streamID)
    {
      ref := 0;
      if closed {
        return null, 0;
      }
      if streamID in streams {
        found, ref := streams[streamID], refs[streamID];
      } else {
        var stream := new DispatchStream();
        found, ref := stream, |pool|;
        streams := streams[streamID := stream];
        refs := refs[streamID := |pool|];
        pool := pool + [stream];
        assert View().heap == old(View()).heap + [Stream([], false, false)];
      }
    }

    /** The channel send, when there is room. */
    method Push(stream: DispatchStream, message: Message, ghost ref: nat)
      requires Valid() && Holds(stream, ref) && |stream.queue| < capacity
      modifies stream
      ensures Valid() && View() == PushMessage(old(View()), ref, message)
    {
      stream.queue := stream.queue + [message];
    }

    /** Last locked section of EnqueueStream. */
    method Schedule(streamID: string, stream: DispatchStream, final: bool, ghost ref: nat) returns (ok: bool)
      requires Valid() && Holds(stream, ref)
      modifies this, stream
      ensures Valid() && ok == !old(closed) && pool == old(pool)
      ensures View() == ScheduleStream(old(View()), streamID, ref, final)
    {
      if closed {
        return false;
      }
      if final {
        stream.draining := true;
      }
      if !stream.scheduled {
        stream.scheduled := true;
        ready := ready + [streamID];
        wake := true;
      }
      return true;
    }

    /** Close, with closeOnce: mark closed, close closeCh, notify. */
    method Close()
      requires Valid() && (closed ==> signalled)
      modifies this`closed, this`signalled, this`wake
      ensures Valid() && closed && signalled && pool == old(pool)
      ensures View() == if old(closed) then old(View())
                        else old(View()).(closed := true, signalled := true, wake := true)
    {
      if closed {
        return;
      }
      closed := true;
      signalled := true;
      wake := true;
      assert View().heap == old(View()).heap;
    }

    ghost predicate Describes(work: Work, popped: Popped)
      reads this
    {
      match popped
      case PoppedControl(msg) => work == ControlWork(msg)
      case PoppedStream(id, ref) => work.StreamWork? && work.id == id && Holds(work.stream, ref)
      case PoppedStale => work == StaleWork
      case PoppedNothing => work == NoWork
    }

    /** The locked section at the top of the loop in next. */
    method PopWork() returns (work: Work, ghost popped: Popped)
      requires Valid()
      modifies this, pool
      ensures Valid() && pool == old(pool)
      ensures (View(), popped) == PopNext(old(View())) && Describes(work, popped)
    {
      if |control| > 0 {
        work, popped := ControlWork(control[0]), PoppedControl(control[0]);
        control := control[1..];
        assert View().heap == old(View()).heap;
      } else if |ready| > 0 {
        var streamID := ready[0];
        ready := ready[1..];
        if streamID in streams {
          var stream := streams[streamID];
          stream.scheduled := false;
          ghost var r := refs[streamID];
          assert View().heap == old(View()).heap[r := old(View()).heap[r].(scheduled := false)];
          work, popped := StreamWork(streamID, stream), PoppedStream(streamID, refs[streamID]);
        } else {
          work, popped := StaleWork, PoppedStale;
          assert View().heap == old(View()).heap;
        }
      } else {
        work, popped := NoWork, PoppedNothing;
        assert View().heap == old(View()).heap;
      }
    }

    /** A receive from a stream's channel that finds a message. */
    method Take(stream: DispatchStream, ghost ref: nat) returns (message: Message)
      requires Valid() && Holds(stream, ref) && stream.queue != []
      modifies stream
      ensures Valid() && message == old(stream.queue)[0]
      ensures View() == TakeMessage(old(View()), ref)
    {
      message := stream.queue[0];
      stream.queue := stream.queue[1..];
    }

    /** afterStreamMessage. */
    method AfterMessage(streamID: string)
      requires Valid()
      modifies this, pool
      ensures Valid() && pool == old(pool)
      ensures View() == AfterStreamMessage(old(View()), streamID)
    {
      if streamID !in streams {
        return;
      }
      var stream := streams[streamID];
      if |stream.queue| > 0 && !stream.scheduled {
        stream.scheduled := true;
        ready := ready + [streamID];
        wake := true;
        return;
      }
      if |stream.queue| == 0 && stream.draining {
        streams := streams - {streamID};
        refs := refs - {streamID};
      }
    }

    /** afterEmptyStream. */
    method AfterEmpty(streamID: string)
      requires Valid()
      modifies this
      ensures Valid() && pool == old(pool)
      ensures View() == AfterEmptyStream(old(View()), streamID)
    {
      if streamID in streams {
        var stream := streams[streamID];
        if |stream.queue| == 0 && stream.draining {
          streams := streams - {streamID};
          refs := refs - {streamID};
        }
      }
    }

    /** The loop of next, run with no other goroutine between its sections. When
        it finds nothing to do it would sleep, or stop if closed. */
    method Next() returns (message: Message, found: bool)
      requires Valid()
      modifies this, pool
      ensures Valid() && pool == old(pool)
      ensures var (after, outcome) := NextAlone(old(View()));
        View() == after && outcome == if found then Delivers(message) else WouldSleep
    {
      message := Message(OtherControl, "", []);
      while true
        invariant Valid() && pool == old(pool)
        invariant NextAlone(View()) == NextAlone(old(View()))
        decreases |ready|
      {
        var work, popped := PopWork();
        match work {
          case ControlWork(msg) =>
            return msg, true;
          case StreamWork(streamID, stream) =>
            if stream.queue == [] {
              AfterEmpty(streamID);
            } else {
              message := Take(stream, popped.ref);
              AfterMessage(streamID);
              return message, true;
            }
          case StaleWork =>
          case NoWork =>
            return message, false;
        }
      }
    }
  }
}
