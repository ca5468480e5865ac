/** What each lock-protected section of the fair message dispatcher does to the
    dispatcher's fields (pkg/api/dispatcher.go). Stream objects are named by a
    reference into a heap, because a caller of EnqueueStream keeps a pointer to
    its stream across an unlock and the runner may delete the map entry
    meanwhile. */
module Dispatcher {
  import opened Protocol

  datatype Stream = Stream(queue: seq<Message>, scheduled: bool, draining: bool)

  /** The fields of MessageDispatcher. `heap` holds every stream object ever
      created; `streams` is the map from stream id to object; `wake` says that
      the one-slot wake channel is full, `signalled` that closeCh is closed. */
  datatype Core = Core(
    capacity: nat,
    control: seq<Message>,
    heap: seq<Stream>,
    streams: map<string, nat>,
    ready: seq<string>,
    closed: bool,
    signalled: bool,
    wake: bool)

  predicate WellFormed(c: Core) {
    && c.capacity >= 1
    && (forall id <- c.streams :: c.streams[id] < |c.heap|)
    && (forall r | 0 <= r < |c.heap| :: |c.heap[r].queue| <= c.capacity)
  }

  /** The stream object `r` is the one the map holds for `id`. */
  predicate Live(c: Core, id: string, r: nat) {
    id in c.streams && c.streams[id] == r
  }

  function NewDispatcher(streamQueueCapacity: int): Core {
    Core(if streamQueueCapacity <= 0 then 1 else streamQueueCapacity, [], [], map[], [], false, false, false)
  }

  /** EnqueueControl under the mutex; a closed dispatcher refuses. */
  function AppendControl(c: Core, msg: Message): Core {
    if c.closed then c else c.(control := c.control + [msg], wake := true)
  }

  /** First section of EnqueueStream: find the stream or create it. */
  function LookupStream(c: Core, id: string): (Core, nat) {
    if id in c.streams then (c, c.streams[id])
    else (c.(heap := c.heap + [Stream([], false, false)], streams := c.streams[id := |c.heap|]), |c.heap|)
  }

  /** The channel send of EnqueueStream, outside the mutex. */
  function PushMessage(c: Core, r: nat, msg: Message): Core
    requires r < |c.heap|
  {
    c.(heap := c.heap[r := c.heap[r].(queue := c.heap[r].queue + [msg])])
  }

  /** Last section of EnqueueStream: mark draining, schedule, notify. */
  function ScheduleStream(c: Core, id: string, r: nat, final: bool): Core
    requires r < |c.heap|
  {
    if c.closed then c else
    var stream := c.heap[r];
    var marked := stream.(draining := stream.draining || final, scheduled := true);
    var c' := c.(heap := c.heap[r := marked]);
    if stream.scheduled then c' else c'.(ready := c.ready + [id], wake := true)
  }

  datatype Popped =
    | PoppedControl(msg: Message)
    | PoppedStream(id: string, ref: nat)
    | PoppedStale
    | PoppedNothing

  /** The locked section at the top of the loop in `next`. */
  function PopNext(c: Core): (Core, Popped)
    requires forall id <- c.streams :: c.streams[id] < |c.heap|
  {
    if |c.control| > 0 then
      (c.(control := c.control[1..]), PoppedControl(c.control[0]))
    else if |c.ready| > 0 then
      var id := c.ready[0];
      var c' := c.(ready := c.ready[1..]);
      if id in c.streams then
        var r := c.streams[id];
        (c'.(heap := c.heap[r := c.heap[r].(scheduled := false)]), PoppedStream(id, r))
      else (c', PoppedStale)
    else (c, PoppedNothing)
  }

  /** A successful receive from a stream's channel, outside the mutex. */
  function TakeMessage(c: Core, r: nat): Core
    requires r < |c.heap| && c.heap[r].queue != []
  {
    c.(heap := c.heap[r := c.heap[r].(queue := c.heap[r].queue[1..])])
  }

  /** afterStreamMessage. */
  function AfterStreamMessage(c: Core, id: string): Core
    requires forall id <- c.streams :: c.streams[id] < |c.heap|
  {
    if id !in c.streams then c else
    var r := c.streams[id];
    var stream := c.heap[r];
    if |stream.queue| > 0 && !stream.scheduled then
      c.(heap := c.heap[r := stream.(scheduled := true)], ready := c.ready + [id], wake := true)
    else if |stream.queue| == 0 && stream.draining then c.(streams := c.streams - {id})
    else c
  }

  /** afterEmptyStream. */
  function AfterEmptyStream(c: Core, id: string): Core
    requires forall id <- c.streams :: c.streams[id] < |c.heap|
  {
    if id !in c.streams then c else
    var stream := c.heap[c.streams[id]];
    if |stream.queue| == 0 && stream.draining then c.(streams := c.streams - {id}) else c
  }

  datatype Outcome = Delivers(msg: Message) | WouldSleep

  /** One call of `next` when no other goroutine interferes: it skips stale ids
      and empty streams until it has a message or nothing is left. */
  function NextAlone(c: Core): (Core, Outcome)
    requires forall id <- c.streams :: c.streams[id] < |c.heap|
    decreases |c.ready|
  {
    var (c', popped) := PopNext(c);
    match popped
    case PoppedControl(msg) => (c', Delivers(msg))
    case PoppedNothing => (c', WouldSleep)
    case PoppedStale => NextAlone(c')
    case PoppedStream(id, r) =>
      var queue := c'.heap[r].queue;
      if queue == [] then NextAlone(AfterEmptyStream(c', id))
      else (AfterStreamMessage(TakeMessage(c', r), id), Delivers(queue[0]))
  }
}
