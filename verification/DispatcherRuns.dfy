/** The dispatcher as a concurrent state machine: any number of callers of
    EnqueueControl and EnqueueStream, the runner goroutine, and Close, each
    split where the code's locks split, in every interleaving
    (pkg/api/dispatcher.go). */
module DispatcherRuns {
  import opened Protocol
  import opened Dispatcher

  /** A message together with where it came from; `ref` is the stream object
      whose channel carried it. */
  datatype Envelope =
    | ControlEnvelope(msg: Message)
    | StreamEnvelope(id: string, ref: nat, msg: Message)

  /** Where the runner goroutine stands. */
  datatype Runner =
    | AtTop                                       // before the lock in next
    | Receiving(id: string, ref: nat)             // popped a ready stream
    | Took(id: string, ref: nat, msg: Message)    // received, before afterStreamMessage
    | FoundEmpty(id: string, ref: nat)            // queue was empty, before afterEmptyStream
    | Sending(out: Envelope)                      // next has returned, inside send
    | Asleep                                      // waiting on wakeCh and closeCh
    | Returned                                    // next returned false
    | SendFailed(out: Envelope)                   // send returned an error

  datatype Phase = Looked | Pushed

  /** A call of EnqueueStream in progress. It holds a pointer to its stream. */
  datatype Producer = Producer(phase: Phase, id: string, ref: nat, msg: Message, final: bool)

  /** What has happened so far; nothing in the dispatcher reads it.
      `owner[r]` is the id stream object r was created for, `pushes` the channel
      sends in order, `lost` those that went to an object no longer in the map,
      `wire` the messages handed to the connection, `controls` the accepted
      control messages, and `finals` the ids on which a final enqueue began. */
  datatype History = History(
    owner: seq<string>,
    pushes: seq<Envelope>,
    lost: seq<Envelope>,
    wire: seq<Envelope>,
    controls: seq<Message>,
    finals: set<string>)

  datatype World = World(core: Core, runner: Runner, producers: map<nat, Producer>, hist: History)

  datatype Step =
    | EnqueueControl(control: Message)
    | BeginEnqueue(p: nat, id: string, msg: Message, final: bool)
    | PushToQueue(p: nat)
    | AbandonEnqueue(p: nat)
    | FinishEnqueue(p: nat)
    | MarkClosed
    | SignalClosed
    | NotifyClosed
    | Pop
    | Receive
    | AfterTaken
    | AfterEmpty
    | SendOk
    | SendError
    | Wake
    | WakeOnClose

  function Init(streamQueueCapacity: int): World {
    World(NewDispatcher(streamQueueCapacity), AtTop, map[], History([], [], [], [], [], {}))
  }

  /** When a step can happen. A channel send waits for room; abandoning a send
      models both a done context and a closed closeCh. */
  predicate Enabled(w: World, step: Step) {
    match step
    case EnqueueControl(_) => true
    case BeginEnqueue(p, _, _, _) => p !in w.producers
    case PushToQueue(p) =>
      && p in w.producers && w.producers[p].phase.Looked?
      && w.producers[p].ref < |w.core.heap|
      && |w.core.heap[w.producers[p].ref].queue| < w.core.capacity
    case AbandonEnqueue(p) => p in w.producers && w.producers[p].phase.Looked?
    case FinishEnqueue(p) =>
      p in w.producers && w.producers[p].phase.Pushed? && w.producers[p].ref < |w.core.heap|
    case MarkClosed => !w.core.closed
    case SignalClosed => w.core.closed && !w.core.signalled
    case NotifyClosed => w.core.signalled
    case Pop => w.runner.AtTop? && WellFormed(w.core)
    case Receive => w.runner.Receiving? && w.runner.ref < |w.core.heap|
    case AfterTaken => w.runner.Took? && WellFormed(w.core)
    case AfterEmpty => w.runner.FoundEmpty? && WellFormed(w.core)
    case SendOk => w.runner.Sending?
    case SendError => w.runner.Sending?
    case Wake => w.runner.Asleep? && w.core.wake
    case WakeOnClose => w.runner.Asleep? && w.core.signalled
  }

  function Apply(w: World, step: Step): World
    requires Enabled(w, step)
  {
    match step
    case EnqueueControl(msg) =>
      if w.core.closed then w.(core := AppendControl(w.core, msg))
      else w.(core := AppendControl(w.core, msg), hist := w.hist.(controls := w.hist.controls + [msg]))
    case BeginEnqueue(p, id, msg, final) => Begin(w, p, id, msg, final)
    case PushToQueue(p) => DoPush(w, p)
    case AbandonEnqueue(p) => w.(producers := w.producers - {p})
    case FinishEnqueue(p) =>
      var e := w.producers[p];
      w.(core := ScheduleStream(w.core, e.id, e.ref, e.final), producers := w.producers - {p})
    case MarkClosed => w.(core := w.core.(closed := true))
    case SignalClosed => w.(core := w.core.(signalled := true))
    case NotifyClosed => w.(core := w.core.(wake := true))
    case Pop => DoPop(w)
    case Receive =>
      var id, r := w.runner.id, w.runner.ref;
      var queue := w.core.heap[r].queue;
      if queue == [] then w.(runner := FoundEmpty(id, r))
      else w.(core := TakeMessage(w.core, r), runner := Took(id, r, queue[0]))
    case AfterTaken =>
      var Took(id, r, msg) := w.runner;
      w.(core := AfterStreamMessage(w.core, id), runner := Sending(StreamEnvelope(id, r, msg)))
    case AfterEmpty => w.(core := AfterEmptyStream(w.core, w.runner.id), runner := AtTop)
    case SendOk => w.(runner := AtTop, hist := w.hist.(wire := w.hist.wire + [w.runner.out]))
    case SendError => w.(runner := SendFailed(w.runner.out))
    case Wake => w.(core := w.core.(wake := false), runner := AtTop)
    case WakeOnClose => w.(runner := Returned)
  }

  /** A closed dispatcher returns its error and changes nothing. */
  function Begin(w: World, p: nat, id: string, msg: Message, final: bool): World {
    if w.core.closed then w else
    var (core, r) := LookupStream(w.core, id);
    var owner := if id in w.core.streams then w.hist.owner else w.hist.owner + [id];
    w.(core := core,
       producers := w.producers[p := Producer(Looked, id, r, msg, final)],
       hist := w.hist.(owner := owner, finals := if final then w.hist.finals + {id} else w.hist.finals))
  }

  function DoPush(w: World, p: nat): World
    requires Enabled(w, PushToQueue(p))
  {
    var e := w.producers[p];
    var out := StreamEnvelope(e.id, e.ref, e.msg);
    w.(core := PushMessage(w.core, e.ref, e.msg),
       producers := w.producers[p := e.(phase := Pushed)],
       hist := w.hist.(
         pushes := w.hist.pushes + [out],
         lost := if Live(w.core, e.id, e.ref) then w.hist.lost else w.hist.lost + [out]))
  }

  function DoPop(w: World): World
    requires Enabled(w, Pop)
  {
    var (core, popped) := PopNext(w.core);
    var runner := match popped
      case PoppedControl(msg) => Sending(ControlEnvelope(msg))
      case PoppedStream(id, r) => Receiving(id, r)
      case PoppedStale => AtTop
      case PoppedNothing => if w.core.closed then Returned else Asleep;
    w.(core := core, runner := runner)
  }

  // Runs

  ghost predicate Feasible(w: World, steps: seq<Step>)
    decreases |steps|
  {
    steps == [] || (Enabled(w, steps[0]) && Feasible(Apply(w, steps[0]), steps[1..]))
  }

  ghost function Run(w: World, steps: seq<Step>): World
    requires Feasible(w, steps)
    decreases |steps|
  {
    if steps == [] then w else Run(Apply(w, steps[0]), steps[1..])
  }

  // What the logs say about one stream object, and what the runner holds.

  function OfRef(log: seq<Envelope>, r: nat): seq<Message> {
    if log == [] then [] else
    var last := log[|log| - 1];
    OfRef(log[..|log| - 1], r) + (if last.StreamEnvelope? && last.ref == r then [last.msg] else [])
  }

  function OfControl(log: seq<Envelope>): seq<Message> {
    if log == [] then [] else
    var last := log[|log| - 1];
    OfControl(log[..|log| - 1]) + (if last.ControlEnvelope? then [last.msg] else [])
  }

  function InHand(runner: Runner): seq<Envelope> {
    match runner
    case Took(id, r, msg) => [StreamEnvelope(id, r, msg)]
    case Sending(out) => [out]
    case SendFailed(out) => [out]
    case _ => []
  }

  /** Everything that has left a queue: handed to the connection, or in the
      runner's hand on its way there. */
  function Outbound(w: World): seq<Envelope> {
    w.hist.wire + InHand(w.runner)
  }

  lemma OfRefAppend(log: seq<Envelope>, out: Envelope, r: nat)
    ensures OfRef(log + [out], r) ==
            if out.StreamEnvelope? && out.ref == r then OfRef(log, r) + [out.msg] else OfRef(log, r)
  {
    assert (log + [out])[..|log|] == log;
  }

  lemma OfControlAppend(log: seq<Envelope>, out: Envelope)
    ensures OfControl(log + [out]) == if out.ControlEnvelope? then OfControl(log) + [out.msg] else OfControl(log)
  {
    assert (log + [out])[..|log|] == log;
  }
}
