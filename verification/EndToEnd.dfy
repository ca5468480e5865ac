/** One response from the client's upstream reader to the body pipe the server
    reads, through the client's dispatcher and the connection, among any other
    traffic (pkg/client/upgrade.go, pkg/api/dispatcher.go,
    internal/control/protocol_peer.go, internal/control/protocol_server.go). */
module EndToEnd {
  import opened Protocol
  import opened Dispatcher
  import opened DispatcherRuns
  import opened DispatcherSafety
  import opened DispatcherDiscipline
  import P = PendingRequests

  /** Where the goroutine that executes request x on the client stands; `p` is
      its call of EnqueueStream in progress. */
  datatype Phase = NotStarted | InEnqueue(p: nat) | Between | Finished | GaveUp

  /** `upstream` is what it has read from the local response body, `unsent` the part
      of it in its buffer not yet handed to an enqueue, `eof` whether a read has said
      that the body ended, and `status` and `rest` the local service's status and what
      it has yet to give of its body. */
  datatype Client =
    Client(phase: Phase, upstream: seq<byte>, unsent: seq<byte>, eof: bool, status: int, rest: seq<byte>)

  /** The client's dispatcher and connection, the client goroutine of stream x,
      how far the server has read the connection, and the server's side of x.
      `known` says the request is still in the server's pending map. */
  datatype Link = Link(net: DispatcherRuns.World, client: Client, consumed: nat, known: bool, request: P.Request)

  datatype Step =
    | Net(step: DispatcherRuns.Step)
    | SendStart(p: nat)
    | ReadChunk(n: nat, atEnd: bool)
    | ReadEnd
    | ReadFails
    | SendChunk(p: nat)
    | SendEnd(p: nat)
    | ServerReceives
    | ServerEvent(event: P.Step)
    | ServerForgets

  /** The local service answers with `status` and the body `source`. */
  function Init(flow: FlowControl, status: int, source: seq<byte>): Link {
    Link(DispatcherRuns.Init(flow.BufferedFrameCapacity()), Client(NotStarted, [], [], false, status, source), 0, true,
         P.NewRequest(flow))
  }

  /** The server goes by the id in the frame. */
  predicate ForStream(out: Envelope, x: string) {
    out.StreamEnvelope? && out.msg.id == x
  }

  /** The server's read loop acts on a frame for x while x is in its pending map;
      a response_end takes x out of the map. */
  function Handle(r: P.Request, known: bool, out: Envelope, x: string): (P.Request, bool) {
    if !known || !ForStream(out, x) then (r, known)
    else match out.msg.kind
      case ResponseStart(status) => (P.HandleStart(r, status).0, true)
      case ResponseBody => (P.WriteBody(r, out.msg.chunk).0, true)
      case ResponseEnd => (P.BeginFinish(r, P.Clean), false)
      case _ => (r, known)
  }

  /** The read loop waits while a body chunk finds no room. */
  predicate CanHandle(r: P.Request, known: bool, out: Envelope, x: string) {
    known && ForStream(out, x) && out.msg.kind.ResponseBody? ==> P.HasRoom(r, out.msg.chunk)
  }

  /** The loop reads again once it has sent what it read, until the body ends. */
  predicate MayRead(client: Client) {
    client.phase.Between? && client.unsent == [] && !client.eof
  }

  /** Other goroutines may do anything to the dispatcher except send on x, which only
      the goroutine executing x does; their frames carry the id of the stream they
      are sent on, as its own do. The server's side of x may be finished with an
      error, cancelled or forgotten at any time; a clean finish comes from a
      response_end frame alone, and no chunk is dropped while the request's context
      lives. */
  predicate Enabled(w: Link, step: Step, x: string) {
    match step
    case Net(s) => DispatcherRuns.Enabled(w.net, s) && (s.BeginEnqueue? ==> s.id != x && s.msg.id == s.id)
    case SendStart(p) => w.client.phase.NotStarted? && p !in w.net.producers
    case ReadChunk(n, atEnd) =>
      MayRead(w.client) && 0 < n <= |w.client.rest| && (atEnd ==> n == |w.client.rest|)
    case ReadEnd => MayRead(w.client) && w.client.rest == []
    case ReadFails => MayRead(w.client)
    case SendChunk(p) => w.client.phase.Between? && w.client.unsent != [] && p !in w.net.producers
    case SendEnd(p) => w.client.phase.Between? && w.client.unsent == [] && w.client.eof && p !in w.net.producers
    case ServerReceives =>
      && w.consumed < |w.net.hist.wire|
      && CanHandle(w.request, w.known, w.net.hist.wire[w.consumed], x)
    case ServerEvent(event) =>
      && P.Enabled(w.request, event)
      && !event.StartFrame? && !event.BodyFrame? && !event.BodyRefused?
      && event != P.FinishCalled(P.Clean)
    case ServerForgets => true
  }

  /** The enqueue returns, with success unless it was abandoned or found the
      dispatcher closed. */
  function Returned(client: Client, final: bool, ok: bool): Client {
    client.(phase := if !ok then GaveUp else if final then Finished else Between)
  }

  function ClientAfter(w: Link, s: DispatcherRuns.Step): Client
    requires DispatcherRuns.Enabled(w.net, s)
  {
    if s.FinishEnqueue? && w.client.phase == InEnqueue(s.p) then
      Returned(w.client, w.net.producers[s.p].final, !w.net.core.closed)
    else if s.AbandonEnqueue? && w.client.phase == InEnqueue(s.p) then
      Returned(w.client, w.net.producers[s.p].final, false)
    else w.client
  }

  /** A read into the buffer, which may come with the end of the body. */
  function Read(client: Client, n: nat, atEnd: bool): Client
    requires n <= |client.rest|
  {
    client.(upstream := client.upstream + client.rest[..n], unsent := client.rest[..n],
            eof := client.eof || atEnd, rest := client.rest[n..])
  }

  /** The client goroutine calls EnqueueStream; a closed dispatcher refuses. */
  function Send(w: Link, p: nat, x: string, msg: Message, final: bool): Link {
    w.(net := Begin(w.net, p, x, msg, final),
       client := w.client.(phase := if w.net.core.closed then GaveUp else InEnqueue(p), unsent := []))
  }

  function Receive(w: Link, x: string): Link
    requires Enabled(w, ServerReceives, x)
  {
    var (request, known) := Handle(w.request, w.known, w.net.hist.wire[w.consumed], x);
    w.(consumed := w.consumed + 1, known := known, request := request)
  }

  function Apply(w: Link, step: Step, x: string): Link
    requires Enabled(w, step, x)
  {
    match step
    case Net(s) => w.(net := DispatcherRuns.Apply(w.net, s), client := ClientAfter(w, s))
    case SendStart(p) => Send(w, p, x, Message(ResponseStart(w.client.status), x, []), false)
    case ReadChunk(n, atEnd) => w.(client := Read(w.client, n, atEnd))
    case ReadEnd => w.(client := w.client.(eof := true))
    case ReadFails => w.(client := w.client.(phase := GaveUp))
    case SendChunk(p) => Send(w, p, x, Message(ResponseBody, x, w.client.unsent), false)
    case SendEnd(p) => Send(w, p, x, Message(ResponseEnd, x, []), true)
    case ServerReceives => Receive(w, x)
    case ServerEvent(event) => w.(request := P.Apply(w.request, event))
    case ServerForgets => w.(known := false)
  }

  ghost predicate Feasible(w: Link, steps: seq<Step>, x: string)
    decreases |steps|
  {
    steps == [] || (Enabled(w, steps[0], x) && Feasible(Apply(w, steps[0], x), steps[1..], x))
  }

  ghost function Run(w: Link, steps: seq<Step>, x: string): Link
    requires Feasible(w, steps, x)
    decreases |steps|
  {
    if steps == [] then w else Run(Apply(w, steps[0], x), steps[1..], x)
  }

  // Frames of one response.

  function Bytes(frames: seq<Message>): seq<byte> {
    if frames == [] then [] else
    var last := frames[|frames| - 1];
    Bytes(frames[..|frames| - 1]) + (if last.kind.ResponseBody? then last.chunk else [])
  }

  /** A start, then bodies, then perhaps an end. */
  predicate Shaped(frames: seq<Message>) {
    forall i | 0 <= i < |frames| ::
      && (i == 0 <==> frames[i].kind.ResponseStart?)
      && (i > 0 ==> frames[i].kind.ResponseBody? || frames[i].kind.ResponseEnd?)
      && (i < |frames| - 1 ==> !frames[i].kind.ResponseEnd?)
  }

  predicate Ended(frames: seq<Message>) {
    frames != [] && frames[|frames| - 1].kind.ResponseEnd?
  }

  lemma BytesAppend(frames: seq<Message>, frame: Message)
    ensures Bytes(frames + [frame]) == if frame.kind.ResponseBody? then Bytes(frames) + frame.chunk else Bytes(frames)
  {
    assert (frames + [frame])[..|frames|] == frames;
  }

  lemma {:induction false} BytesPrefix(a: seq<Message>, b: seq<Message>)
    requires a <= b
    ensures Bytes(a) <= Bytes(b)
    decreases |b|
  {
    if |a| < |b| {
      assert a == b[..|b| - 1][..|a|];
      BytesPrefix(a, b[..|b| - 1]);
    } else {
      assert a == b;
    }
  }

  lemma {:induction false} OfIdPrefix(a: seq<Envelope>, b: seq<Envelope>, x: string)
    requires a <= b
    ensures OfId(a, x) <= OfId(b, x)
    decreases |b|
  {
    if |a| < |b| {
      assert a == b[..|b| - 1][..|a|];
      OfIdPrefix(a, b[..|b| - 1], x);
    } else {
      assert a == b;
    }
  }

  // The invariant.

  function Pushed(w: Link, x: string): seq<Message> {
    OfId(w.net.hist.pushes, x)
  }

  /** What the server has taken off the connection for x. */
  function Processed(w: Link, x: string): seq<Message>
    requires w.consumed <= |w.net.hist.wire|
  {
    OfId(w.net.hist.wire[..w.consumed], x)
  }

  /** The only enqueue on x in progress is the client goroutine's. */
  ghost predicate SoleSender(net: DispatcherRuns.World, phase: Phase, x: string) {
    && (forall q <- net.producers :: net.producers[q].id == x ==> phase == InEnqueue(q))
    && (phase.InEnqueue? ==>
          && phase.p in net.producers && net.producers[phase.p].id == x
          && (net.producers[phase.p].final <==> x in net.hist.finals))
  }

  /** What the client goroutine has sent or is sending. */
  function Sent(net: DispatcherRuns.World, phase: Phase, x: string): seq<Message> {
    var pushed := OfId(net.hist.pushes, x);
    if phase.InEnqueue? && phase.p in net.producers && net.producers[phase.p].phase.Looked?
    then pushed + [net.producers[phase.p].msg] else pushed
  }

  /** The frames sent so far carry the request's id, start with the local service's
      status and fit what has been read from upstream. `closing` says that the final
      frame has been handed to an enqueue. */
  predicate Fits(sent: seq<Message>, client: Client, closing: bool, x: string) {
    && Shaped(sent)
    && (forall i | 0 <= i < |sent| :: sent[i].id == x)
    && (sent != [] ==> sent[0].kind == ResponseStart(client.status))
    && Bytes(sent) <= client.upstream
    && (client.eof ==> client.rest == [])
    && (Ended(sent) ==> client.eof && Bytes(sent) == client.upstream)
    && (match client.phase
        case NotStarted => sent == [] && client.upstream == client.unsent == [] && !closing
        case InEnqueue(_) =>
          sent != [] && client.unsent == [] && Bytes(sent) == client.upstream && (closing <==> Ended(sent))
        case Between =>
          sent != [] && Bytes(sent) + client.unsent == client.upstream && !Ended(sent) && !closing
        case Finished => Ended(sent)
        case GaveUp => true)
  }

  ghost predicate ClientKeeps(net: DispatcherRuns.World, client: Client, x: string) {
    Fits(Sent(net, client.phase, x), client, x in net.hist.finals, x)
  }

  /** The server's side follows the frames it has processed. */
  predicate Follows(r: P.Request, known: bool, processed: seq<Message>, status: int) {
    && r.accepted <= Bytes(processed)
    && (if r.responseStart then r.startSends == [P.Started(status)]
        else forall i | 0 <= i < |r.startSends| :: r.startSends[i].NotStarted?)
    && (known && !r.completed ==> r.accepted == Bytes(processed) && (r.responseStart <==> processed != []))
    && (r.finisher.Finishing? && r.finisher.verdict.Clean? ==>
          Ended(processed) && r.accepted == Bytes(processed) && r.responseStart)
  }

  predicate ServerKeeps(w: Link, x: string) {
    && w.consumed <= |w.net.hist.wire|
    && P.Sound(w.request)
    && Follows(w.request, w.known, Processed(w, x), w.client.status)
  }

  /** What is pushed, or about to be, carries its stream's id. */
  ghost predicate Named(net: DispatcherRuns.World) {
    && (forall i | 0 <= i < |net.hist.pushes| && net.hist.pushes[i].StreamEnvelope? ::
          net.hist.pushes[i].msg.id == net.hist.pushes[i].id)
    && (forall p <- net.producers :: net.producers[p].msg.id == net.producers[p].id)
  }

  lemma NamedStep(net: DispatcherRuns.World, s: DispatcherRuns.Step)
    requires Named(net) && DispatcherRuns.Enabled(net, s) && (s.BeginEnqueue? ==> s.msg.id == s.id)
    ensures Named(DispatcherRuns.Apply(net, s))
  {
  }

  lemma {:induction false} OfRefHas(log: seq<Envelope>, i: nat)
    requires i < |log| && log[i].StreamEnvelope?
    ensures log[i].msg in OfRef(log, log[i].ref)
    decreases |log|
  {
    var n := |log| - 1;
    if i < n {
      OfRefHas(log[..n], i);
    }
  }

  lemma {:induction false} OfRefFrom(log: seq<Envelope>, r: nat, msg: Message) returns (j: nat)
    requires msg in OfRef(log, r)
    ensures j < |log| && log[j].StreamEnvelope? && log[j].ref == r && log[j].msg == msg
    decreases |log|
  {
    var n := |log| - 1;
    if log[n].StreamEnvelope? && log[n].ref == r && log[n].msg == msg {
      j := n;
    } else {
      j := OfRefFrom(log[..n], r, msg);
    }
  }

  /** So every frame on the connection carries its stream's id. */
  lemma WireNamed(net: DispatcherRuns.World, i: nat)
    requires Inv(net) && Named(net) && i < |net.hist.wire| && net.hist.wire[i].StreamEnvelope?
    ensures net.hist.wire[i].msg.id == net.hist.wire[i].id
  {
    var out, log := net.hist.wire[i], Outbound(net);
    assert log[i] == out;
    OfRefHas(log, i);
    assert RefConserved(net, out.ref);
    var j := OfRefFrom(net.hist.pushes, out.ref, out.msg);
    assert Owned(net.hist.owner, net.hist.pushes[j].id, out.ref) && Owned(net.hist.owner, out.id, out.ref);
  }

  ghost predicate Keeps(w: Link, x: string) {
    && Inv(w.net) && Orderly(w.net, x) && Named(w.net)
    && SoleSender(w.net, w.client.phase, x)
    && ClientKeeps(w.net, w.client, x)
    && ServerKeeps(w, x)
  }

  /** The server has seen a prefix of what the client pushed. */
  lemma ProcessedPrefix(w: Link, x: string)
    requires Inv(w.net) && Orderly(w.net, x) && w.consumed <= |w.net.hist.wire|
    ensures Processed(w, x) <= Pushed(w, x)
    ensures OfId(w.net.hist.wire, x) <= Pushed(w, x)
  {
    OrderlyExactlyOnce(w.net, x);
    OfIdPrefix(w.net.hist.wire[..w.consumed], w.net.hist.wire, x);
    OfIdPrefix(w.net.hist.wire, Outbound(w.net), x);
  }

  /** The frame that may follow what has been sent. */
  predicate MayFollow(client: Client, msg: Message, final: bool) {
    || (client.phase.NotStarted? && msg.kind == ResponseStart(client.status) && msg.chunk == [] && !final)
    || (client.phase.Between? && msg.kind.ResponseBody? && msg.chunk == client.unsent && !final)
    || (client.phase.Between? && msg.kind.ResponseEnd? && client.unsent == [] && client.eof && final)
  }

  lemma ShapedNext(sent: seq<Message>, msg: Message)
    requires Shaped(sent) && !Ended(sent)
    requires if sent == [] then msg.kind.ResponseStart? else msg.kind.ResponseBody? || msg.kind.ResponseEnd?
    ensures Shaped(sent + [msg]) && (Ended(sent + [msg]) <==> msg.kind.ResponseEnd?)
  {
    var sent' := sent + [msg];
    forall i | 0 <= i < |sent'|
      ensures i == 0 <==> sent'[i].kind.ResponseStart?
      ensures i > 0 ==> sent'[i].kind.ResponseBody? || sent'[i].kind.ResponseEnd?
      ensures i < |sent'| - 1 ==> !sent'[i].kind.ResponseEnd?
    {
      if i < |sent| {
        assert sent'[i] == sent[i];
      }
    }
  }

  lemma FitsSend(sent: seq<Message>, client: Client, msg: Message, final: bool, p: nat, x: string)
    requires Fits(sent, client, false, x) && MayFollow(client, msg, final) && msg.id == x
    ensures var client' := client.(unsent := []);
      && Fits(sent + [msg], client'.(phase := InEnqueue(p)), final, x)
      && Fits(sent, client'.(phase := GaveUp), false, x)
  {
    ShapedNext(sent, msg);
    BytesAppend(sent, msg);
  }

  lemma SentGrows(net: DispatcherRuns.World, p: nat, x: string, msg: Message, final: bool, phase: Phase)
    requires !net.core.closed && !phase.InEnqueue? && SoleSender(net, phase, x) && p !in net.producers
    ensures var net' := Begin(net, p, x, msg, final);
      && Sent(net', InEnqueue(p), x) == Sent(net, phase, x) + [msg]
      && (x !in net.hist.finals ==> SoleSender(net', InEnqueue(p), x) && (x in net'.hist.finals <==> final))
  {
  }

  lemma BeginKeepsNet(net: DispatcherRuns.World, p: nat, x: string, msg: Message, final: bool)
    requires Inv(net) && Orderly(net, x) && p !in net.producers
    requires x !in net.hist.finals && forall q <- net.producers :: net.producers[q].id != x
    ensures Inv(Begin(net, p, x, msg, final)) && Orderly(Begin(net, p, x, msg, final), x)
    ensures Begin(net, p, x, msg, final).hist.wire == net.hist.wire
  {
    var begin := DispatcherRuns.BeginEnqueue(p, x, msg, final);
    InvStep(net, begin);
    OrderlyStep(net, begin, x);
  }

  lemma SendKeeps(w: Link, p: nat, x: string, msg: Message, final: bool)
    requires Keeps(w, x) && p !in w.net.producers && MayFollow(w.client, msg, final) && msg.id == x
    ensures Keeps(Send(w, p, x, msg, final), x)
  {
    FitsSend(Sent(w.net, w.client.phase, x), w.client, msg, final, p, x);
    NamedStep(w.net, DispatcherRuns.BeginEnqueue(p, x, msg, final));
    BeginKeepsNet(w.net, p, x, msg, final);
    if !w.net.core.closed {
      SentGrows(w.net, p, x, msg, final, w.client.phase);
    }
  }

  lemma FitsRead(sent: seq<Message>, client: Client, n: nat, atEnd: bool, x: string)
    requires Fits(sent, client, false, x) && MayRead(client)
    requires n <= |client.rest| && (atEnd ==> n == |client.rest|)
    ensures Fits(sent, Read(client, n, atEnd), false, x)
    ensures Fits(sent, client.(phase := GaveUp), false, x)
  {
    assert Bytes(sent) + [] == Bytes(sent);
  }

  /** A read concerns the client goroutine alone. */
  lemma ReadKeeps(w: Link, client: Client, x: string)
    requires Keeps(w, x) && w.client.phase.Between? && (client.phase.Between? || client.phase.GaveUp?)
    requires Fits(Sent(w.net, w.client.phase, x), client, x in w.net.hist.finals, x) && client.status == w.client.status
    ensures Keeps(w.(client := client), x)
  {
  }

  // The dispatcher moves.

  lemma NetKeepsSender(w: Link, s: DispatcherRuns.Step, x: string)
    requires SoleSender(w.net, w.client.phase, x) && Enabled(w, Net(s), x)
    ensures SoleSender(DispatcherRuns.Apply(w.net, s), ClientAfter(w, s).phase, x)
  {
    var finals := w.net.hist.finals;
    if s.BeginEnqueue? {
      assert x in Begin(w.net, s.p, s.id, s.msg, s.final).hist.finals <==> x in finals;
    }
  }

  /** Pushing or finishing an enqueue moves a frame along without changing what
      has been sent; giving one up takes back at most that frame. */
  lemma NetKeepsSent(w: Link, s: DispatcherRuns.Step, x: string)
    requires SoleSender(w.net, w.client.phase, x) && Enabled(w, Net(s), x)
    ensures var net', phase := DispatcherRuns.Apply(w.net, s), w.client.phase;
      Sent(net', ClientAfter(w, s).phase, x) ==
      if s.AbandonEnqueue? && phase == InEnqueue(s.p) then OfId(w.net.hist.pushes, x) else Sent(w.net, phase, x)
    ensures x in DispatcherRuns.Apply(w.net, s).hist.finals <==> x in w.net.hist.finals
  {
    if s.PushToQueue? {
      PushKeepsSent(w, s.p, x);
    }
  }

  lemma PushKeepsSent(w: Link, p: nat, x: string)
    requires SoleSender(w.net, w.client.phase, x) && Enabled(w, Net(PushToQueue(p)), x)
    ensures Sent(DoPush(w.net, p), w.client.phase, x) == Sent(w.net, w.client.phase, x)
  {
    var e := w.net.producers[p];
    OfIdAppend(w.net.hist.pushes, StreamEnvelope(e.id, e.ref, e.msg), x);
  }

  /** What remains sent after an abandoned enqueue still fits. */
  lemma FitsGivenUp(pushed: seq<Message>, msg: Message, client: Client, closing: bool, x: string)
    requires client.phase.InEnqueue? && Fits(pushed + [msg], client, closing, x)
    ensures Fits(pushed, client.(phase := GaveUp), closing, x)
  {
    BytesAppend(pushed, msg);
    var sent := pushed + [msg];
    assert forall i | 0 <= i < |pushed| :: pushed[i] == sent[i];
    assert !Ended(pushed);
  }

  /** What has been sent still fits when the enqueue returns. */
  lemma FitsReturned(sent: seq<Message>, client: Client, final: bool, ok: bool, x: string)
    requires client.phase.InEnqueue? && Fits(sent, client, final, x)
    ensures Fits(sent, Returned(client, final, ok), final, x)
  {
    assert Bytes(sent) + [] == Bytes(sent);
  }

  lemma NetKeepsClient(w: Link, s: DispatcherRuns.Step, x: string)
    requires SoleSender(w.net, w.client.phase, x) && ClientKeeps(w.net, w.client, x) && Enabled(w, Net(s), x)
    ensures ClientKeeps(DispatcherRuns.Apply(w.net, s), ClientAfter(w, s), x)
  {
    NetKeepsSent(w, s, x);
    if s.AbandonEnqueue? && w.client.phase == InEnqueue(s.p) {
      FitsGivenUp(OfId(w.net.hist.pushes, x), w.net.producers[s.p].msg, w.client, x in w.net.hist.finals, x);
    } else if s.FinishEnqueue? && w.client.phase == InEnqueue(s.p) {
      FitsReturned(Sent(w.net, w.client.phase, x), w.client, x in w.net.hist.finals, !w.net.core.closed, x);
    }
  }

  lemma WireGrows(net: DispatcherRuns.World, s: DispatcherRuns.Step)
    requires DispatcherRuns.Enabled(net, s)
    ensures net.hist.wire <= DispatcherRuns.Apply(net, s).hist.wire
  {
  }

  /** The server's side goes by what it has read of the wire. */
  lemma ServerKept(w: Link, net: DispatcherRuns.World, client: Client, x: string)
    requires ServerKeeps(w, x) && w.net.hist.wire <= net.hist.wire && client.status == w.client.status
    ensures ServerKeeps(w.(net := net, client := client), x)
  {
    assert net.hist.wire[..w.consumed] == w.net.hist.wire[..w.consumed];
  }

  lemma NetKeeps(w: Link, s: DispatcherRuns.Step, x: string)
    requires Keeps(w, x) && Enabled(w, Net(s), x)
    ensures Keeps(Apply(w, Net(s), x), x)
  {
    InvStep(w.net, s);
    OrderlyStep(w.net, s, x);
    NamedStep(w.net, s);
    NetKeepsSender(w, s, x);
    NetKeepsClient(w, s, x);
    WireGrows(w.net, s);
    ServerKept(w, DispatcherRuns.Apply(w.net, s), ClientAfter(w, s), x);
  }

  // The server moves.

  lemma ShapedPrefix(a: seq<Message>, b: seq<Message>)
    requires a <= b && Shaped(b)
    ensures Shaped(a)
    ensures Ended(a) ==> a == b
  {
    assert forall i | 0 <= i < |a| :: a[i] == b[i];
  }

  /** Frames of x on the connection come in the order and shape the client sent. */
  lemma NextFrameFits(w: Link, x: string)
    requires Keeps(w, x) && w.consumed < |w.net.hist.wire|
    ensures var out := w.net.hist.wire[w.consumed];
      if ForStream(out, x) then
        && OfId(w.net.hist.wire[..w.consumed + 1], x) == Processed(w, x) + [out.msg]
        && Shaped(Processed(w, x) + [out.msg]) && !Ended(Processed(w, x))
        && (Processed(w, x) == [] ==> out.msg.kind == ResponseStart(w.client.status))
      else OfId(w.net.hist.wire[..w.consumed + 1], x) == Processed(w, x)
  {
    var out := w.net.hist.wire[w.consumed];
    var seen := w.net.hist.wire[..w.consumed + 1];
    assert seen == w.net.hist.wire[..w.consumed] + [out];
    OfIdAppend(w.net.hist.wire[..w.consumed], out, x);
    if out.StreamEnvelope? {
      WireNamed(w.net, w.consumed);
    }
    if ForStream(out, x) {
      OfIdPrefix(seen, w.net.hist.wire, x);
      ProcessedPrefix(w, x);
      var sent := Sent(w.net, w.client.phase, x);
      assert OfId(seen, x) <= sent;
      ShapedPrefix(OfId(seen, x), sent);
      ShapedPrefix(Processed(w, x), OfId(seen, x));
    }
  }

  lemma HandleFollows(r: P.Request, known: bool, processed: seq<Message>, status: int, out: Envelope, x: string)
    requires P.Sound(r) && Follows(r, known, processed, status) && CanHandle(r, known, out, x)
    requires ForStream(out, x) ==> Shaped(processed + [out.msg]) && !Ended(processed)
    requires ForStream(out, x) && processed == [] ==> out.msg.kind == ResponseStart(status)
    ensures var (r', known') := Handle(r, known, out, x);
      P.Sound(r') && Follows(r', known', if ForStream(out, x) then processed + [out.msg] else processed, status)
  {
    if ForStream(out, x) {
      BytesAppend(processed, out.msg);
      assert (processed + [out.msg])[|processed|] == out.msg;
      var event := match out.msg.kind
        case ResponseStart(status) => P.StartFrame(status)
        case ResponseBody => P.BodyFrame(out.msg.chunk)
        case _ => P.FinishCalled(P.Clean);
      if known {
        P.StagedStep(r, event);
        P.InOrderStep(r, event);
      }
    }
  }

  lemma ReceiveKeeps(w: Link, x: string)
    requires Keeps(w, x) && Enabled(w, ServerReceives, x)
    ensures Keeps(Receive(w, x), x)
  {
    NextFrameFits(w, x);
    HandleFollows(w.request, w.known, Processed(w, x), w.client.status, w.net.hist.wire[w.consumed], x);
  }

  lemma FollowsEvent(r: P.Request, known: bool, processed: seq<Message>, status: int, event: P.Step)
    requires P.Sound(r) && Follows(r, known, processed, status) && P.Enabled(r, event)
    requires !event.StartFrame? && !event.BodyFrame? && !event.BodyRefused? && event != P.FinishCalled(P.Clean)
    ensures P.Sound(P.Apply(r, event)) && Follows(P.Apply(r, event), known, processed, status)
  {
    P.StagedStep(r, event);
    P.InOrderStep(r, event);
  }

  lemma KeepsStep(w: Link, step: Step, x: string)
    requires Keeps(w, x) && Enabled(w, step, x)
    ensures Keeps(Apply(w, step, x), x)
  {
    match step {
      case Net(s) => NetKeeps(w, s, x);
      case SendStart(p) => SendKeeps(w, p, x, Message(ResponseStart(w.client.status), x, []), false);
      case ReadChunk(n, atEnd) =>
        FitsRead(Sent(w.net, w.client.phase, x), w.client, n, atEnd, x);
        ReadKeeps(w, Read(w.client, n, atEnd), x);
      case ReadEnd => ReadKeeps(w, w.client.(eof := true), x);
      case ReadFails =>
        FitsRead(Sent(w.net, w.client.phase, x), w.client, 0, false, x);
        ReadKeeps(w, w.client.(phase := GaveUp), x);
      case SendChunk(p) => SendKeeps(w, p, x, Message(ResponseBody, x, w.client.unsent), false);
      case SendEnd(p) => SendKeeps(w, p, x, Message(ResponseEnd, x, []), true);
      case ServerReceives => ReceiveKeeps(w, x);
      case ServerEvent(event) => FollowsEvent(w.request, w.known, Processed(w, x), w.client.status, event);
      case ServerForgets =>
    }
  }

  lemma {:induction false} KeepsRun(w: Link, steps: seq<Step>, x: string)
    requires Keeps(w, x) && Feasible(w, steps, x)
    ensures Keeps(Run(w, steps, x), x)
    decreases |steps|
  {
    if steps != [] {
      KeepsStep(w, steps[0], x);
      KeepsRun(Apply(w, steps[0], x), steps[1..], x);
    }
  }

  // What the local service gives.

  predicate FromSource(client: Client, status: int, source: seq<byte>) {
    client.status == status && client.upstream + client.rest == source
  }

  lemma SourceStep(w: Link, step: Step, x: string, status: int, source: seq<byte>)
    requires Enabled(w, step, x) && FromSource(w.client, status, source)
    ensures FromSource(Apply(w, step, x).client, status, source)
  {
    if step.ReadChunk? {
      var rest, n := w.client.rest, step.n;
      assert rest == rest[..n] + rest[n..];
      assert w.client.upstream + rest == (w.client.upstream + rest[..n]) + rest[n..];
    }
  }

  lemma {:induction false} SourceRun(w: Link, steps: seq<Step>, x: string, status: int, source: seq<byte>)
    requires Feasible(w, steps, x) && FromSource(w.client, status, source)
    ensures FromSource(Run(w, steps, x).client, status, source)
    decreases |steps|
  {
    if steps != [] {
      SourceStep(w, steps[0], x, status, source);
      SourceRun(Apply(w, steps[0], x), steps[1..], x, status, source);
    }
  }

  lemma AcceptedFits(
    processed: seq<Message>, sent: seq<Message>, client: Client, closing: bool, x: string, r: P.Request, known: bool)
    requires processed <= sent && Fits(sent, client, closing, x) && Follows(r, known, processed, client.status)
    ensures r.accepted <= client.upstream
    ensures r.finisher.Finishing? && r.finisher.verdict.Clean? ==> client.rest == [] && r.accepted == client.upstream
  {
    BytesPrefix(processed, sent);
    ShapedPrefix(processed, sent);
  }

  lemma KeepsMeans(w: Link, x: string)
    requires Keeps(w, x)
    ensures w.request.accepted <= w.client.upstream
    ensures w.request.finisher.Finishing? && w.request.finisher.verdict.Clean? ==>
              w.client.rest == [] && w.request.accepted == w.client.upstream
  {
    ProcessedPrefix(w, x);
    AcceptedFits(
      Processed(w, x), Sent(w.net, w.client.phase, x), w.client, x in w.net.hist.finals, x, w.request, w.known);
  }

  lemma KeepsFaithful(w: Link, x: string, status: int, source: seq<byte>)
    requires Keeps(w, x) && FromSource(w.client, status, source)
    ensures w.request.delivered <= w.client.upstream <= source
    ensures w.request.writer.WriterEof? ==> w.request.delivered == source && w.request.startSends == [P.Started(status)]
    ensures w.request.finisher.Finishing? && w.request.finisher.verdict.Clean? ==>
              w.request.accepted == source && w.request.startSends == [P.Started(status)]
    ensures forall i | 0 <= i < |w.request.startSends| && w.request.startSends[i].Started? ::
              w.request.startSends[i] == P.Started(status)
  {
    KeepsMeans(w, x);
    DeliveredSound(w.request);
    assert w.client.upstream + [] == w.client.upstream;
  }

  lemma DeliveredSound(r: P.Request)
    requires P.Sound(r)
    ensures r.delivered <= r.accepted
    ensures r.writer.WriterEof? ==>
              r.finisher.Finishing? && r.finisher.verdict.Clean? && r.delivered == r.accepted
  {
  }

  lemma StartKeeps(flow: FlowControl, status: int, source: seq<byte>, x: string)
    ensures Keeps(Init(flow, status, source), x) && FromSource(Init(flow, status, source).client, status, source)
  {
    InvInit(flow.BufferedFrameCapacity());
  }

  /** End-to-end fidelity. Over every run, the bytes the server's body reader has
      got are a prefix of the bytes the client has read, and so of the whole body of
      the local service; and when the reader sees the clean end of the body, it has
      got that whole body, in order, once. The waiter gets the local service's status
      or an error, and the status when the body ends cleanly. */
  lemma ResponseFidelity(flow: FlowControl, status: int, source: seq<byte>, steps: seq<Step>, x: string)
    requires Feasible(Init(flow, status, source), steps, x)
    ensures var w := Run(Init(flow, status, source), steps, x);
      && w.request.delivered <= w.client.upstream <= source
      && (w.request.writer.WriterEof? ==> w.request.delivered == source && w.request.startSends == [P.Started(status)])
      && (forall i | 0 <= i < |w.request.startSends| && w.request.startSends[i].Started? ::
            w.request.startSends[i] == P.Started(status))
  {
    StartKeeps(flow, status, source, x);
    KeepsRun(Init(flow, status, source), steps, x);
    SourceRun(Init(flow, status, source), steps, x, status, source);
    KeepsFaithful(Run(Init(flow, status, source), steps, x), x, status, source);
  }

  /** Once the server has processed response_end for a live request, the whole body
      has been accepted. */
  lemma EndMeansComplete(flow: FlowControl, status: int, source: seq<byte>, steps: seq<Step>, x: string)
    requires Feasible(Init(flow, status, source), steps, x)
    ensures var w := Run(Init(flow, status, source), steps, x);
      w.request.finisher.Finishing? && w.request.finisher.verdict.Clean? ==>
        w.request.accepted == source && w.request.startSends == [P.Started(status)]
  {
    StartKeeps(flow, status, source, x);
    KeepsRun(Init(flow, status, source), steps, x);
    SourceRun(Init(flow, status, source), steps, x, status, source);
    KeepsFaithful(Run(Init(flow, status, source), steps, x), x, status, source);
  }
}
