/** Wire messages of the stream control plane and its flow-control settings
    (pkg/api/protocol.go). Payload encoding is abstracted: a start frame carries its
    status and a body frame its chunk of bytes directly. */
module Protocol {
  import opened Options
  import Text

  newtype byte = b: int | 0 <= b < 256

  datatype MessageKind =
    | RequestStart | RequestBody | RequestEnd | RequestCancel
    | ResponseStart(status: int) | ResponseBody | ResponseEnd
    | ErrorReport | OtherControl

  datatype Message = Message(kind: MessageKind, id: string, chunk: seq<byte>)

  const DEFAULT_BODY_CHUNK_SIZE := 32 * 1024
  const DEFAULT_MAX_CONCURRENT_STREAMS := 100
  const DEFAULT_BUFFERED_BYTES_PER_STREAM := 128 * 1024
  const DEFAULT_STREAM_TIMEOUT_SECONDS := 60
  const DEFAULT_STREAM_IDLE_TIMEOUT_SECONDS := 15

  datatype FlowControl = FlowControl(
    maxConcurrentStreams: int,
    bufferedBytesPerStream: int,
    streamTimeoutSeconds: int,
    streamIdleTimeoutSeconds: int)
  {
    /** Every non-positive setting takes its default. */
    function Normalize(): FlowControl {
      FlowControl(
        if maxConcurrentStreams <= 0 then DEFAULT_MAX_CONCURRENT_STREAMS else maxConcurrentStreams,
        if bufferedBytesPerStream <= 0 then DEFAULT_BUFFERED_BYTES_PER_STREAM else bufferedBytesPerStream,
        if streamTimeoutSeconds <= 0 then DEFAULT_STREAM_TIMEOUT_SECONDS else streamTimeoutSeconds,
        if streamIdleTimeoutSeconds <= 0 then DEFAULT_STREAM_IDLE_TIMEOUT_SECONDS else streamIdleTimeoutSeconds)
    }

    /** True when Validate reports no error. */
    predicate Validates() {
      var normalized := Normalize();
      && normalized.maxConcurrentStreams > 0
      && normalized.bufferedBytesPerStream >= DEFAULT_BODY_CHUNK_SIZE
      && normalized.streamTimeoutSeconds > 0
      && normalized.streamIdleTimeoutSeconds > 0
    }

    /** The least number of chunk-sized frames that holds the configured number
        of bytes: one frame fewer would not. */
    function BufferedFrameCapacity(): (capacity: nat)
      ensures capacity >= 1
      ensures (capacity - 1) * DEFAULT_BODY_CHUNK_SIZE < Normalize().bufferedBytesPerStream
      ensures Normalize().bufferedBytesPerStream <= capacity * DEFAULT_BODY_CHUNK_SIZE
    {
      var bytes := Normalize().bufferedBytesPerStream;
      var capacity := bytes / DEFAULT_BODY_CHUNK_SIZE;
      var rounded := if bytes % DEFAULT_BODY_CHUNK_SIZE != 0 then capacity + 1 else capacity;
      if rounded < 1 then 1 else rounded
    }
  }

  /** Settings pass validation exactly when the stream buffer is left to its
      default or holds at least one whole chunk; no other setting can fail. Positive
      settings are kept, and the others are 100 streams, 128 KiB, 60 and 15 seconds. */
  lemma ValidatesExactly(f: FlowControl)
    ensures f.Validates() <==> f.bufferedBytesPerStream <= 0 || f.bufferedBytesPerStream >= 32768
    ensures f.Normalize().Normalize() == f.Normalize()
    ensures f.Normalize().BufferedFrameCapacity() == f.BufferedFrameCapacity()
    ensures f.maxConcurrentStreams > 0 ==> f.Normalize().maxConcurrentStreams == f.maxConcurrentStreams
    ensures f.bufferedBytesPerStream > 0 ==> f.Normalize().bufferedBytesPerStream == f.bufferedBytesPerStream
    ensures f.streamTimeoutSeconds > 0 ==> f.Normalize().streamTimeoutSeconds == f.streamTimeoutSeconds
    ensures f.streamIdleTimeoutSeconds > 0 ==> f.Normalize().streamIdleTimeoutSeconds == f.streamIdleTimeoutSeconds
    ensures FlowControl(0, 0, 0, 0).Normalize() == FlowControl(100, 131072, 60, 15)
  {
  }

  /** The lower-cased, trimmed name of a supported tunnel protocol. */
  function NormalizeTunnelProtocol(protocol: string): Option<string> {
    var normalized := Text.ToLower(Text.TrimSpace(protocol));
    if normalized == "http" || normalized == "https" || normalized == "tcp" then Some(normalized) else None
  }
}
