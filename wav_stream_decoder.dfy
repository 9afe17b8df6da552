/**
 * The streaming WAV decoder of the v2 client: network fragments are appended to a
 * pending buffer, the 36-byte streaming header is stripped or kept, the timing block
 * that follows the header is parsed once when timestamps were requested, and the
 * pending bytes are handed out in buffers of `bufferSize` bytes.
 *
 * `DecoderState` is the value of all the decoder's fields; `chunks` is the
 * concatenation of the source's list of fragments (every use of the list concatenates
 * it first). The pure functions below give the effect of each operation on that value;
 * the class `StreamDecoder` updates its fields in place and is proved to agree with
 * them.
 */
module WavStreamDecoder {
  import opened Bytes
  import opened Wrappers
  import opened Segmenter
  import opened WavTimestamps

  const STREAMING_WAV_HEADER_BUFFER_LEN: nat := 36

  datatype DecoderState = DecoderState(
    bufferSize: nat,
    ignoreWavHeader: bool,
    chunks: seq<Byte>,
    headerBuffer: seq<Byte>,
    processTimeStamps: bool,
    timeStampsBuffer: seq<Byte>,
    allTimestampsProcessed: bool,
    timeStamps: Option<Timestamps>)   // `None` for the initial empty object

  /**
   * What every reachable state satisfies: a legal buffer size, a header that is either
   * absent or complete, timestamps present exactly once processed, and no timestamp
   * state at all unless timestamps were requested.
   */
  predicate ValidState(s: DecoderState)
  {
    && ValidBufferSize(s.bufferSize)
    && (|s.headerBuffer| == 0 || |s.headerBuffer| == STREAMING_WAV_HEADER_BUFFER_LEN)
    && (s.allTimestampsProcessed <==> s.timeStamps.Some?)
    && (!s.processTimeStamps ==> s.timeStampsBuffer == [] && !s.allTimestampsProcessed)
  }

  /** The state the constructor builds. */
  function Initial(bufferSize: nat, ignoreWavHeader: bool, processTimeStamps: bool): DecoderState
  {
    DecoderState(bufferSize, ignoreWavHeader, [], [], processTimeStamps, [], false, None)
  }

  /** The state after `decodeChunk`, and whether the timestamp parser threw. */
  datatype Decoded = Decoded(state: DecoderState, outcome: Outcome<ParseError>)

  /**
   * The first part of `decodeChunk`: the fragment is appended; without timestamps the
   * header is stripped once enough bytes have arrived; with timestamps still to come the
   * fragment is also kept for the parser.
   */
  function Buffered(s: DecoderState, chunk: seq<Byte>): DecoderState
  {
    var pending := s.chunks + chunk;
    var s1 :=
      if |s.headerBuffer| < STREAMING_WAV_HEADER_BUFFER_LEN && s.ignoreWavHeader && !s.processTimeStamps then
        var st := StripHeader(s.headerBuffer, pending, STREAMING_WAV_HEADER_BUFFER_LEN);
        s.(chunks := st.pending, headerBuffer := st.header)
      else s.(chunks := pending);
    if s.processTimeStamps && !s.allTimestampsProcessed then s1.(timeStampsBuffer := s.timeStampsBuffer + chunk)
    else s1
  }

  /** Keep-header mode while the timestamps are not complete: only the header stays pending. */
  function HeaderOnly(s: DecoderState): DecoderState
  {
    if |s.headerBuffer| < STREAMING_WAV_HEADER_BUFFER_LEN then
      if |s.chunks| >= STREAMING_WAV_HEADER_BUFFER_LEN then
        var header := s.chunks[..STREAMING_WAV_HEADER_BUFFER_LEN];
        s.(headerBuffer := header, chunks := header)
      else s
    else s.(chunks := s.headerBuffer)
  }

  /** Keep-header mode once the timestamps are parsed: the header followed by the bytes after the timing block. */
  function HeaderAndAudio(s: DecoderState, offset: nat): DecoderState
  {
    if |s.headerBuffer| < STREAMING_WAV_HEADER_BUFFER_LEN then
      if |s.chunks| >= STREAMING_WAV_HEADER_BUFFER_LEN then
        var header := s.chunks[..STREAMING_WAV_HEADER_BUFFER_LEN];
        s.(headerBuffer := header, chunks := header + SliceFrom(s.chunks, offset))
      else s
    else s.(chunks := s.headerBuffer + SliceFrom(s.timeStampsBuffer, offset))
  }

  /** The keep-header timestamp branch of `decodeChunk`. */
  function KeepHeaderStep(s: DecoderState): Decoded
  {
    if !s.ignoreWavHeader && s.processTimeStamps && !s.allTimestampsProcessed then
      match Parse(s.timeStampsBuffer)
      case Threw(e) => Decoded(s, Fail(e))
      case NoCueChunk => Decoded(HeaderOnly(s), Pass)
      case Incomplete(_) => Decoded(HeaderOnly(s), Pass)
      case Extracted(ts, offset) =>
        Decoded(HeaderAndAudio(s, offset).(timeStamps := Some(ts), allTimestampsProcessed := true, timeStampsBuffer := []), Pass)
    else Decoded(s, Pass)
  }

  /** The ignore-header timestamp branch of `decodeChunk`. */
  function IgnoreHeaderStep(s: DecoderState): Decoded
  {
    if s.ignoreWavHeader && s.processTimeStamps && !s.allTimestampsProcessed then
      match Parse(s.timeStampsBuffer)
      case Threw(e) => Decoded(s, Fail(e))
      case NoCueChunk => Decoded(s, Pass)
      case Incomplete(_) => Decoded(s.(chunks := []), Pass)
      case Extracted(ts, offset) =>
        Decoded(s.(timeStamps := Some(ts), allTimestampsProcessed := true, chunks := SliceFrom(s.timeStampsBuffer, offset)), Pass)
    else Decoded(s, Pass)
  }

  /** `decodeChunk`: the three parts in order; an exception of the parser ends the call with the state it had reached. */
  function Decode(s: DecoderState, chunk: seq<Byte>): Decoded
  {
    var k := KeepHeaderStep(Buffered(s, chunk));
    if k.outcome.Fail? then k else IgnoreHeaderStep(k.state)
  }

  /** `getTimestamps`: the parsed timestamps, once they are complete and only if they were requested. */
  function TimestampsOf(s: DecoderState): Option<Timestamps>
  {
    if s.processTimeStamps && s.allTimestampsProcessed then s.timeStamps else None
  }

  /** `decodeChunk` keeps the state invariant, whatever the parser does. */
  lemma DecodeKeepsValid(s: DecoderState, chunk: seq<Byte>)
    requires ValidState(s)
    ensures ValidState(Decode(s, chunk).state)
    ensures var d := Decode(s, chunk).state;
      d.bufferSize == s.bufferSize && d.ignoreWavHeader == s.ignoreWavHeader && d.processTimeStamps == s.processTimeStamps
  {
    var b := Buffered(s, chunk);
    assert ValidState(b);
  }

  /**
   * `decodeChunk` throws exactly when timestamps are still to come and the parser throws
   * on everything received so far; it then leaves the fragment appended both to the
   * pending bytes and to the parser's buffer.
   */
  lemma DecodeFailsOnlyInParser(s: DecoderState, chunk: seq<Byte>)
    requires ValidState(s)
    ensures var d := Decode(s, chunk);
      d.outcome.Fail? <==>
        s.processTimeStamps && !s.allTimestampsProcessed && Parse(s.timeStampsBuffer + chunk).Threw?
    ensures var d := Decode(s, chunk);
      d.outcome.Fail? ==>
        && d.outcome.error == Parse(s.timeStampsBuffer + chunk).error
        && d.state == s.(chunks := s.chunks + chunk, timeStampsBuffer := s.timeStampsBuffer + chunk)
  {
  }

  /**
   * Once the header is held (or is not to be stripped) and no timestamps are pending,
   * `decodeChunk` only appends the fragment: nothing is parsed, nothing can fail.
   */
  lemma DecodeAppends(s: DecoderState, chunk: seq<Byte>)
    requires ValidState(s)
    requires if s.processTimeStamps then s.allTimestampsProcessed
             else !s.ignoreWavHeader || |s.headerBuffer| == STREAMING_WAV_HEADER_BUFFER_LEN
    ensures Decode(s, chunk) == Decoded(s.(chunks := s.chunks + chunk), Pass)
  {
  }

  /**
   * Without timestamps and with the header stripped, `decodeChunk` captures the header
   * from the first 36 bytes of the stream and keeps every later byte pending, however the
   * stream is cut into fragments (`fed` is all the bytes decoded so far, `emitted` the
   * bytes flushed).
   */
  lemma DecodeStripsHeader(s: DecoderState, chunk: seq<Byte>, fed: seq<Byte>, emitted: seq<Byte>)
    requires ValidState(s) && !s.processTimeStamps && s.ignoreWavHeader
    requires StripInvariant(fed, s.headerBuffer, s.chunks, emitted, STREAMING_WAV_HEADER_BUFFER_LEN)
    ensures var d := Decode(s, chunk);
      && d.outcome == Pass
      && d.state == s.(chunks := d.state.chunks, headerBuffer := d.state.headerBuffer)
      && StripInvariant(fed + chunk, d.state.headerBuffer, d.state.chunks, emitted, STREAMING_WAV_HEADER_BUFFER_LEN)
  {
    StripStep(fed, chunk, s.headerBuffer, s.chunks, emitted, STREAMING_WAV_HEADER_BUFFER_LEN);
  }

  /**
   * Timestamps in keep-header mode, header already held: while the timing block is
   * incomplete (or absent) the pending bytes are reset to the header alone, and the
   * parser's buffer keeps every byte received; once the block parses, the pending bytes
   * are rebuilt from that buffer as the header and everything after the block, and the
   * parser's buffer is emptied.
   */
  lemma KeepHeaderWithTimestamps(s: DecoderState, chunk: seq<Byte>)
    requires ValidState(s) && s.processTimeStamps && !s.ignoreWavHeader && !s.allTimestampsProcessed
    requires |s.headerBuffer| == STREAMING_WAV_HEADER_BUFFER_LEN
    ensures var fed, d := s.timeStampsBuffer + chunk, Decode(s, chunk);
      match Parse(fed)
      case Extracted(ts, offset) =>
        && d.state.chunks == s.headerBuffer + SliceFrom(fed, offset)
        && d.state.timeStampsBuffer == [] && TimestampsOf(d.state) == Some(ts)
      case Threw(_) => d.outcome.Fail?
      case _ => d.state.chunks == s.headerBuffer && TimestampsOf(d.state) == None && d.state.timeStampsBuffer == fed
    ensures Decode(s, chunk).state.headerBuffer == s.headerBuffer
  {
  }

  /**
   * Timestamps in keep-header mode before the header is held, with the pending bytes
   * still the parser's buffer: the first 36 bytes are captured as the header once they
   * have arrived, and the pending bytes become that header until the timing block
   * parses, when the audio after the block follows it.
   */
  lemma KeepHeaderBeforeHeader(s: DecoderState, chunk: seq<Byte>)
    requires ValidState(s) && s.processTimeStamps && !s.ignoreWavHeader && !s.allTimestampsProcessed
    requires s.headerBuffer == [] && s.chunks == s.timeStampsBuffer
    ensures var fed, d := s.timeStampsBuffer + chunk, Decode(s, chunk);
      match Parse(fed)
      case Extracted(ts, offset) =>
        && |fed| >= STREAMING_WAV_HEADER_BUFFER_LEN
        && d.state.headerBuffer == fed[..STREAMING_WAV_HEADER_BUFFER_LEN]
        && d.state.chunks == d.state.headerBuffer + SliceFrom(fed, offset)
        && TimestampsOf(d.state) == Some(ts)
      case Threw(_) => d.outcome.Fail?
      case _ =>
        && TimestampsOf(d.state) == None && d.state.timeStampsBuffer == fed
        && if |fed| >= STREAMING_WAV_HEADER_BUFFER_LEN then
             d.state.headerBuffer == fed[..STREAMING_WAV_HEADER_BUFFER_LEN] && d.state.chunks == d.state.headerBuffer
           else d.state.headerBuffer == [] && d.state.chunks == fed
  {
    if Parse(s.timeStampsBuffer + chunk).Extracted? {
      ExtractedShape(s.timeStampsBuffer + chunk);
    }
  }

  /**
   * Timestamps in ignore-header mode: an incomplete timing block empties the pending
   * bytes; a stream without one keeps everything, header included; once it parses, the
   * pending bytes are everything received after the block, and the parser's buffer is
   * left as it is.
   */
  lemma IgnoreHeaderWithTimestamps(s: DecoderState, chunk: seq<Byte>)
    requires ValidState(s) && s.processTimeStamps && s.ignoreWavHeader && !s.allTimestampsProcessed
    ensures var fed, d := s.timeStampsBuffer + chunk, Decode(s, chunk);
      match Parse(fed)
      case Extracted(ts, offset) =>
        && d.state.chunks == SliceFrom(fed, offset)
        && d.state.timeStampsBuffer == fed && TimestampsOf(d.state) == Some(ts)
      case Incomplete(_) => d.state.chunks == [] && TimestampsOf(d.state) == None
      case NoCueChunk => d.state.chunks == s.chunks + chunk && TimestampsOf(d.state) == None
      case Threw(_) => d.outcome.Fail?
    ensures Decode(s, chunk).state.headerBuffer == s.headerBuffer
  {
  }

  /**
   * Timestamps requested and not yet parsed: the parser sees everything received so
   * far; while it does not succeed, its buffer keeps growing and no timestamps are
   * reported, and once it succeeds its timestamps are reported.
   */
  lemma DecodeBeforeTimestamps(s: DecoderState, chunk: seq<Byte>)
    requires ValidState(s) && s.processTimeStamps && !s.allTimestampsProcessed
    ensures var fed, d := s.timeStampsBuffer + chunk, Decode(s, chunk);
      && (Parse(fed).Extracted? ==> d.outcome == Pass && TimestampsOf(d.state) == Some(Parse(fed).timestamps))
      && (!Parse(fed).Extracted? ==> d.state.timeStampsBuffer == fed && TimestampsOf(d.state) == None)
  {
  }

  /**
   * A fragment that carries the whole timing block, decoded first: the timestamps are
   * taken from it, and the pending bytes are the audio after the block, preceded by the
   * stream's 36-byte header in keep-header mode.
   */
  lemma DecodeFirstWithTimestamps(s: DecoderState, chunk: seq<Byte>)
    requires ValidState(s) && s.processTimeStamps && !s.allTimestampsProcessed
    requires s.chunks == [] && s.headerBuffer == [] && s.timeStampsBuffer == []
    requires Parse(chunk).Extracted?
    ensures var d, offset := Decode(s, chunk), Parse(chunk).offset;
      && d.outcome == Pass
      && TimestampsOf(d.state) == Some(Parse(chunk).timestamps)
      && d.state.chunks ==
           (if s.ignoreWavHeader then SliceFrom(chunk, offset)
            else chunk[..STREAMING_WAV_HEADER_BUFFER_LEN] + SliceFrom(chunk, offset))
  {
    ExtractedShape(chunk);
    assert s.timeStampsBuffer + chunk == chunk;
    assert s.chunks + chunk == chunk;
  }

  /** The timestamps `getTimestamps` reports never change once reported, and never appear unless requested. */
  lemma DecodeKeepsTimestamps(s: DecoderState, chunk: seq<Byte>)
    requires ValidState(s)
    ensures TimestampsOf(s).Some? ==> TimestampsOf(Decode(s, chunk).state) == TimestampsOf(s)
    ensures !s.processTimeStamps ==> TimestampsOf(Decode(s, chunk).state) == None
  {
  }

  class StreamDecoder {
    var bufferSize: nat
    var ignoreWavHeader: bool
    var chunks: seq<Byte>
    var headerBuffer: seq<Byte>
    const processTimeStamps: bool
    var timeStampsBuffer: seq<Byte>
    var allTimestampsProcessed: bool
    var timeStamps: Option<Timestamps>

    function State(): DecoderState
      reads this
    {
      DecoderState(bufferSize, ignoreWavHeader, chunks, headerBuffer, processTimeStamps,
                   timeStampsBuffer, allTimestampsProcessed, timeStamps)
    }

    ghost predicate Valid()
      reads this
    {
      ValidState(State())
    }

    /** The constructor once its two checks have passed (see `Create` for the checks). */
    constructor (bufferSize: nat, ignoreWavHeader: bool, timeStampsProcessingRequired: bool)
      requires ValidBufferSize(bufferSize)
      ensures Valid() && State() == Initial(bufferSize, ignoreWavHeader, timeStampsProcessingRequired)
    {
      this.bufferSize := bufferSize;
      this.ignoreWavHeader := ignoreWavHeader;
      this.chunks := [];
      this.headerBuffer := [];
      this.processTimeStamps := timeStampsProcessingRequired;
      this.timeStampsBuffer := [];
      this.allTimestampsProcessed := false;
      this.timeStamps := None;
    }

    /** `new StreamDecoder(...)`: throws for a buffer size below 2 or odd. */
    static method Create(bufferSize: int, ignoreWavHeader: bool, timeStampsProcessingRequired: bool)
      returns (r: Result<StreamDecoder, ConfigError>)
      ensures r.Failure? <==> !ValidBufferSize(bufferSize)
      ensures r.Failure? ==> CheckBufferSize(bufferSize) == Fail(r.error)
      ensures r.Success? ==> fresh(r.value) && r.value.Valid()
                             && r.value.State() == Initial(bufferSize, ignoreWavHeader, timeStampsProcessingRequired)
    {
      var check := CheckBufferSize(bufferSize);
      if check.Fail? {
        return Failure(check.error);
      }
      var d := new StreamDecoder(bufferSize, ignoreWavHeader, timeStampsProcessingRequired);
      return Success(d);
    }

    method SetBufferSize(size: int) returns (r: Outcome<ConfigError>)
      requires Valid()
      modifies this
      ensures Valid()
      ensures r == CheckBufferSize(size)
      ensures State() == if r.Pass? then old(State()).(bufferSize := size) else old(State())
    {
      r := CheckBufferSize(size);
      if r.Pass? {
        bufferSize := size;
      }
    }

    method SetIgnoreWavHeader(val: bool)
      requires Valid()
      modifies this
      ensures Valid() && State() == old(State()).(ignoreWavHeader := val)
    {
      ignoreWavHeader := val;
    }

    method DecodeChunk(chunk: seq<Byte>) returns (r: Outcome<ParseError>)
      requires Valid()
      modifies this
      ensures Valid()
      ensures State() == Decode(old(State()), chunk).state
      ensures r == Decode(old(State()), chunk).outcome
    {
      DecodeKeepsValid(State(), chunk);
      BufferChunk(chunk);
      r := KeepHeaderTimestamps();
      if r.Fail? {
        return;
      }
      r := IgnoreHeaderTimestamps();
    }

    /** Steps 1 and 2 of `decodeChunk` and the copy kept for the timestamp parser. */
    method BufferChunk(chunk: seq<Byte>)
      modifies this
      ensures State() == Buffered(old(State()), chunk)
    {
      chunks := chunks + chunk;
      if |headerBuffer| < STREAMING_WAV_HEADER_BUFFER_LEN && ignoreWavHeader && !processTimeStamps {
        var tempBuf := chunks;
        if |tempBuf| >= STREAMING_WAV_HEADER_BUFFER_LEN {
          headerBuffer := tempBuf[..STREAMING_WAV_HEADER_BUFFER_LEN];
          chunks := tempBuf[STREAMING_WAV_HEADER_BUFFER_LEN..];
        }
      }
      if processTimeStamps && !allTimestampsProcessed {
        timeStampsBuffer := timeStampsBuffer + chunk;
      }
    }

    /** Step 3 of `decodeChunk`: timestamps wanted, header kept. */
    method KeepHeaderTimestamps() returns (r: Outcome<ParseError>)
      modifies this
      ensures State() == KeepHeaderStep(old(State())).state
      ensures r == KeepHeaderStep(old(State())).outcome
    {
      if !ignoreWavHeader && processTimeStamps && !allTimestampsProcessed {
        var obj := ExtractTimestampsFromBuffer(timeStampsBuffer);
        if obj.Threw? {
          return Fail(obj.error);
        }
        if !obj.Extracted? {
          if |headerBuffer| < STREAMING_WAV_HEADER_BUFFER_LEN {
            var tempBuf := chunks;
            if |tempBuf| >= STREAMING_WAV_HEADER_BUFFER_LEN {
              headerBuffer := tempBuf[..STREAMING_WAV_HEADER_BUFFER_LEN];
              chunks := headerBuffer;
            }
          } else {
            chunks := headerBuffer;
          }
        } else {
          if |headerBuffer| < STREAMING_WAV_HEADER_BUFFER_LEN {
            var tempBuf := chunks;
            if |tempBuf| >= STREAMING_WAV_HEADER_BUFFER_LEN {
              headerBuffer := tempBuf[..STREAMING_WAV_HEADER_BUFFER_LEN];
              chunks := headerBuffer + SliceFrom(tempBuf, obj.offset);
            }
          } else {
            chunks := headerBuffer + SliceFrom(timeStampsBuffer, obj.offset);
          }
          timeStamps := Some(obj.timestamps);
          allTimestampsProcessed := true;
          timeStampsBuffer := [];
        }
      }
      return Pass;
    }

    /** Step 4 of `decodeChunk`: timestamps wanted, header ignored. */
    method IgnoreHeaderTimestamps() returns (r: Outcome<ParseError>)
      modifies this
      ensures State() == IgnoreHeaderStep(old(State())).state
      ensures r == IgnoreHeaderStep(old(State())).outcome
    {
      if ignoreWavHeader && processTimeStamps && !allTimestampsProcessed {
        var obj := ExtractTimestampsFromBuffer(timeStampsBuffer);
        if obj.Threw? {
          return Fail(obj.error);
        }
        if obj.Incomplete? {
          chunks := [];
        }
        if obj.Extracted? {
          timeStamps := Some(obj.timestamps);
          allTimestampsProcessed := true;
          chunks := SliceFrom(timeStampsBuffer, obj.offset);
        }
      }
      return Pass;
    }

    /** `flushBuffer(force)`: the pending bytes are split as `FlushSplit` says; nothing else changes. */
    method FlushBuffer(force: bool) returns (r: Option<seq<Byte>>)
      requires Valid()
      modifies this
      ensures Valid()
      ensures r == FlushSplit(old(chunks), bufferSize, force).out
      ensures State() == old(State()).(chunks := FlushSplit(old(chunks), bufferSize, force).rest)
    {
      var tempBuf := chunks;
      if force && |tempBuf| > 0 {
        chunks := [];
        return Some(tempBuf);
      }
      if |tempBuf| >= bufferSize {
        var returnBuffer := tempBuf[..bufferSize];
        chunks := tempBuf[bufferSize..];
        return Some(returnBuffer);
      }
      return None;
    }

    /** `reset()`: drops the pending bytes and the header, and leaves all timestamp state as it is. */
    method Reset()
      requires Valid()
      modifies this
      ensures Valid() && State() == old(State()).(chunks := [], headerBuffer := [])
    {
      chunks := [];
      headerBuffer := [];
    }

    function GetTimestamps(): (r: Option<Timestamps>)
      reads this
      requires Valid()
      ensures r.Some? <==> processTimeStamps && allTimestampsProcessed
      ensures r == TimestampsOf(State())
    {
      if processTimeStamps && allTimestampsProcessed then timeStamps else None
    }
  }
}
