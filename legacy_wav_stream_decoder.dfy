/**
 * The streaming WAV decoder of the original JavaScript client: the same pending buffer
 * and flush as the v2 decoder, a 44-byte header, and no timestamps.
 */
module LegacyWavStreamDecoder {
  import opened Bytes
  import opened Wrappers
  import opened Segmenter

  const STREAMING_WAV_HEADER_BUFFER_LEN: nat := 44

  datatype DecoderState = DecoderState(bufferSize: nat, ignoreWavHeader: bool, chunks: seq<Byte>, headerBuffer: seq<Byte>)

  predicate ValidState(s: DecoderState)
  {
    ValidBufferSize(s.bufferSize) && (|s.headerBuffer| == 0 || |s.headerBuffer| == STREAMING_WAV_HEADER_BUFFER_LEN)
  }

  /** `decodeChunk`: append, then strip the header once, when it is to be ignored and 44 bytes are pending. */
  function Decode(s: DecoderState, chunk: seq<Byte>): DecoderState
  {
    var pending := s.chunks + chunk;
    if |s.headerBuffer| < STREAMING_WAV_HEADER_BUFFER_LEN && s.ignoreWavHeader then
      var st := StripHeader(s.headerBuffer, pending, STREAMING_WAV_HEADER_BUFFER_LEN);
      s.(chunks := st.pending, headerBuffer := st.header)
    else s.(chunks := pending)
  }

  /** `decodeChunk` keeps the state invariant. */
  lemma DecodeKeepsValid(s: DecoderState, chunk: seq<Byte>)
    requires ValidState(s)
    ensures ValidState(Decode(s, chunk))
  {
  }

  /** With the header kept, or already captured, `decodeChunk` only appends. */
  lemma DecodeAppends(s: DecoderState, chunk: seq<Byte>)
    requires ValidState(s)
    requires !s.ignoreWavHeader || |s.headerBuffer| == STREAMING_WAV_HEADER_BUFFER_LEN
    ensures Decode(s, chunk) == s.(chunks := s.chunks + chunk)
  {
  }

  /** With the header ignored, `decodeChunk` captures the first 44 bytes of the stream as the header, however it is cut into fragments. */
  lemma DecodeStripsHeader(s: DecoderState, chunk: seq<Byte>, fed: seq<Byte>, emitted: seq<Byte>)
    requires ValidState(s) && s.ignoreWavHeader
    requires StripInvariant(fed, s.headerBuffer, s.chunks, emitted, STREAMING_WAV_HEADER_BUFFER_LEN)
    ensures var d := Decode(s, chunk);
      && d == s.(chunks := d.chunks, headerBuffer := d.headerBuffer)
      && StripInvariant(fed + chunk, d.headerBuffer, d.chunks, emitted, STREAMING_WAV_HEADER_BUFFER_LEN)
  {
    StripStep(fed, chunk, s.headerBuffer, s.chunks, emitted, STREAMING_WAV_HEADER_BUFFER_LEN);
  }

  class StreamDecoder {
    var bufferSize: nat
    var ignoreWavHeader: bool
    var chunks: seq<Byte>
    var headerBuffer: seq<Byte>

    function State(): DecoderState
      reads this
    {
      DecoderState(bufferSize, ignoreWavHeader, chunks, headerBuffer)
    }

    ghost predicate Valid()
      reads this
    {
      ValidState(State())
    }

    /** The constructor once its two checks have passed (see `Create` for the checks). */
    constructor (bufferSize: nat, ignoreWavHeader: bool)
      requires ValidBufferSize(bufferSize)
      ensures Valid() && State() == DecoderState(bufferSize, ignoreWavHeader, [], [])
    {
      this.bufferSize := bufferSize;
      this.ignoreWavHeader := ignoreWavHeader;
      this.chunks := [];
      this.headerBuffer := [];
    }

    /** `new StreamDecoder(bufferSize, ignoreWavHeader)`: throws for a buffer size below 2 or odd. */
    static method Create(bufferSize: int, ignoreWavHeader: bool) returns (r: Result<StreamDecoder, ConfigError>)
      ensures r.Failure? <==> !ValidBufferSize(bufferSize)
      ensures r.Failure? ==> CheckBufferSize(bufferSize) == Fail(r.error)
      ensures r.Success? ==> fresh(r.value) && r.value.Valid()
                             && r.value.State() == DecoderState(bufferSize, ignoreWavHeader, [], [])
    {
      var check := CheckBufferSize(bufferSize);
      if check.Fail? {
        return Failure(check.error);
      }
      var d := new StreamDecoder(bufferSize, ignoreWavHeader);
      return Success(d);
    }

    method SetBufferSize(size: int) returns (r: Outcome<ConfigError>)
      requires Valid()
      modifies this
      ensures Valid()
      ensures r == CheckBufferSize(size)
      ensures State() == if r.Pass? then old(State()).(bufferSize := size) else old(State())
    {
      r := CheckBufferSize(size);
      if r.Pass? {
        bufferSize := size;
      }
    }

    method SetIgnoreWavHeader(val: bool)
      requires Valid()
      modifies this
      ensures Valid() && State() == old(State()).(ignoreWavHeader := val)
    {
      ignoreWavHeader := val;
    }

    method DecodeChunk(chunk: seq<Byte>)
      requires Valid()
      modifies this
      ensures Valid() && State() == Decode(old(State()), chunk)
    {
      chunks := chunks + chunk;
      if |headerBuffer| < STREAMING_WAV_HEADER_BUFFER_LEN && ignoreWavHeader {
        var tempBuf := chunks;
        if |tempBuf| >= STREAMING_WAV_HEADER_BUFFER_LEN {
          headerBuffer := tempBuf[..STREAMING_WAV_HEADER_BUFFER_LEN];
          chunks := tempBuf[STREAMING_WAV_HEADER_BUFFER_LEN..];
        }
      }
    }

    /** `flushBuffer(force)`: the pending bytes are split as `FlushSplit` says; nothing else changes. */
    method FlushBuffer(force: bool) returns (r: Option<seq<Byte>>)
      requires Valid()
      modifies this
      ensures Valid()
      ensures r == FlushSplit(old(chunks), bufferSize, force).out
      ensures State() == old(State()).(chunks := FlushSplit(old(chunks), bufferSize, force).rest)
    {
      var tempBuf := chunks;
      if force && |tempBuf| > 0 {
        chunks := [];
        return Some(tempBuf);
      }
      if |tempBuf| >= bufferSize {
        var returnBuffer := tempBuf[..bufferSize];
        chunks := tempBuf[bufferSize..];
        return Some(returnBuffer);
      }
      return None;
    }

    method Reset()
      requires Valid()
      modifies this
      ensures Valid() && State() == old(State()).(chunks := [], headerBuffer := [])
    {
      chunks := [];
      headerBuffer := [];
    }
  }
}
