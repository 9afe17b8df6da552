/**
 * The `stream` generator of the original JavaScript client (clips.js), driving the
 * legacy decoder: every network fragment is decoded and followed by one ordinary flush;
 * at the end of the response the decoder is flushed until it has less than a buffer
 * left, and then once more with `force`. The generator is modelled as a method that
 * takes the whole response as a list of fragments and returns the buffers it yields.
 */
module LegacyStreaming {
  import opened Bytes
  import opened Wrappers
  import opened Segmenter
  import L = LegacyWavStreamDecoder

  /** The settings under which the yielded bytes are determined by the response alone. */
  predicate AudioKnown(s: L.DecoderState)
  {
    !s.ignoreWavHeader || s.bufferSize >= L.STREAMING_WAV_HEADER_BUFFER_LEN
  }

  /** The bytes yielded for a response `fed`: all of it, or all but the header. */
  function StreamAudio(s: L.DecoderState, fed: seq<Byte>): seq<Byte>
  {
    if s.ignoreWavHeader then StrippedAudio(fed, L.STREAMING_WAV_HEADER_BUFFER_LEN) else fed
  }

  /**
   * The generator's invariant after the bytes `fed` have been decoded and `emitted` has
   * been yielded: with the header kept, yielded and pending bytes are what was fed; with the
   * header stripped (and a buffer at least a header long), the strip invariant holds.
   */
  ghost predicate Progress(s: L.DecoderState, fed: seq<Byte>, emitted: seq<Byte>)
  {
    if s.ignoreWavHeader then
      s.bufferSize >= L.STREAMING_WAV_HEADER_BUFFER_LEN ==>
        StripInvariant(fed, s.headerBuffer, s.chunks, emitted, L.STREAMING_WAV_HEADER_BUFFER_LEN)
    else emitted + s.chunks == fed
  }

  /** `decodeChunk` keeps the invariant. */
  lemma ProgressDecode(s: L.DecoderState, fed: seq<Byte>, chunk: seq<Byte>, emitted: seq<Byte>)
    requires L.ValidState(s) && Progress(s, fed, emitted)
    ensures Progress(L.Decode(s, chunk), fed + chunk, emitted)
  {
    if s.ignoreWavHeader {
      if s.bufferSize >= L.STREAMING_WAV_HEADER_BUFFER_LEN {
        L.DecodeStripsHeader(s, chunk, fed, emitted);
      }
    } else {
      L.DecodeAppends(s, chunk);
      assert emitted + (s.chunks + chunk) == (emitted + s.chunks) + chunk;
    }
  }

  /**
   * Flushing keeps the invariant: bytes move from pending to yielded, and nothing moves
   * while less than a buffer is pending (which covers every ordinary flush).
   */
  lemma ProgressMove(s: L.DecoderState, fed: seq<Byte>, emitted: seq<Byte>, out: seq<Byte>, rest: seq<Byte>)
    requires Progress(s, fed, emitted)
    requires out + rest == s.chunks
    requires |s.chunks| < s.bufferSize ==> out == []
    ensures Progress(s.(chunks := rest), fed, emitted + out)
  {
    assert (emitted + out) + rest == emitted + s.chunks;
    if out == [] {
      assert rest == s.chunks && emitted + out == emitted;
    }
  }

  /** In the determined cases, yielded and pending bytes are the stream's audio. */
  lemma ProgressAudio(s: L.DecoderState, fed: seq<Byte>, emitted: seq<Byte>)
    requires Progress(s, fed, emitted) && AudioKnown(s)
    ensures emitted + s.chunks == StreamAudio(s, fed)
  {
    if s.ignoreWavHeader {
      StripInvariantAudio(fed, s.headerBuffer, s.chunks, emitted, L.STREAMING_WAV_HEADER_BUFFER_LEN);
    }
  }

  /** `stream` of clips.js, for a decoder built with the given settings and a response delivered as `fragments`. */
  method Stream(bufferSize: int, ignoreWavHeader: bool, fragments: seq<seq<Byte>>)
    returns (buffers: seq<seq<Byte>>, failure: Option<ConfigError>)
    // the constructor's checks, whose exception ends the generator with an error value
    ensures failure.Some? <==> !ValidBufferSize(bufferSize)
    ensures failure.Some? ==> buffers == [] && CheckBufferSize(bufferSize) == Fail(failure.value)
    // every buffer is full but the last, which is not empty
    ensures forall i :: 0 <= i < |buffers| ==> 0 < |buffers[i]| <= bufferSize
    ensures forall i :: 0 <= i < |buffers| - 1 ==> |buffers[i]| == bufferSize
    // the audio, with or without its header, cut into buffers whatever the fragmentation
    ensures ValidBufferSize(bufferSize) && !ignoreWavHeader ==> buffers == Segment(Flatten(fragments), bufferSize)
    ensures ValidBufferSize(bufferSize) && ignoreWavHeader && bufferSize >= L.STREAMING_WAV_HEADER_BUFFER_LEN ==>
      buffers == Segment(StrippedAudio(Flatten(fragments), L.STREAMING_WAV_HEADER_BUFFER_LEN), bufferSize)
  {
    var created := L.StreamDecoder.Create(bufferSize, ignoreWavHeader);
    if created.Failure? {
      return [], Some(created.error);
    }
    var d := created.value;
    d.Reset();
    ghost var emitted;
    buffers, emitted := FeedAll(d, fragments);
    buffers := Finish(d, Flatten(fragments), buffers, emitted);
    failure := None;
  }

  /** One pass of the fragment loop keeps the loop's invariant. */
  lemma FeedStep(s: L.DecoderState, fed: seq<Byte>, chunk: seq<Byte>, buffers: seq<seq<Byte>>, emitted: seq<Byte>)
    requires L.ValidState(s) && AllFull(buffers, s.bufferSize) && emitted == Flatten(buffers) && Progress(s, fed, emitted)
    ensures var d := L.Decode(s, chunk);
      var f := FlushSplit(d.chunks, d.bufferSize, false);
      && L.ValidState(d) && d.bufferSize == s.bufferSize && d.ignoreWavHeader == s.ignoreWavHeader
      && (f.out.Some? ==>
            && AllFull(buffers + [f.out.value], s.bufferSize) && emitted + f.out.value == Flatten(buffers + [f.out.value])
            && Progress(d.(chunks := f.rest), fed + chunk, emitted + f.out.value))
      && (f.out.None? ==> Progress(d.(chunks := f.rest), fed + chunk, emitted))
  {
    var d := L.Decode(s, chunk);
    var f := FlushSplit(d.chunks, d.bufferSize, false);
    L.DecodeKeepsValid(s, chunk);
    ProgressDecode(s, fed, chunk, emitted);
    if f.out.Some? {
      ProgressMove(d, fed + chunk, emitted, f.out.value, f.rest);
      FlattenSnoc(buffers, f.out.value);
    } else {
      ProgressMove(d, fed + chunk, emitted, [], f.rest);
      assert emitted + [] == emitted;
    }
  }

  /** The fragment loop: decode, then one ordinary flush. */
  method FeedAll(d: L.StreamDecoder, fragments: seq<seq<Byte>>) returns (buffers: seq<seq<Byte>>, ghost emitted: seq<Byte>)
    requires d.Valid() && d.chunks == [] && d.headerBuffer == []
    modifies d
    ensures d.Valid() && d.bufferSize == old(d.bufferSize) && d.ignoreWavHeader == old(d.ignoreWavHeader)
    ensures AllFull(buffers, d.bufferSize) && emitted == Flatten(buffers)
    ensures Progress(d.State(), Flatten(fragments), emitted)
  {
    buffers, emitted := [], [];
    ghost var fed: seq<Byte> := [];
    ghost var st := d.State();
    var i := 0;
    while i < |fragments|
      invariant i <= |fragments| && fed == Flatten(fragments[..i])
      invariant d.Valid() && d.State() == st
      invariant st.bufferSize == old(d.bufferSize) && st.ignoreWavHeader == old(d.ignoreWavHeader)
      invariant AllFull(buffers, st.bufferSize) && emitted == Flatten(buffers)
      invariant Progress(st, fed, emitted)
    {
      FeedStep(st, fed, fragments[i], buffers, emitted);
      d.DecodeChunk(fragments[i]);
      ghost var decoded := L.Decode(st, fragments[i]);
      var buffer := d.FlushBuffer(false);
      if buffer.Some? {
        buffers, emitted := buffers + [buffer.value], emitted + buffer.value;
      }
      assert fragments[..i + 1] == fragments[..i] + [fragments[i]];
      FlattenSnoc(fragments[..i], fragments[i]);
      fed := fed + fragments[i];
      st := decoded.(chunks := FlushSplit(decoded.chunks, decoded.bufferSize, false).rest);
      i := i + 1;
    }
    assert fragments[..i] == fragments;
  }

  /** The bookkeeping of one ordinary flush that returned a buffer. */
  lemma DrainStep(drained: seq<seq<Byte>>, buffer: seq<Byte>, out: seq<Byte>, pending: seq<Byte>, rest: seq<Byte>,
                  original: seq<Byte>, bufferSize: nat)
    requires AllFull(drained, bufferSize) && |buffer| == bufferSize
    requires out == Flatten(drained) && out + pending == original && buffer + rest == pending
    ensures AllFull(drained + [buffer], bufferSize)
    ensures out + buffer == Flatten(drained + [buffer]) && (out + buffer) + rest == original
  {
    FlattenSnoc(drained, buffer);
    assert (out + buffer) + rest == out + pending;
  }

  /** The drain loop: ordinary flushes until one returns nothing. */
  method DrainAll(d: L.StreamDecoder) returns (drained: seq<seq<Byte>>, ghost out: seq<Byte>)
    requires d.Valid()
    modifies d
    ensures d.Valid() && d.State() == old(d.State()).(chunks := d.chunks)
    ensures |d.chunks| < d.bufferSize
    ensures AllFull(drained, d.bufferSize)
    ensures out == Flatten(drained) && out + d.chunks == old(d.chunks)
    ensures |old(d.chunks)| < d.bufferSize ==> drained == []
  {
    drained, out := [], [];
    while true
      invariant d.Valid() && d.State() == old(d.State()).(chunks := d.chunks)
      invariant AllFull(drained, d.bufferSize)
      invariant out == Flatten(drained) && out + d.chunks == old(d.chunks)
      invariant |old(d.chunks)| < d.bufferSize ==> drained == []
      decreases |d.chunks|
    {
      ghost var pending := d.chunks;
      var buffer := d.FlushBuffer(false);
      if buffer.None? {
        break;
      }
      DrainStep(drained, buffer.value, out, pending, d.chunks, old(d.chunks), d.bufferSize);
      drained, out := drained + [buffer.value], out + buffer.value;
    }
  }

  /** The end of the generator: the drain loop, then one forced flush. */
  method Finish(d: L.StreamDecoder, ghost fed: seq<Byte>, buffers: seq<seq<Byte>>, ghost emitted: seq<Byte>)
    returns (all: seq<seq<Byte>>)
    requires d.Valid() && AllFull(buffers, d.bufferSize) && emitted == Flatten(buffers)
    requires Progress(d.State(), fed, emitted)
    modifies d
    ensures forall i :: 0 <= i < |all| ==> 0 < |all[i]| <= old(d.bufferSize)
    ensures forall i :: 0 <= i < |all| - 1 ==> |all[i]| == old(d.bufferSize)
    ensures AudioKnown(old(d.State())) ==> all == Segment(StreamAudio(old(d.State()), fed), old(d.bufferSize))
  {
    ghost var s := d.State();
    var drained, out := DrainAll(d);
    ghost var rest := d.chunks;
    var buffer := d.FlushBuffer(true);
    all := buffers + drained;
    if buffer.Some? {
      all := all + [buffer.value];
    }
    assert all == (buffers + drained) + Remainder(rest);
    AllFullConcat(buffers, drained, s.bufferSize);
    FinishedShape(buffers + drained, rest, s.bufferSize);
    if AudioKnown(s) {
      ProgressMove(s, fed, emitted, out, rest);
      ProgressAudio(s.(chunks := rest), fed, emitted + out);
      FlattenConcat(buffers, drained);
      DrainIsSegment(buffers + drained, rest, StreamAudio(s, fed), s.bufferSize);
    }
  }
}
