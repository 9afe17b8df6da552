/**
 * The two `stream` generators that drive the decoders: every network fragment is
 * decoded and followed by one ordinary flush; at the end of the response the decoder is
 * flushed until it has less than a buffer left, and then once more with `force`. The
 * generators are modelled as methods that take the whole response as a list of
 * fragments and return the list of values they yield.
 */
module Streaming {
  import opened Bytes
  import opened Wrappers
  import opened Segmenter
  import opened WavTimestamps
  import W = WavStreamDecoder
  import L = LegacyWavStreamDecoder

  /** One value yielded by the v2 generator: `{data, timestamps: getTimestamps()}`. */
  datatype Piece = Piece(data: seq<Byte>, timestamps: Option<Timestamps>)

  /** How the v2 generator ends: after the last buffer, by an exception of the timestamp parser, or by one of the constructor's. */
  datatype StreamEnd = Drained | DecodeError(parseError: ParseError) | BadConfig(configError: ConfigError)

  function Datas(pieces: seq<Piece>): (r: seq<seq<Byte>>)
    ensures |r| == |pieces| && forall i :: 0 <= i < |pieces| ==> r[i] == pieces[i].data
  {
    seq(|pieces|, i requires 0 <= i < |pieces| => pieces[i].data)
  }

  lemma DatasSnoc(pieces: seq<Piece>, p: Piece)
    ensures Datas(pieces + [p]) == Datas(pieces) + [p.data]
  {
  }

  /** A piece carrying timestamps is followed only by pieces carrying the same ones, which are the decoder's current ones. */
  ghost predicate TimestampsStable(pieces: seq<Piece>, current: Option<Timestamps>)
  {
    && (forall k :: 0 <= k < |pieces| && pieces[k].timestamps.Some? ==> pieces[k].timestamps == current)
    && (forall k, j :: 0 <= k <= j < |pieces| && pieces[k].timestamps.Some? ==> pieces[j].timestamps == pieces[k].timestamps)
  }

  /** A stable list stays stable when the decoder's timestamps appear, and when a piece carrying the current ones is added. */
  lemma StableSnoc(pieces: seq<Piece>, ts: Option<Timestamps>, p: Piece)
    requires TimestampsStable(pieces, ts) && p.timestamps == ts
    ensures TimestampsStable(pieces + [p], ts)
  {
    var q := pieces + [p];
    forall k, j | 0 <= k <= j < |q| && q[k].timestamps.Some?
      ensures q[j].timestamps == q[k].timestamps
    {
      if j < |pieces| {
        assert q[k] == pieces[k] && q[j] == pieces[j];
      } else if k < |pieces| {
        assert q[k] == pieces[k];
      }
    }
  }

  lemma StableAppear(pieces: seq<Piece>, ts: Option<Timestamps>, current: Option<Timestamps>)
    requires TimestampsStable(pieces, ts) && (ts.Some? ==> current == ts)
    ensures TimestampsStable(pieces, current)
  {
  }

  /** A decoder just after `reset()` with no timestamps processed. */
  predicate Fresh(s: W.DecoderState)
  {
    s.chunks == [] && s.headerBuffer == [] && s.timeStampsBuffer == [] && !s.allTimestampsProcessed
  }

  /**
   * Keep-header or ignore-header timestamp mode: the audio contributed by the bytes up to
   * the fragment with which the timing block parses, i.e. what follows the block, behind
   * the stream's 36-byte header in keep-header mode.
   */
  function AudioAfterTimestamps(first: seq<Byte>, ignoreWavHeader: bool): seq<Byte>
    requires Parse(first).Extracted?
  {
    var offset := Parse(first).offset;
    if ignoreWavHeader then SliceFrom(first, offset)
    else first[..W.STREAMING_WAV_HEADER_BUFFER_LEN] + SliceFrom(first, offset)
  }

  /**
   * The number of fragments after which the timing block parses for the first time, if
   * it ever does: until it succeeds, the decoder parses everything received so far after
   * every fragment.
   */
  function FirstParsed(fragments: seq<seq<Byte>>): (r: Option<nat>)
    ensures r.Some? ==> 0 < r.value <= |fragments| && Parse(Flatten(fragments[..r.value])).Extracted?
    decreases |fragments|
  {
    if fragments == [] then None
    else
      var init := fragments[..|fragments| - 1];
      match FirstParsed(init)
      case Some(k) => assert fragments[..k] == init[..k]; Some(k)
      case None =>
        if Parse(Flatten(fragments)).Extracted? then assert fragments[..|fragments|] == fragments; Some(|fragments|)
        else None
  }

  /** `FirstParsed` is the first such prefix, and `None` means that no prefix parses. */
  lemma {:induction false} FirstParsedIsFirst(fragments: seq<seq<Byte>>)
    ensures match FirstParsed(fragments)
      case Some(k) => forall j :: 0 <= j < k ==> !Parse(Flatten(fragments[..j])).Extracted?
      case None => forall j :: 0 <= j <= |fragments| ==> !Parse(Flatten(fragments[..j])).Extracted?
    decreases |fragments|
  {
    if fragments == [] {
      assert fragments[..0] == [];
      ShortBufferThrows([]);
    } else {
      var init := fragments[..|fragments| - 1];
      FirstParsedIsFirst(init);
      forall j | 0 <= j < |fragments|
        ensures fragments[..j] == init[..j]
      {
      }
      assert fragments[..|fragments|] == fragments;
    }
  }

  /** The timing block parses with the first fragment exactly when that fragment carries it whole. */
  lemma FirstParsedOne(fragments: seq<seq<Byte>>)
    requires |fragments| > 0
    ensures Flatten(fragments[..1]) == fragments[0]
    ensures FirstParsed(fragments) == Some(1) <==> Parse(fragments[0]).Extracted?
  {
    assert fragments[..1] == [] + [fragments[0]];
    FlattenSnoc([], fragments[0]);
    FirstParsedIsFirst(fragments);
  }

  /** The timestamps of the prefix that parses first, if any. */
  function FirstTimestamps(fragments: seq<seq<Byte>>): Option<Timestamps>
  {
    match FirstParsed(fragments)
    case Some(k) => Some(Parse(Flatten(fragments[..k])).timestamps)
    case None => None
  }

  /** One more fragment: a parsed prefix stays the first, and otherwise the whole prefix is parsed. */
  lemma FirstParsedSnoc(fragments: seq<seq<Byte>>, chunk: seq<Byte>)
    ensures Flatten(fragments + [chunk]) == Flatten(fragments) + chunk
    ensures FirstParsed(fragments + [chunk]) ==
      if FirstParsed(fragments).Some? then FirstParsed(fragments)
      else if Parse(Flatten(fragments) + chunk).Extracted? then Some(|fragments| + 1)
      else None
  {
    FlattenSnoc(fragments, chunk);
    assert (fragments + [chunk])[..|fragments|] == fragments;
  }

  /** The first `k` of the fragments and the rest, one fragment later. */
  lemma PrefixSnoc(fragments: seq<seq<Byte>>, chunk: seq<Byte>, k: nat)
    requires k <= |fragments|
    ensures (fragments + [chunk])[..k] == fragments[..k]
    ensures (fragments + [chunk])[k..] == fragments[k..] + [chunk]
    ensures (fragments + [chunk])[..|fragments| + 1] == fragments + [chunk]
  {
  }

  /** The timestamps of a parsed prefix stay those reported. */
  lemma FirstTimestampsSnoc(fragments: seq<seq<Byte>>, chunk: seq<Byte>)
    requires FirstParsed(fragments).Some?
    ensures FirstTimestamps(fragments + [chunk]) == FirstTimestamps(fragments)
  {
    FirstParsedSnoc(fragments, chunk);
    PrefixSnoc(fragments, chunk, FirstParsed(fragments).value);
  }

  /** How many prefixes of the fragments the parser is run on: up to the first that parses, or all of them. */
  function ParseBound(fragments: seq<seq<Byte>>): (r: nat)
    ensures r <= |fragments|
  {
    match FirstParsed(fragments)
    case Some(k) => k
    case None => |fragments|
  }

  /** The parser throws on some prefix of the fragments before any prefix parses. */
  predicate ThrowsBeforeParse(fragments: seq<seq<Byte>>)
    decreases |fragments|
  {
    && fragments != []
    && var init := fragments[..|fragments| - 1];
       ThrowsBeforeParse(init) || (FirstParsed(init).None? && Parse(Flatten(fragments)).Threw?)
  }

  /** `ThrowsBeforeParse` holds exactly when one of the prefixes the parser is run on makes it throw. */
  lemma ThrowsBeforeParseIff(fragments: seq<seq<Byte>>)
    ensures ThrowsBeforeParse(fragments) <==>
      exists j :: 0 < j <= ParseBound(fragments) && Parse(Flatten(fragments[..j])).Threw?
  {
    if ThrowsBeforeParse(fragments) {
      var j := ThrowingPrefix(fragments);
    }
    if exists j :: 0 < j <= ParseBound(fragments) && Parse(Flatten(fragments[..j])).Threw? {
      var j :| 0 < j <= ParseBound(fragments) && Parse(Flatten(fragments[..j])).Threw?;
      PrefixThrows(fragments, j);
    }
  }

  /** The prefix on which the parser throws. */
  lemma {:induction false} ThrowingPrefix(fragments: seq<seq<Byte>>) returns (j: nat)
    requires ThrowsBeforeParse(fragments)
    ensures 0 < j <= ParseBound(fragments) && Parse(Flatten(fragments[..j])).Threw?
    decreases |fragments|
  {
    var n := |fragments|;
    var init := fragments[..n - 1];
    ParseBoundSnoc(fragments);
    if ThrowsBeforeParse(init) {
      j := ThrowingPrefix(init);
      assert fragments[..j] == init[..j];
    } else {
      j := n;
      assert fragments[..n] == fragments;
    }
  }

  /** A prefix within the bound on which the parser throws. */
  lemma PrefixThrows(fragments: seq<seq<Byte>>, j: nat)
    requires 0 < j <= ParseBound(fragments) && Parse(Flatten(fragments[..j])).Threw?
    ensures ThrowsBeforeParse(fragments)
  {
    LastPrefixThrows(fragments[..j], fragments[..j - 1]) by {
      FirstParsedPrefix(fragments, j - 1);
      assert fragments[..j][..j - 1] == fragments[..j - 1];
    }
    ThrowsPrefix(fragments, j);
  }

  /** The parser throwing on the whole response, before anything parsed. */
  lemma LastPrefixThrows(fragments: seq<seq<Byte>>, init: seq<seq<Byte>>)
    requires fragments != [] && init == fragments[..|fragments| - 1]
    requires FirstParsed(init).None? && Parse(Flatten(fragments)).Threw?
    ensures ThrowsBeforeParse(fragments)
  {
  }

  /** A prefix of the fragments has parsed exactly when the whole response had parsed within it. */
  lemma {:induction false} FirstParsedPrefix(fragments: seq<seq<Byte>>, i: nat)
    requires i <= |fragments|
    ensures FirstParsed(fragments[..i]) ==
      if FirstParsed(fragments).Some? && FirstParsed(fragments).value <= i then FirstParsed(fragments) else None
    decreases |fragments|
  {
    if i == |fragments| {
      assert fragments[..i] == fragments;
    } else {
      var init := fragments[..|fragments| - 1];
      assert fragments[..i] == init[..i];
      FirstParsedPrefix(init, i);
    }
  }

  /** `ThrowsBeforeParse` one fragment later. */
  lemma ThrowsSnoc(fragments: seq<seq<Byte>>)
    requires fragments != []
    ensures var init := fragments[..|fragments| - 1];
      ThrowsBeforeParse(fragments) == (ThrowsBeforeParse(init) || (FirstParsed(init).None? && Parse(Flatten(fragments)).Threw?))
  {
  }

  /** One fragment more: the bound grows with it until a prefix parses. */
  lemma ParseBoundSnoc(fragments: seq<seq<Byte>>)
    requires fragments != []
    ensures var init := fragments[..|fragments| - 1];
      ParseBound(fragments) == if FirstParsed(init).Some? then ParseBound(init) else |fragments|
  {
  }

  /** A prefix that throws makes the whole response throw. */
  lemma {:induction false} ThrowsPrefix(fragments: seq<seq<Byte>>, i: nat)
    requires i <= |fragments| && ThrowsBeforeParse(fragments[..i])
    ensures ThrowsBeforeParse(fragments)
    decreases |fragments|
  {
    if i < |fragments| {
      var init := fragments[..|fragments| - 1];
      assert fragments[..i] == init[..i];
      ThrowsPrefix(init, i);
    } else {
      assert fragments[..i] == fragments;
    }
  }

  /** A first fragment that carries the whole timing block never lets the parser throw. */
  lemma ThrowsNotFirst(fragments: seq<seq<Byte>>)
    requires ThrowsBeforeParse(fragments)
    ensures |fragments| > 0 && !Parse(fragments[0]).Extracted?
  {
    var j := ThrowingPrefix(fragments);
    FirstParsedOne(fragments);
  }

  /**
   * With timestamps, `decodeChunk` of the next fragment throws exactly when the parser,
   * not having parsed the block yet, throws on everything received with it.
   */
  lemma ThrowsDecode(s: W.DecoderState, fragments: seq<seq<Byte>>, chunk: seq<Byte>, emitted: seq<Byte>)
    requires W.ValidState(s) && Progress(s, fragments, emitted) && s.processTimeStamps
    ensures ThrowsBeforeParse(fragments + [chunk]) <==> ThrowsBeforeParse(fragments) || W.Decode(s, chunk).outcome.Fail?
  {
    W.DecodeFailsOnlyInParser(s, chunk);
    FlattenSnoc(fragments, chunk);
    assert (fragments + [chunk])[..|fragments|] == fragments;
    ThrowsSnoc(fragments + [chunk]);
  }

  /** A first fragment shorter than the parser's fixed header makes the response throw. */
  lemma ShortFirstFragmentThrows(fragments: seq<seq<Byte>>)
    requires |fragments| > 0 && |fragments[0]| < SAMPLE_RATE_OFFSET + 4
    ensures ThrowsBeforeParse(fragments)
  {
    FirstParsedOne(fragments);
    ShortBufferThrows(fragments[0]);
    assert fragments[..1][..0] == [];
    ThrowsPrefix(fragments, 1);
  }

  /**
   * A buffer holds every byte that can be pending before the timing block parses: the
   * 36-byte header in keep-header mode, and in ignore-header mode the up to 39 bytes
   * that are not yet known not to start a `cue ` chunk.
   */
  predicate Settled(bufferSize: int, ignoreWavHeader: bool)
  {
    if ignoreWavHeader then bufferSize >= CHUNK_TAG_OFFSET + 4 else bufferSize > W.STREAMING_WAV_HEADER_BUFFER_LEN
  }

  /** The stream's 36-byte header, or what has arrived of it. */
  function HeaderPart(fed: seq<Byte>): (r: seq<Byte>)
    ensures |r| <= W.STREAMING_WAV_HEADER_BUFFER_LEN && r <= fed
    ensures |fed| < W.STREAMING_WAV_HEADER_BUFFER_LEN ==> r == fed
  {
    if |fed| >= W.STREAMING_WAV_HEADER_BUFFER_LEN then fed[..W.STREAMING_WAV_HEADER_BUFFER_LEN] else fed
  }

  /**
   * No buffer is handed out before the timestamps are known: the timing block parses
   * with the first fragment, or a buffer holds everything pending before it parses, or
   * it never parses (and then no piece carries timestamps).
   */
  predicate NothingBeforeTimestamps(s: W.DecoderState, fragments: seq<seq<Byte>>)
  {
    match FirstParsed(fragments)
    case Some(k) => k == 1 || Settled(s.bufferSize, s.ignoreWavHeader)
    case None => true
  }

  /** The cases in which the v2 generator's output is determined by the bytes alone. */
  predicate AudioKnown(s: W.DecoderState, fragments: seq<seq<Byte>>)
  {
    if s.processTimeStamps then
      match FirstParsed(fragments)
      case Some(k) => k == 1 || Settled(s.bufferSize, s.ignoreWavHeader)
      case None => (s.ignoreWavHeader && !HasCueTag(Flatten(fragments))) || Settled(s.bufferSize, s.ignoreWavHeader)
    else !s.ignoreWavHeader || s.bufferSize >= W.STREAMING_WAV_HEADER_BUFFER_LEN
  }

  /** The bytes the v2 generator hands out in those cases. */
  function StreamAudio(s: W.DecoderState, fragments: seq<seq<Byte>>): seq<Byte>
    requires AudioKnown(s, fragments)
  {
    var fed := Flatten(fragments);
    if s.processTimeStamps then
      match FirstParsed(fragments)
      case Some(k) => AudioAfterTimestamps(Flatten(fragments[..k]), s.ignoreWavHeader) + Flatten(fragments[k..])
      case None =>
        if !s.ignoreWavHeader then HeaderPart(fed)
        else if HasCueTag(fed) then []
        else fed
    else if s.ignoreWavHeader then StrippedAudio(fed, W.STREAMING_WAV_HEADER_BUFFER_LEN)
    else fed
  }

  /**
   * The v2 generator's loop invariant after the fragments `fragments` have been decoded
   * and `emitted` has been handed out: in the cases where the output is determined,
   * the handed-out and the pending bytes are the audio so far.
   */
  ghost predicate Progress(s: W.DecoderState, fragments: seq<seq<Byte>>, emitted: seq<Byte>)
  {
    && (fragments == [] ==> Fresh(s) && emitted == [])
    && if s.processTimeStamps then TimestampProgress(s, fragments, emitted)
       else if s.ignoreWavHeader then
         s.bufferSize >= W.STREAMING_WAV_HEADER_BUFFER_LEN ==>
           StripInvariant(Flatten(fragments), s.headerBuffer, s.chunks, emitted, W.STREAMING_WAV_HEADER_BUFFER_LEN)
       else emitted + s.chunks == Flatten(fragments)
  }

  /**
   * The invariant with timestamps. The reported timestamps are those of the first prefix
   * that parses. Before it parses, the parser's buffer is everything received; in
   * keep-header mode the pending bytes are the header, or what has arrived of it; in
   * ignore-header mode they are everything received while no `cue ` tag is seen and
   * nothing after one. Once it parses, the bytes are the audio after the block followed
   * by the later fragments.
   */
  ghost predicate TimestampProgress(s: W.DecoderState, fragments: seq<seq<Byte>>, emitted: seq<Byte>)
  {
    var fed := Flatten(fragments);
    && W.TimestampsOf(s) == FirstTimestamps(fragments)
    && match FirstParsed(fragments)
       case Some(k) =>
         (k == 1 || Settled(s.bufferSize, s.ignoreWavHeader)) ==>
           emitted + s.chunks == AudioAfterTimestamps(Flatten(fragments[..k]), s.ignoreWavHeader) + Flatten(fragments[k..])
       case None =>
         && s.timeStampsBuffer == fed
         && if s.ignoreWavHeader then
              && s.headerBuffer == []
              && (!HasCueTag(fed) ==> emitted + s.chunks == fed && (emitted != [] ==> |fed| >= s.bufferSize))
              && (HasCueTag(fed) ==> s.chunks == [] && (Settled(s.bufferSize, true) ==> emitted == []))
            else
              Settled(s.bufferSize, false) ==>
                && emitted == [] && s.chunks == HeaderPart(fed)
                && s.headerBuffer == (if |fed| >= W.STREAMING_WAV_HEADER_BUFFER_LEN then HeaderPart(fed) else [])
  }

  /** `decodeChunk` of the next fragment keeps the invariant when it does not throw. */
  lemma ProgressDecode(s: W.DecoderState, fragments: seq<seq<Byte>>, chunk: seq<Byte>, emitted: seq<Byte>)
    requires W.ValidState(s) && Progress(s, fragments, emitted)
    requires W.Decode(s, chunk).outcome.Pass?
    ensures Progress(W.Decode(s, chunk).state, fragments + [chunk], emitted)
  {
    if s.processTimeStamps {
      ProgressDecodeTimestamps(s, fragments, chunk, emitted);
    } else if s.ignoreWavHeader {
      ProgressDecodeStrip(s, fragments, chunk, emitted);
    } else {
      ProgressDecodePlain(s, fragments, chunk, emitted);
    }
  }

  lemma ProgressDecodePlain(s: W.DecoderState, fragments: seq<seq<Byte>>, chunk: seq<Byte>, emitted: seq<Byte>)
    requires W.ValidState(s) && Progress(s, fragments, emitted)
    requires !s.processTimeStamps && !s.ignoreWavHeader
    ensures Progress(W.Decode(s, chunk).state, fragments + [chunk], emitted)
  {
    W.DecodeAppends(s, chunk);
    FlattenSnoc(fragments, chunk);
    assert emitted + (s.chunks + chunk) == (emitted + s.chunks) + chunk;
  }

  /** Handed-out and pending bytes that are some audio then fragments stay so when a fragment is appended to both. */
  lemma AppendAudio(audio: seq<Byte>, fragments: seq<seq<Byte>>, chunk: seq<Byte>, emitted: seq<Byte>, pending: seq<Byte>)
    requires emitted + pending == audio + Flatten(fragments)
    ensures emitted + (pending + chunk) == audio + Flatten(fragments + [chunk])
  {
    FlattenSnoc(fragments, chunk);
    assert emitted + (pending + chunk) == (emitted + pending) + chunk;
    assert audio + (Flatten(fragments) + chunk) == (audio + Flatten(fragments)) + chunk;
  }

  lemma ProgressDecodeStrip(s: W.DecoderState, fragments: seq<seq<Byte>>, chunk: seq<Byte>, emitted: seq<Byte>)
    requires W.ValidState(s) && Progress(s, fragments, emitted)
    requires !s.processTimeStamps && s.ignoreWavHeader
    ensures Progress(W.Decode(s, chunk).state, fragments + [chunk], emitted)
  {
    FlattenSnoc(fragments, chunk);
    if s.bufferSize >= W.STREAMING_WAV_HEADER_BUFFER_LEN {
      W.DecodeStripsHeader(s, chunk, Flatten(fragments), emitted);
    }
  }

  lemma ProgressDecodeTimestamps(s: W.DecoderState, fragments: seq<seq<Byte>>, chunk: seq<Byte>, emitted: seq<Byte>)
    requires W.ValidState(s) && Progress(s, fragments, emitted)
    requires s.processTimeStamps && W.Decode(s, chunk).outcome.Pass?
    ensures Progress(W.Decode(s, chunk).state, fragments + [chunk], emitted)
  {
    if FirstParsed(fragments).Some? {
      ProgressDecodeParsed(s, fragments, chunk, emitted);
    } else if Parse(Flatten(fragments) + chunk).Extracted? {
      ProgressDecodeCompletes(s, fragments, chunk, emitted);
    } else {
      ProgressDecodeWaiting(s, fragments, chunk, emitted);
    }
  }

  /** Once the timestamps are known, a fragment is appended to pending. */
  lemma ProgressDecodeParsed(s: W.DecoderState, fragments: seq<seq<Byte>>, chunk: seq<Byte>, emitted: seq<Byte>)
    requires W.ValidState(s) && Progress(s, fragments, emitted)
    requires s.processTimeStamps && FirstParsed(fragments).Some?
    ensures Progress(W.Decode(s, chunk).state, fragments + [chunk], emitted)
  {
    var k := FirstParsed(fragments).value;
    FirstParsedSnoc(fragments, chunk);
    FirstTimestampsSnoc(fragments, chunk);
    PrefixSnoc(fragments, chunk, k);
    W.DecodeAppends(s, chunk);
    if k == 1 || Settled(s.bufferSize, s.ignoreWavHeader) {
      AppendAudio(AudioAfterTimestamps(Flatten(fragments[..k]), s.ignoreWavHeader), fragments[k..], chunk, emitted, s.chunks);
    }
  }

  /**
   * Before the fragment with which the timing block parses, nothing has been handed out
   * when it is the first fragment or when a buffer holds everything pending meanwhile.
   */
  lemma EmptyBeforeTimestamps(s: W.DecoderState, fragments: seq<seq<Byte>>, chunk: seq<Byte>, emitted: seq<Byte>)
    requires Progress(s, fragments, emitted) && s.processTimeStamps
    requires FirstParsed(fragments).None? && Parse(Flatten(fragments) + chunk).Extracted?
    requires fragments == [] || Settled(s.bufferSize, s.ignoreWavHeader)
    ensures emitted == []
  {
    var fed := Flatten(fragments);
    if fragments != [] && s.ignoreWavHeader && !HasCueTag(fed) && emitted != [] {
      ParsedPastCueTag(fed + chunk);
      CueTagSettled(fed, chunk);
      assert false;
    }
  }

  /** The fragment with which the timing block first parses: the timestamps are known, and the audio after the block is pending. */
  lemma ProgressDecodeCompletes(s: W.DecoderState, fragments: seq<seq<Byte>>, chunk: seq<Byte>, emitted: seq<Byte>)
    requires W.ValidState(s) && Progress(s, fragments, emitted)
    requires s.processTimeStamps && FirstParsed(fragments).None? && Parse(Flatten(fragments) + chunk).Extracted?
    ensures Progress(W.Decode(s, chunk).state, fragments + [chunk], emitted)
  {
    var more := fragments + [chunk];
    var d := W.Decode(s, chunk).state;
    FirstParsedSnoc(fragments, chunk);
    PrefixSnoc(fragments, chunk, 0);
    W.DecodeBeforeTimestamps(s, chunk);
    W.DecodeKeepsValid(s, chunk);
    assert W.TimestampsOf(d) == FirstTimestamps(more);
    assert Flatten(more[..|more|]) == Flatten(fragments) + chunk;
    assert Flatten(more[|more|..]) == [] by {
      assert more[|more|..] == [];
    }
    if fragments == [] || Settled(s.bufferSize, s.ignoreWavHeader) {
      CompletesAudio(s, fragments, chunk, emitted);
    }
    ParsedWithLast(d, more, emitted);
  }

  /** The invariant right after the fragment with which the timing block first parses. */
  lemma ParsedWithLast(d: W.DecoderState, more: seq<seq<Byte>>, emitted: seq<Byte>)
    requires more != [] && d.processTimeStamps && FirstParsed(more) == Some(|more|)
    requires W.TimestampsOf(d) == FirstTimestamps(more)
    requires |more| == 1 || Settled(d.bufferSize, d.ignoreWavHeader) ==>
      emitted + d.chunks == AudioAfterTimestamps(Flatten(more[..|more|]), d.ignoreWavHeader) + Flatten(more[|more|..])
    ensures Progress(d, more, emitted)
  {
  }

  /** What is pending after the fragment with which the timing block first parses: the audio after the block, nothing having been handed out. */
  lemma CompletesAudio(s: W.DecoderState, fragments: seq<seq<Byte>>, chunk: seq<Byte>, emitted: seq<Byte>)
    requires W.ValidState(s) && Progress(s, fragments, emitted)
    requires s.processTimeStamps && FirstParsed(fragments).None? && Parse(Flatten(fragments) + chunk).Extracted?
    requires fragments == [] || Settled(s.bufferSize, s.ignoreWavHeader)
    ensures emitted == []
    ensures W.Decode(s, chunk).state.chunks == AudioAfterTimestamps(Flatten(fragments) + chunk, s.ignoreWavHeader)
  {
    var fed := Flatten(fragments) + chunk;
    EmptyBeforeTimestamps(s, fragments, chunk, emitted);
    if s.ignoreWavHeader {
      W.IgnoreHeaderWithTimestamps(s, chunk);
    } else if |s.headerBuffer| == W.STREAMING_WAV_HEADER_BUFFER_LEN {
      W.KeepHeaderWithTimestamps(s, chunk);
      ExtractedShape(fed);
      assert s.headerBuffer == fed[..W.STREAMING_WAV_HEADER_BUFFER_LEN];
    } else {
      W.KeepHeaderBeforeHeader(s, chunk);
    }
  }

  /** A fragment after which the timing block still does not parse. */
  lemma ProgressDecodeWaiting(s: W.DecoderState, fragments: seq<seq<Byte>>, chunk: seq<Byte>, emitted: seq<Byte>)
    requires W.ValidState(s) && Progress(s, fragments, emitted)
    requires s.processTimeStamps && FirstParsed(fragments).None? && !Parse(Flatten(fragments) + chunk).Extracted?
    requires W.Decode(s, chunk).outcome.Pass?
    ensures Progress(W.Decode(s, chunk).state, fragments + [chunk], emitted)
  {
    FirstParsedSnoc(fragments, chunk);
    W.DecodeBeforeTimestamps(s, chunk);
    if s.ignoreWavHeader {
      WaitingIgnoreHeader(s, fragments, chunk, emitted);
    } else if Settled(s.bufferSize, false) {
      WaitingKeepHeader(s, fragments, chunk, emitted);
    }
  }

  /** Ignore-header mode, the timing block not parsing: the bytes stay pending while no `cue ` tag is seen, and are dropped after one. */
  lemma WaitingIgnoreHeader(s: W.DecoderState, fragments: seq<seq<Byte>>, chunk: seq<Byte>, emitted: seq<Byte>)
    requires W.ValidState(s) && Progress(s, fragments, emitted)
    requires s.processTimeStamps && s.ignoreWavHeader
    requires FirstParsed(fragments).None? && !Parse(Flatten(fragments) + chunk).Extracted?
    requires W.Decode(s, chunk).outcome.Pass?
    ensures var d := W.Decode(s, chunk).state;
      && d.headerBuffer == []
      && (!HasCueTag(Flatten(fragments) + chunk) ==>
            emitted + d.chunks == Flatten(fragments) + chunk && (emitted != [] ==> |Flatten(fragments) + chunk| >= s.bufferSize))
      && (HasCueTag(Flatten(fragments) + chunk) ==> d.chunks == [] && (Settled(s.bufferSize, true) ==> emitted == []))
  {
    var old_ := Flatten(fragments);
    var fed := old_ + chunk;
    W.IgnoreHeaderWithTimestamps(s, chunk);
    W.DecodeFailsOnlyInParser(s, chunk);
    NoCueChunkIff(fed);
    if HasCueTag(old_) {
      CueTagNeedsBytes(old_);
      CueTagSettled(old_, chunk);
    } else if emitted != [] && |old_| >= CHUNK_TAG_OFFSET + 4 {
      CueTagSettled(old_, chunk);
    }
    if !HasCueTag(fed) {
      assert emitted + (s.chunks + chunk) == (emitted + s.chunks) + chunk;
    }
  }

  /** Keep-header mode with a buffer longer than the header, the timing block not parsing: the pending bytes are the header or what has arrived of it. */
  lemma WaitingKeepHeader(s: W.DecoderState, fragments: seq<seq<Byte>>, chunk: seq<Byte>, emitted: seq<Byte>)
    requires W.ValidState(s) && Progress(s, fragments, emitted)
    requires s.processTimeStamps && !s.ignoreWavHeader && Settled(s.bufferSize, false)
    requires FirstParsed(fragments).None? && !Parse(Flatten(fragments) + chunk).Extracted?
    requires W.Decode(s, chunk).outcome.Pass?
    ensures var d, fed := W.Decode(s, chunk).state, Flatten(fragments) + chunk;
      && emitted == [] && d.chunks == HeaderPart(fed)
      && d.headerBuffer == (if |fed| >= W.STREAMING_WAV_HEADER_BUFFER_LEN then HeaderPart(fed) else [])
  {
    var fed := Flatten(fragments) + chunk;
    if |Flatten(fragments)| >= W.STREAMING_WAV_HEADER_BUFFER_LEN {
      W.KeepHeaderWithTimestamps(s, chunk);
      assert HeaderPart(Flatten(fragments)) == HeaderPart(fed);
    } else {
      W.KeepHeaderBeforeHeader(s, chunk);
    }
  }

  /** An ordinary flush keeps the invariant, the flushed bytes moving from pending to handed out. */
  lemma ProgressFlush(s: W.DecoderState, fragments: seq<seq<Byte>>, emitted: seq<Byte>)
    requires W.ValidState(s) && Progress(s, fragments, emitted)
    ensures var f := FlushSplit(s.chunks, s.bufferSize, false);
      Progress(s.(chunks := f.rest), fragments, if f.out.Some? then emitted + f.out.value else emitted)
  {
    var f := FlushSplit(s.chunks, s.bufferSize, false);
    if !s.processTimeStamps && s.ignoreWavHeader && s.bufferSize >= W.STREAMING_WAV_HEADER_BUFFER_LEN {
      StripFlushStep(Flatten(fragments), s.headerBuffer, s.chunks, emitted, W.STREAMING_WAV_HEADER_BUFFER_LEN, s.bufferSize);
    } else if f.out.Some? {
      ProgressTransfer(s, fragments, emitted, f.rest, f.out.value);
    } else {
      ProgressTransfer(s, fragments, emitted, f.rest, []);
      assert emitted + [] == emitted;
    }
  }

  /**
   * The invariant carries over a drain: bytes move from pending to handed out, and
   * nothing moves while less than a buffer is pending.
   */
  lemma ProgressTransfer(s: W.DecoderState, fragments: seq<seq<Byte>>, emitted: seq<Byte>, rest: seq<Byte>, out: seq<Byte>)
    requires W.ValidState(s) && Progress(s, fragments, emitted)
    requires out + rest == s.chunks
    requires |s.chunks| < s.bufferSize ==> out == []
    ensures Progress(s.(chunks := rest), fragments, emitted + out)
  {
    assert (emitted + out) + rest == emitted + s.chunks;
    if out == [] {
      assert rest == s.chunks && emitted + out == emitted;
    } else if s.processTimeStamps && FirstParsed(fragments).None? {
      TimestampTransfer(s, fragments, emitted, rest, out);
    }
  }

  /** The drain step before the timing block parses: only ignore-header mode without a `cue ` tag has bytes to move. */
  lemma TimestampTransfer(s: W.DecoderState, fragments: seq<seq<Byte>>, emitted: seq<Byte>, rest: seq<Byte>, out: seq<Byte>)
    requires W.ValidState(s) && Progress(s, fragments, emitted) && s.processTimeStamps && FirstParsed(fragments).None?
    requires out + rest == s.chunks && out != []
    requires |s.chunks| < s.bufferSize ==> out == []
    ensures Progress(s.(chunks := rest), fragments, emitted + out)
  {
    var fed := Flatten(fragments);
    assert (emitted + out) + rest == emitted + s.chunks;
    if s.ignoreWavHeader {
      assert !HasCueTag(fed);
      assert |fed| >= |s.chunks|;
    } else {
      assert !Settled(s.bufferSize, false);
    }
  }

  /** In the determined cases, the invariant means that handed-out and pending bytes are the stream's audio. */
  lemma ProgressAudio(s: W.DecoderState, fragments: seq<seq<Byte>>, emitted: seq<Byte>)
    requires Progress(s, fragments, emitted) && AudioKnown(s, fragments)
    ensures emitted + s.chunks == StreamAudio(s, fragments)
  {
    if !s.processTimeStamps && s.ignoreWavHeader {
      StripInvariantAudio(Flatten(fragments), s.headerBuffer, s.chunks, emitted, W.STREAMING_WAV_HEADER_BUFFER_LEN);
    }
  }

  /**
   * `stream` of the v2 client (clips.ts), for a decoder built with the given settings
   * and a response delivered as `fragments`.
   */
  method Stream(bufferSize: int, ignoreWavHeader: bool, getTimeStamps: bool, fragments: seq<seq<Byte>>)
    returns (pieces: seq<Piece>, end: StreamEnd)
    // the constructor's checks
    ensures end.BadConfig? <==> !ValidBufferSize(bufferSize)
    ensures end.BadConfig? ==> pieces == [] && CheckBufferSize(bufferSize) == Fail(end.configError)
    // every buffer is full but the last, which is not empty; after an exception all are full
    ensures forall i :: 0 <= i < |pieces| ==> 0 < |pieces[i].data| <= bufferSize
    ensures forall i :: 0 <= i < |pieces| - 1 ==> |pieces[i].data| == bufferSize
    ensures end.DecodeError? ==> forall i :: 0 <= i < |pieces| ==> |pieces[i].data| == bufferSize
    // timestamps only when requested, and never changing once present
    ensures !getTimeStamps ==> !end.DecodeError? && forall i :: 0 <= i < |pieces| ==> pieces[i].timestamps.None?
    ensures forall i, j :: 0 <= i <= j < |pieces| && pieces[i].timestamps.Some? ==> pieces[j].timestamps == pieces[i].timestamps
    // with timestamps, the stream ends with the parser's exception exactly when the parser throws on one of the
    // prefixes it is run on: every prefix until the first that parses, or all of them when none does
    ensures ValidBufferSize(bufferSize) && getTimeStamps ==>
      (end.DecodeError? <==> exists j :: 0 < j <= ParseBound(fragments) && Parse(Flatten(fragments[..j])).Threw?)
    // without timestamps: the audio, with or without its header, cut into buffers whatever the fragmentation
    ensures ValidBufferSize(bufferSize) && !getTimeStamps && !ignoreWavHeader ==>
      end == Drained && Datas(pieces) == Segment(Flatten(fragments), bufferSize)
    ensures ValidBufferSize(bufferSize) && !getTimeStamps && ignoreWavHeader && bufferSize >= W.STREAMING_WAV_HEADER_BUFFER_LEN ==>
      end == Drained && Datas(pieces) == Segment(StrippedAudio(Flatten(fragments), W.STREAMING_WAV_HEADER_BUFFER_LEN), bufferSize)
    // with timestamps carried whole by the first fragment: every piece has them, and the timing block is cut out
    ensures ValidBufferSize(bufferSize) && getTimeStamps && |fragments| > 0 && Parse(fragments[0]).Extracted? ==>
      && end == Drained
      && Datas(pieces) == Segment(AudioAfterTimestamps(fragments[0], ignoreWavHeader) + Flatten(fragments[1..]), bufferSize)
      && forall i :: 0 <= i < |pieces| ==> pieces[i].timestamps == Some(Parse(fragments[0]).timestamps)
    // with the timing block spread over the first k fragments, and a buffer holding everything pending until it
    // parses: the same, with the timestamps and the audio of the first k fragments taken together
    ensures ValidBufferSize(bufferSize) && getTimeStamps && end == Drained
            && FirstParsed(fragments).Some? && Settled(bufferSize, ignoreWavHeader) ==>
      var k := FirstParsed(fragments).value;
      && Datas(pieces) == Segment(AudioAfterTimestamps(Flatten(fragments[..k]), ignoreWavHeader) + Flatten(fragments[k..]), bufferSize)
      && forall i :: 0 <= i < |pieces| ==> pieces[i].timestamps == Some(Parse(Flatten(fragments[..k])).timestamps)
    // with a timing block that never parses: no timestamps; keep-header mode hands out the header alone,
    // ignore-header mode everything when no `cue ` chunk follows the header, and nothing when one does
    ensures ValidBufferSize(bufferSize) && getTimeStamps && end == Drained && FirstParsed(fragments).None? ==>
      && (forall i :: 0 <= i < |pieces| ==> pieces[i].timestamps.None?)
      && (!ignoreWavHeader && Settled(bufferSize, false) ==>
            Datas(pieces) == Segment(HeaderPart(Flatten(fragments)), bufferSize))
      && (ignoreWavHeader && !HasCueTag(Flatten(fragments)) ==> Datas(pieces) == Segment(Flatten(fragments), bufferSize))
      && (ignoreWavHeader && HasCueTag(Flatten(fragments)) && Settled(bufferSize, true) ==> pieces == [])
  {
    var created := W.StreamDecoder.Create(bufferSize, ignoreWavHeader, getTimeStamps);
    if created.Failure? {
      return [], BadConfig(created.error);
    }
    var d := created.value;
    d.Reset();
    ghost var s0 := d.State();
    pieces, end := Run(d, fragments);
    if getTimeStamps {
      ThrowsBeforeParseIff(fragments);
      TimestampCases(s0, fragments);
      if end == Drained && ignoreWavHeader && HasCueTag(Flatten(fragments)) && Settled(bufferSize, true) && FirstParsed(fragments).None? {
        assert |Datas(pieces)| == |Segment([], bufferSize)|;
      }
    }
  }

  /** How the determined cases and their audio read in each timestamp case. */
  lemma TimestampCases(s: W.DecoderState, fragments: seq<seq<Byte>>)
    requires s.processTimeStamps
    ensures |fragments| > 0 && Parse(fragments[0]).Extracted? ==>
      && AudioKnown(s, fragments) && NothingBeforeTimestamps(s, fragments)
      && StreamAudio(s, fragments) == AudioAfterTimestamps(fragments[0], s.ignoreWavHeader) + Flatten(fragments[1..])
      && FirstTimestamps(fragments) == Some(Parse(fragments[0]).timestamps)
    ensures FirstParsed(fragments).Some? && Settled(s.bufferSize, s.ignoreWavHeader) ==>
      var k := FirstParsed(fragments).value;
      && AudioKnown(s, fragments) && NothingBeforeTimestamps(s, fragments)
      && StreamAudio(s, fragments) == AudioAfterTimestamps(Flatten(fragments[..k]), s.ignoreWavHeader) + Flatten(fragments[k..])
      && FirstTimestamps(fragments) == Some(Parse(Flatten(fragments[..k])).timestamps)
    ensures FirstParsed(fragments).None? ==>
      var fed := Flatten(fragments);
      && NothingBeforeTimestamps(s, fragments) && FirstTimestamps(fragments) == None
      && (!s.ignoreWavHeader && Settled(s.bufferSize, false) ==> AudioKnown(s, fragments) && StreamAudio(s, fragments) == HeaderPart(fed))
      && (s.ignoreWavHeader && !HasCueTag(fed) ==> AudioKnown(s, fragments) && StreamAudio(s, fragments) == fed)
      && (s.ignoreWavHeader && HasCueTag(fed) && Settled(s.bufferSize, true) ==> AudioKnown(s, fragments) && StreamAudio(s, fragments) == [])
  {
    if |fragments| > 0 {
      FirstParsedOne(fragments);
    }
  }

  /** The body of `stream` once the decoder is built and reset. */
  method Run(d: W.StreamDecoder, fragments: seq<seq<Byte>>) returns (pieces: seq<Piece>, end: StreamEnd)
    requires d.Valid() && Fresh(d.State())
    modifies d
    ensures !end.BadConfig?
    ensures forall i :: 0 <= i < |pieces| ==> 0 < |pieces[i].data| <= old(d.bufferSize)
    ensures forall i :: 0 <= i < |pieces| - 1 ==> |pieces[i].data| == old(d.bufferSize)
    ensures end.DecodeError? ==> forall i :: 0 <= i < |pieces| ==> |pieces[i].data| == old(d.bufferSize)
    ensures !d.processTimeStamps ==> !end.DecodeError? && forall i :: 0 <= i < |pieces| ==> pieces[i].timestamps.None?
    ensures forall i, j :: 0 <= i <= j < |pieces| && pieces[i].timestamps.Some? ==> pieces[j].timestamps == pieces[i].timestamps
    ensures end.DecodeError? <==> d.processTimeStamps && ThrowsBeforeParse(fragments)
    ensures !d.processTimeStamps || (|fragments| > 0 && Parse(fragments[0]).Extracted?) ==> end == Drained
    ensures AudioKnown(old(d.State()), fragments) && end == Drained ==>
      Datas(pieces) == Segment(StreamAudio(old(d.State()), fragments), old(d.bufferSize))
    ensures d.processTimeStamps && end == Drained && NothingBeforeTimestamps(old(d.State()), fragments) ==>
      forall i :: 0 <= i < |pieces| ==> pieces[i].timestamps == FirstTimestamps(fragments)
  {
    ghost var s0 := d.State();
    ghost var emitted;
    var failure;
    pieces, failure, emitted := FeedAll(d, fragments);
    if failure.Some? {
      ThrowsNotFirst(fragments);
      AllFullPieces(pieces, d.bufferSize);
      return pieces, DecodeError(failure.value);
    }
    ghost var fed := d.State();
    FeedDone(fed, fragments, pieces, emitted);
    assert AudioKnown(fed, fragments) == AudioKnown(s0, fragments)
        && NothingBeforeTimestamps(fed, fragments) == NothingBeforeTimestamps(s0, fragments)
        && (AudioKnown(s0, fragments) ==> StreamAudio(fed, fragments) == StreamAudio(s0, fragments)) by {
      assert fed.bufferSize == s0.bufferSize && fed.ignoreWavHeader == s0.ignoreWavHeader && fed.processTimeStamps == s0.processTimeStamps;
    }
    pieces := Finish(d, fragments, pieces, emitted);
    end := Drained;
  }

  /** The end of `stream`: ordinary flushes until one returns nothing, then one forced flush. */
  method Finish(d: W.StreamDecoder, ghost fragments: seq<seq<Byte>>, fed: seq<Piece>, ghost emitted: seq<Byte>)
    returns (pieces: seq<Piece>)
    requires d.Valid() && Progress(d.State(), fragments, emitted) && emitted == Flatten(Datas(fed))
    requires AllFull(Datas(fed), d.bufferSize) && TimestampsStable(fed, W.TimestampsOf(d.State()))
    modifies d
    ensures forall i :: 0 <= i < |pieces| ==> 0 < |pieces[i].data| <= old(d.bufferSize)
    ensures forall i :: 0 <= i < |pieces| - 1 ==> |pieces[i].data| == old(d.bufferSize)
    ensures forall i, j :: 0 <= i <= j < |pieces| && pieces[i].timestamps.Some? ==> pieces[j].timestamps == pieces[i].timestamps
    ensures (forall k :: 0 <= k < |fed| ==> fed[k].timestamps == W.TimestampsOf(old(d.State()))) ==>
      forall i :: 0 <= i < |pieces| ==> pieces[i].timestamps == W.TimestampsOf(old(d.State()))
    ensures AudioKnown(old(d.State()), fragments) ==>
      Datas(pieces) == Segment(StreamAudio(old(d.State()), fragments), old(d.bufferSize))
  {
    ghost var s := d.State();
    var drained, out := DrainAll(d);
    ghost var rest := d.chunks;
    var buffer := d.FlushBuffer(true);
    pieces := fed + drained;
    if buffer.Some? {
      pieces := pieces + [Piece(buffer.value, d.GetTimestamps())];
    }
    assert pieces == Finished(fed + drained, rest, W.TimestampsOf(s));
    var all := forall k :: 0 <= k < |fed| ==> fed[k].timestamps == W.TimestampsOf(s);
    FinishShape(fed, drained, rest, s.bufferSize, W.TimestampsOf(s), W.TimestampsOf(s), all);
    FinishAudio(s, fragments, emitted, fed, drained, out, rest);
  }

  /** The pieces of a finished stream: those yielded so far, then the forced flush of what is left, if anything. */
  function Finished(pieces: seq<Piece>, rest: seq<Byte>, ts: Option<Timestamps>): seq<Piece>
  {
    if rest == [] then pieces else pieces + [Piece(rest, ts)]
  }

  lemma AllFullPieces(pieces: seq<Piece>, bufferSize: nat)
    requires AllFull(Datas(pieces), bufferSize) && bufferSize > 0
    ensures forall i :: 0 <= i < |pieces| ==> 0 < |pieces[i].data| <= bufferSize && |pieces[i].data| == bufferSize
  {
    forall i | 0 <= i < |pieces|
      ensures |pieces[i].data| == bufferSize
    {
      assert Datas(pieces)[i] == pieces[i].data;
    }
  }

  /** The sizes and timestamps of a finished stream's pieces. */
  lemma FinishShape(fed: seq<Piece>, drained: seq<Piece>, rest: seq<Byte>, bufferSize: nat,
                    current: Option<Timestamps>, want: Option<Timestamps>, all: bool)
    requires bufferSize > 0 && AllFull(Datas(fed), bufferSize) && AllFull(Datas(drained), bufferSize) && |rest| < bufferSize
    requires TimestampsStable(fed, current) && forall k :: 0 <= k < |drained| ==> drained[k].timestamps == current
    requires all ==> current == want && forall k :: 0 <= k < |fed| ==> fed[k].timestamps == want
    ensures var p := Finished(fed + drained, rest, current);
      && (forall i :: 0 <= i < |p| ==> 0 < |p[i].data| <= bufferSize)
      && (forall i :: 0 <= i < |p| - 1 ==> |p[i].data| == bufferSize)
      && (forall i, j :: 0 <= i <= j < |p| && p[i].timestamps.Some? ==> p[j].timestamps == p[i].timestamps)
      && (all ==> forall i :: 0 <= i < |p| ==> p[i].timestamps == want)
  {
    var q := fed + drained;
    DatasConcat(fed, drained);
    AllFullPieces(q, bufferSize);
    forall k | 0 <= k < |drained|
      ensures q[|fed| + k] == drained[k]
    {
    }
    StableExtend(fed, drained, current);
    if rest != [] {
      StableSnoc(q, current, Piece(rest, current));
    }
  }

  /** A stable list stays stable when pieces carrying the current timestamps are added. */
  lemma StableExtend(pieces: seq<Piece>, more: seq<Piece>, ts: Option<Timestamps>)
    requires TimestampsStable(pieces, ts) && forall k :: 0 <= k < |more| ==> more[k].timestamps == ts
    ensures TimestampsStable(pieces + more, ts)
    decreases |more|
  {
    if more != [] {
      var init := more[..|more| - 1];
      StableExtend(pieces, init, ts);
      assert pieces + more == (pieces + init) + [more[|more| - 1]];
      StableSnoc(pieces + init, ts, more[|more| - 1]);
    }
  }

  /** In the determined cases, a finished stream's pieces are the stream's audio cut into buffers. */
  lemma FinishAudio(s: W.DecoderState, fragments: seq<seq<Byte>>, emitted: seq<Byte>,
                    fed: seq<Piece>, drained: seq<Piece>, out: seq<Byte>, rest: seq<Byte>)
    requires W.ValidState(s) && Progress(s, fragments, emitted) && emitted == Flatten(Datas(fed))
    requires AllFull(Datas(fed), s.bufferSize) && AllFull(Datas(drained), s.bufferSize)
    requires out == Flatten(Datas(drained)) && out + rest == s.chunks && |rest| < s.bufferSize
    requires |s.chunks| < s.bufferSize ==> drained == []
    ensures AudioKnown(s, fragments) ==>
      Datas(Finished(fed + drained, rest, W.TimestampsOf(s))) == Segment(StreamAudio(s, fragments), s.bufferSize)
  {
    if AudioKnown(s, fragments) {
      var t := s.(chunks := rest);
      ProgressTransfer(s, fragments, emitted, rest, out);
      ProgressAudio(t, fragments, emitted + out);
      DatasConcat(fed, drained);
      FlattenConcat(Datas(fed), Datas(drained));
      AllFullConcat(Datas(fed), Datas(drained), s.bufferSize);
      DrainIsSegment(Datas(fed + drained), rest, StreamAudio(s, fragments), s.bufferSize);
      if rest != [] {
        DatasSnoc(fed + drained, Piece(rest, W.TimestampsOf(s)));
      }
    }
  }

  lemma DatasConcat(a: seq<Piece>, b: seq<Piece>)
    ensures Datas(a + b) == Datas(a) + Datas(b)
  {
  }

  /** What the fragment loop keeps after `i` fragments, `pieces` yielded and `emitted` their bytes. */
  ghost predicate FeedInv(s: W.DecoderState, fragments: seq<seq<Byte>>, i: nat, pieces: seq<Piece>, emitted: seq<Byte>)
  {
    && i <= |fragments|
    && AllFull(Datas(pieces), s.bufferSize)
    && TimestampsStable(pieces, W.TimestampsOf(s))
    && (!s.processTimeStamps ==> forall k :: 0 <= k < |pieces| ==> pieces[k].timestamps.None?)
    && emitted == Flatten(Datas(pieces))
    && Progress(s, fragments[..i], emitted)
    && (i == 0 ==> pieces == [])
    && (s.processTimeStamps && NothingBeforeTimestamps(s, fragments[..i]) ==>
          forall k :: 0 <= k < |pieces| ==> pieces[k].timestamps == FirstTimestamps(fragments[..i]))
    && (s.processTimeStamps ==> !ThrowsBeforeParse(fragments[..i]))
  }

  /** Full buffers that hold no bytes are no buffers. */
  lemma NoPieces(pieces: seq<Piece>, bufferSize: nat)
    requires AllFull(Datas(pieces), bufferSize) && bufferSize > 0 && Flatten(Datas(pieces)) == []
    ensures pieces == []
  {
  }

  /** The pieces after one ordinary flush of the state `s`. */
  function FlushPieces(s: W.DecoderState, pieces: seq<Piece>): seq<Piece>
  {
    var f := FlushSplit(s.chunks, s.bufferSize, false);
    if f.out.Some? then pieces + [Piece(f.out.value, W.TimestampsOf(s.(chunks := f.rest)))] else pieces
  }

  /** The bytes handed out after one ordinary flush of the state `s`. */
  function FlushEmitted(s: W.DecoderState, emitted: seq<Byte>): seq<Byte>
  {
    var f := FlushSplit(s.chunks, s.bufferSize, false);
    if f.out.Some? then emitted + f.out.value else emitted
  }

  /** The piece bookkeeping of one ordinary flush. */
  lemma FlushPiecesStep(s: W.DecoderState, pieces: seq<Piece>, emitted: seq<Byte>, ts: Option<Timestamps>, want: Option<Timestamps>, all: bool)
    requires AllFull(Datas(pieces), s.bufferSize) && emitted == Flatten(Datas(pieces))
    requires TimestampsStable(pieces, ts) && (ts.Some? ==> W.TimestampsOf(s) == ts)
    requires all ==> W.TimestampsOf(s) == want && forall k :: 0 <= k < |pieces| ==> pieces[k].timestamps == want
    ensures AllFull(Datas(FlushPieces(s, pieces)), s.bufferSize)
    ensures FlushEmitted(s, emitted) == Flatten(Datas(FlushPieces(s, pieces)))
    ensures TimestampsStable(FlushPieces(s, pieces), W.TimestampsOf(s))
    ensures all ==> forall k :: 0 <= k < |FlushPieces(s, pieces)| ==> FlushPieces(s, pieces)[k].timestamps == want
    ensures pieces == [] ==> |FlushPieces(s, pieces)| <= 1
  {
    var f := FlushSplit(s.chunks, s.bufferSize, false);
    StableAppear(pieces, ts, W.TimestampsOf(s));
    if f.out.Some? {
      var p := Piece(f.out.value, W.TimestampsOf(s.(chunks := f.rest)));
      assert p.timestamps == W.TimestampsOf(s);
      assert FlushPieces(s, pieces) == pieces + [p];
      DatasSnoc(pieces, p);
      FlattenSnoc(Datas(pieces), p.data);
      StableSnoc(pieces, W.TimestampsOf(s), p);
    }
  }

  /** One pass of the fragment loop that does not throw keeps its invariant. */
  lemma FeedStep(s: W.DecoderState, fragments: seq<seq<Byte>>, i: nat, pieces: seq<Piece>, emitted: seq<Byte>)
    requires W.ValidState(s) && FeedInv(s, fragments, i, pieces, emitted) && i < |fragments|
    requires W.Decode(s, fragments[i]).outcome.Pass?
    ensures var d := W.Decode(s, fragments[i]).state;
      && W.ValidState(d)
      && d.bufferSize == s.bufferSize && d.ignoreWavHeader == s.ignoreWavHeader && d.processTimeStamps == s.processTimeStamps
      && FeedInv(d.(chunks := FlushSplit(d.chunks, d.bufferSize, false).rest), fragments, i + 1,
                 FlushPieces(d, pieces), FlushEmitted(d, emitted))
  {
    var d := W.Decode(s, fragments[i]).state;
    var f := FlushSplit(d.chunks, d.bufferSize, false);
    var s' := d.(chunks := f.rest);
    W.DecodeKeepsValid(s, fragments[i]);
    W.DecodeKeepsTimestamps(s, fragments[i]);
    assert fragments[..i + 1] == fragments[..i] + [fragments[i]];
    ProgressDecode(s, fragments[..i], fragments[i], emitted);
    ProgressFlush(d, fragments[..i + 1], emitted);
    assert W.TimestampsOf(s') == W.TimestampsOf(d);
    var all := s.processTimeStamps && NothingBeforeTimestamps(s, fragments[..i + 1]);
    var want := FirstTimestamps(fragments[..i + 1]);
    if all {
      PiecesBeforeStep(s, fragments[..i], fragments[i], pieces, emitted);
    }
    FlushPiecesStep(d, pieces, emitted, W.TimestampsOf(s), want, all);
    if !s.processTimeStamps {
      FlushPiecesStep(d, pieces, emitted, W.TimestampsOf(s), None, true);
    } else {
      ThrowsDecode(s, fragments[..i], fragments[i], emitted);
    }
  }

  /** The pieces yielded before a fragment carry the timestamps known after it, when nothing is handed out before they are known. */
  lemma PiecesBeforeStep(s: W.DecoderState, fragments: seq<seq<Byte>>, chunk: seq<Byte>, pieces: seq<Piece>, emitted: seq<Byte>)
    requires W.ValidState(s) && Progress(s, fragments, emitted) && s.processTimeStamps
    requires AllFull(Datas(pieces), s.bufferSize) && emitted == Flatten(Datas(pieces))
    requires TimestampsStable(pieces, W.TimestampsOf(s))
    requires NothingBeforeTimestamps(s, fragments) ==> forall k :: 0 <= k < |pieces| ==> pieces[k].timestamps == FirstTimestamps(fragments)
    requires NothingBeforeTimestamps(s, fragments + [chunk])
    ensures forall k :: 0 <= k < |pieces| ==> pieces[k].timestamps == FirstTimestamps(fragments + [chunk])
  {
    FirstParsedSnoc(fragments, chunk);
    if FirstParsed(fragments).Some? {
      FirstTimestampsSnoc(fragments, chunk);
    } else if FirstParsed(fragments + [chunk]).Some? {
      EmptyBeforeTimestamps(s, fragments, chunk, emitted);
      NoPieces(pieces, s.bufferSize);
    } else {
      assert W.TimestampsOf(s) == None;
    }
  }

  /** When the parser throws in the fragment loop, timestamps were requested and the parser threw before the block parsed. */
  lemma FeedFail(s: W.DecoderState, fragments: seq<seq<Byte>>, i: nat, pieces: seq<Piece>, emitted: seq<Byte>)
    requires W.ValidState(s) && i < |fragments| && Progress(s, fragments[..i], emitted)
    requires TimestampsStable(pieces, W.TimestampsOf(s))
    requires W.Decode(s, fragments[i]).outcome.Fail?
    ensures s.processTimeStamps
    ensures TimestampsStable(pieces, W.TimestampsOf(W.Decode(s, fragments[i]).state))
    ensures ThrowsBeforeParse(fragments[..i + 1])
  {
    W.DecodeFailsOnlyInParser(s, fragments[i]);
    W.DecodeKeepsTimestamps(s, fragments[i]);
    assert fragments[..i + 1] == fragments[..i] + [fragments[i]];
    ThrowsDecode(s, fragments[..i], fragments[i], emitted);
  }

  /** What the fragment loop has established once every fragment is decoded. */
  lemma FeedDone(s: W.DecoderState, fragments: seq<seq<Byte>>, pieces: seq<Piece>, emitted: seq<Byte>)
    requires FeedInv(s, fragments, |fragments|, pieces, emitted)
    ensures AllFull(Datas(pieces), s.bufferSize) && TimestampsStable(pieces, W.TimestampsOf(s))
    ensures emitted == Flatten(Datas(pieces)) && Progress(s, fragments, emitted)
    ensures !s.processTimeStamps ==> forall k :: 0 <= k < |pieces| ==> pieces[k].timestamps == W.TimestampsOf(s)
    ensures s.processTimeStamps && NothingBeforeTimestamps(s, fragments) ==>
      W.TimestampsOf(s) == FirstTimestamps(fragments)
      && forall k :: 0 <= k < |pieces| ==> pieces[k].timestamps == W.TimestampsOf(s)
    ensures s.processTimeStamps ==> !ThrowsBeforeParse(fragments)
  {
    assert fragments[..|fragments|] == fragments;
  }

  /** One pass of the fragment loop: `decodeChunk`, then, unless it threw, one ordinary flush. */
  method FeedOne(d: W.StreamDecoder, ghost st: W.DecoderState, fragments: seq<seq<Byte>>, i: nat, pieces: seq<Piece>, ghost emitted: seq<Byte>)
    returns (next: seq<Piece>, failure: Option<ParseError>, ghost emittedNext: seq<Byte>, ghost stNext: W.DecoderState)
    requires d.Valid() && d.State() == st && FeedInv(st, fragments, i, pieces, emitted) && i < |fragments|
    modifies d
    ensures d.Valid() && d.State() == stNext
    ensures stNext.bufferSize == st.bufferSize && stNext.ignoreWavHeader == st.ignoreWavHeader
    ensures failure.None? ==> FeedInv(stNext, fragments, i + 1, next, emittedNext)
    ensures failure.Some? ==> && st.processTimeStamps && TimestampsStable(pieces, W.TimestampsOf(stNext))
                              && ThrowsBeforeParse(fragments[..i + 1])
  {
    var r := d.DecodeChunk(fragments[i]);
    if r.Fail? {
      FeedFail(st, fragments, i, pieces, emitted);
      return pieces, Some(r.error), emitted, d.State();
    }
    FeedStep(st, fragments, i, pieces, emitted);
    ghost var decoded := W.Decode(st, fragments[i]).state;
    var buffer := d.FlushBuffer(false);
    next, emittedNext := pieces, emitted;
    if buffer.Some? {
      next := next + [Piece(buffer.value, d.GetTimestamps())];
      emittedNext := emittedNext + buffer.value;
    }
    assert next == FlushPieces(decoded, pieces) && emittedNext == FlushEmitted(decoded, emitted);
    stNext := decoded.(chunks := FlushSplit(decoded.chunks, decoded.bufferSize, false).rest);
    failure := None;
  }

  /** The fragment loop of the v2 generator: decode, then one ordinary flush, until the response ends or the parser throws. */
  method FeedAll(d: W.StreamDecoder, fragments: seq<seq<Byte>>)
    returns (pieces: seq<Piece>, failure: Option<ParseError>, ghost emitted: seq<Byte>)
    requires d.Valid() && Fresh(d.State())
    modifies d
    ensures d.Valid()
    ensures d.bufferSize == old(d.bufferSize) && d.ignoreWavHeader == old(d.ignoreWavHeader)
    ensures failure.None? ==> FeedInv(d.State(), fragments, |fragments|, pieces, emitted)
    ensures failure.Some? ==> AllFull(Datas(pieces), d.bufferSize) && TimestampsStable(pieces, W.TimestampsOf(d.State()))
    ensures failure.Some? <==> d.processTimeStamps && ThrowsBeforeParse(fragments)
  {
    pieces, failure, emitted := [], None, [];
    var i := 0;
    ghost var st := d.State();
    assert fragments[..0] == [];
    while i < |fragments|
      invariant d.Valid() && d.State() == st
      invariant st.bufferSize == old(d.bufferSize) && st.ignoreWavHeader == old(d.ignoreWavHeader)
      invariant FeedInv(st, fragments, i, pieces, emitted)
      invariant failure.None?
    {
      var next;
      ghost var emittedNext, stNext;
      next, failure, emittedNext, stNext := FeedOne(d, st, fragments, i, pieces, emitted);
      if failure.Some? {
        ThrowsPrefix(fragments, i + 1);
        return;
      }
      pieces, emitted, st := next, emittedNext, stNext;
      i := i + 1;
    }
    FeedDone(st, fragments, pieces, emitted);
  }

  /** The bookkeeping of one ordinary flush that returned a buffer. */
  lemma DrainStep(pieces: seq<Piece>, p: Piece, out: seq<Byte>, pending: seq<Byte>, rest: seq<Byte>, original: seq<Byte>,
                  bufferSize: nat, ts: Option<Timestamps>)
    requires AllFull(Datas(pieces), bufferSize) && |p.data| == bufferSize
    requires forall k :: 0 <= k < |pieces| ==> pieces[k].timestamps == ts
    requires p.timestamps == ts
    requires out == Flatten(Datas(pieces)) && out + pending == original
    requires p.data + rest == pending
    ensures AllFull(Datas(pieces + [p]), bufferSize)
    ensures forall k :: 0 <= k < |pieces + [p]| ==> (pieces + [p])[k].timestamps == ts
    ensures out + p.data == Flatten(Datas(pieces + [p])) && (out + p.data) + rest == original
  {
    DatasSnoc(pieces, p);
    FlattenSnoc(Datas(pieces), p.data);
    assert (out + p.data) + rest == out + pending;
  }

  /** The drain loop of the v2 generator: ordinary flushes until one returns nothing. */
  method DrainAll(d: W.StreamDecoder) returns (pieces: seq<Piece>, ghost out: seq<Byte>)
    requires d.Valid()
    modifies d
    ensures d.Valid() && d.State() == old(d.State()).(chunks := d.chunks)
    ensures |d.chunks| < d.bufferSize
    ensures AllFull(Datas(pieces), d.bufferSize)
    ensures forall k :: 0 <= k < |pieces| ==> pieces[k].timestamps == W.TimestampsOf(d.State())
    ensures out == Flatten(Datas(pieces)) && out + d.chunks == old(d.chunks)
    ensures |old(d.chunks)| < d.bufferSize ==> pieces == []
  {
    pieces, out := [], [];
    ghost var ts := W.TimestampsOf(d.State());
    while true
      invariant d.Valid() && d.State() == old(d.State()).(chunks := d.chunks)
      invariant AllFull(Datas(pieces), d.bufferSize)
      invariant forall k :: 0 <= k < |pieces| ==> pieces[k].timestamps == ts
      invariant out == Flatten(Datas(pieces)) && out + d.chunks == old(d.chunks)
      invariant |old(d.chunks)| < d.bufferSize ==> pieces == []
      decreases |d.chunks|
    {
      ghost var pending := d.chunks;
      var buffer := d.FlushBuffer(false);
      if buffer.None? {
        break;
      }
      var p := Piece(buffer.value, d.GetTimestamps());
      DrainStep(pieces, p, out, pending, d.chunks, old(d.chunks), d.bufferSize, ts);
      pieces, out := pieces + [p], out + buffer.value;
    }
  }
}
