/**
 * The parser for the word/phoneme timing block a streamed WAV carries right after
 * its header: a `cue ` chunk (cue-point index -> sample frame) followed by a `LIST`
 * chunk of `ltxt` records (cue index, sample count, kind tag, NUL-terminated text).
 * All integers are little-endian. Times are kept as sample-frame pairs together with
 * the stream's sample rate; the source divides them by the rate in floating point.
 */
module WavTimestamps {
  import opened Bytes
  import opened Wrappers

  const SAMPLE_RATE_OFFSET: nat := 24     // after RIFF id, size, WAVE, "fmt ", fmt size, format code, channels
  const CHUNK_TAG_OFFSET: nat := 36       // end of the fixed header: the tag of the next chunk
  const CUE_POINTS_OFFSET: nat := 48      // after "cue ", its size and its cue-point count
  const CUE_POINT_SIZE: nat := 24
  const LTXT_HEADER_SIZE: nat := 28       // "ltxt", size, cue index, sample count, kind tag, 8 bytes of locale

  /** `grph` records carry words, `phon` records phonemes. */
  datatype TextKind = Grapheme | Phoneme

  /** A time pair in sample frames; `NoCuePoint` when the record names a cue index the cue chunk lacks (NaN in the source). */
  datatype Span = Frames(start: nat, end: nat) | NoCuePoint

  /** The structure `getTimestamps` returns: `graph_chars`/`graph_times` and `phon_chars`/`phon_times`, with the sample rate the times divide by. */
  datatype Timestamps = Timestamps(
    sampleRate: nat,
    graphChars: seq<seq<Byte>>,
    graphTimes: seq<Span>,
    phonChars: seq<seq<Byte>>,
    phonTimes: seq<Span>)

  /** What makes the parser throw: a read past the end of the buffer, or a record tag outside the mapping. */
  datatype ParseError = ReadOutOfRange | UnknownTextType

  /**
   * The parser's outcome: `{timestamps: null}` without an offset when the chunk after the
   * header is not `cue `; `{timestamps: null, offset}` when the buffer ends before a chunk
   * does; `{timestamps, offset}` on success, with the offset just past the last record;
   * or the exception it throws.
   */
  datatype Extraction =
    | NoCueChunk
    | Incomplete(offset: nat)
    | Extracted(timestamps: Timestamps, offset: nat)
    | Threw(error: ParseError)

  /** JavaScript's `trim()` removes these; after ASCII decoding no other whitespace can occur. */
  predicate IsJsSpace(c: char)
  {
    c == ' ' || '\t' <= c <= '\r'
  }

  function TrimStart(s: string): string
  {
    if s != [] && IsJsSpace(s[0]) then TrimStart(s[1..]) else s
  }

  function TrimEnd(s: string): string
  {
    if s != [] && IsJsSpace(s[|s| - 1]) then TrimEnd(s[..|s| - 1]) else s
  }

  function Trim(s: string): string
  {
    TrimEnd(TrimStart(s))
  }

  /** The `typeMapping` lookup: only the two four-letter tags are mapped. */
  function KindOf(tag: string): Option<TextKind>
  {
    if tag == "grph" then Some(Grapheme)
    else if tag == "phon" then Some(Phoneme)
    else None
  }

  /** A tag that already is one of the two four-letter kinds is left alone by `trim()`. */
  lemma TrimKeepsKindTags(tag: string)
    requires tag == "grph" || tag == "phon"
    ensures Trim(tag) == tag
  {
    assert !IsJsSpace(tag[0]) && !IsJsSpace(tag[3]);
  }

  /** `trim()` only removes characters: what it returns at full length is its argument. */
  lemma {:induction false} TrimShortens(s: string)
    ensures |TrimStart(s)| <= |s| && (|TrimStart(s)| == |s| ==> TrimStart(s) == s)
    ensures |TrimEnd(s)| <= |s| && (|TrimEnd(s)| == |s| ==> TrimEnd(s) == s)
    ensures |Trim(s)| <= |s| && (|Trim(s)| == |s| ==> Trim(s) == s)
    decreases |s|
  {
    if s != [] {
      TrimShortens(s[1..]);
      TrimShortens(s[..|s| - 1]);
    }
    TrimEndShortens(TrimStart(s));
  }

  lemma {:induction false} TrimEndShortens(s: string)
    ensures |TrimEnd(s)| <= |s| && (|TrimEnd(s)| == |s| ==> TrimEnd(s) == s)
    decreases |s|
  {
    if s != [] {
      TrimEndShortens(s[..|s| - 1]);
    }
  }

  /**
   * The kind of the `ltxt` record at `off`: the four bytes at `off + 16`, read as ASCII,
   * must spell `grph` or `phon`. Equal to the source's trimmed-and-mapped tag, see
   * `KindAtIsMappedTag`.
   */
  function KindAt(buf: seq<Byte>, off: nat): Option<TextKind>
  {
    if off + 20 <= |buf| then
      KindOf([(buf[off + 16] % 128) as char, (buf[off + 17] % 128) as char,
              (buf[off + 18] % 128) as char, (buf[off + 19] % 128) as char])
    else None
  }

  /** `typeMapping[buffer.toString('ascii', off + 16, off + 20).trim()]`, whitespace and short buffers included. */
  lemma KindAtIsMappedTag(buf: seq<Byte>, off: nat)
    ensures KindAt(buf, off) == KindOf(Trim(AsciiText(buf, off + 16, off + 20)))
  {
    var t := AsciiText(buf, off + 16, off + 20);
    TrimShortens(t);
    if off + 20 <= |buf| {
      assert t == [(buf[off + 16] % 128) as char, (buf[off + 17] % 128) as char,
                   (buf[off + 18] % 128) as char, (buf[off + 19] % 128) as char];
      if t == "grph" || t == "phon" {
        TrimKeepsKindTags(t);
      }
    } else {
      assert |t| < 4;
    }
  }

  /** One decoded `ltxt` record and the offset of the next one. */
  datatype Ltxt = Ltxt(kind: Option<TextKind>, text: seq<Byte>, span: Span, next: int)

  /**
   * The body of the record loop: reads the size, the cue index and the sample count
   * (these throw past the end, hence `None`), the kind tag and the text, which is
   * `size - 20` bytes with the final NUL left out, padded to an even length.
   */
  function ReadLtxt(buf: seq<Byte>, off: nat, cues: map<nat, nat>): (r: Option<Ltxt>)
    ensures r.Some? <==> off + 16 <= |buf|
    // progress, and word alignment of the next record
    ensures r.Some? ==> r.value.next >= off + 8 && (r.value.next - off) % 2 == 0
  {
    if off + 16 > |buf| then None
    else
      var subChunkSize := ReadU32LE(buf, off + 4);
      var cueIdx := ReadU32LE(buf, off + 8);
      var nSamples := ReadU32LE(buf, off + 12);
      var kind := KindAt(buf, off);
      var textStart := off + LTXT_HEADER_SIZE;
      var textLen: int := subChunkSize as int - 20;
      var text := SliceClamped(buf, textStart, textStart + textLen - 1);
      var span := if cueIdx in cues then Frames(cues[cueIdx], cues[cueIdx] + nSamples) else NoCuePoint;
      Some(Ltxt(kind, text, span, textStart + textLen + JsRem2(textLen)))
  }

  /**
   * What one record contributes: the text is the declared length minus the NUL
   * terminator when it lies inside the buffer, and the time pair starts at the cue
   * point and lasts the record's sample count.
   */
  lemma LtxtFields(buf: seq<Byte>, off: nat, cues: map<nat, nat>)
    requires off + 16 <= |buf|
    ensures var r := ReadLtxt(buf, off, cues).value;
      var size, cueIdx := ReadU32LE(buf, off + 4), ReadU32LE(buf, off + 8);
      && (size >= 21 && off + 7 + size <= |buf| ==>
            r.text == buf[off + LTXT_HEADER_SIZE .. off + 7 + size] && |r.text| == size - 21)
      && (cueIdx in cues ==> r.span == Frames(cues[cueIdx], cues[cueIdx] + ReadU32LE(buf, off + 12)))
      && (cueIdx !in cues ==> r.span == NoCuePoint)
      && r.kind == KindAt(buf, off)
  {
  }

  /** Appends one record's text and time pair to the lists of its kind. */
  function AddRecord(ts: Timestamps, kind: TextKind, text: seq<Byte>, span: Span): Timestamps
  {
    match kind
    case Grapheme => ts.(graphChars := ts.graphChars + [text], graphTimes := ts.graphTimes + [span])
    case Phoneme => ts.(phonChars := ts.phonChars + [text], phonTimes := ts.phonTimes + [span])
  }

  /** The cue-point loop: `count` records of 24 bytes, index at +0 and sample frame at +20; `None` if a read runs past the end. */
  function ReadCuePoints(buf: seq<Byte>, off: nat, count: nat, cues: map<nat, nat>): Option<map<nat, nat>>
    decreases count
  {
    if count == 0 then Some(cues)
    else if off + CUE_POINT_SIZE > |buf| then None
    else ReadCuePoints(buf, off + CUE_POINT_SIZE, count - 1, cues[ReadU32LE(buf, off) := ReadU32LE(buf, off + 20)])
  }

  /** The `ltxt` loop: records are read while the offset is before the end of the `LIST` chunk. */
  function ReadRecords(buf: seq<Byte>, off: nat, listEnd: nat, cues: map<nat, nat>, acc: Timestamps): Extraction
    decreases listEnd - off
  {
    if off >= listEnd then Extracted(acc, off)
    else match ReadLtxt(buf, off, cues)
      case None => Threw(ReadOutOfRange)
      case Some(rec) =>
        if rec.kind.None? then Threw(UnknownTextType)
        else ReadRecords(buf, rec.next, listEnd, cues, AddRecord(acc, rec.kind.value, rec.text, rec.span))
  }

  /** The tag test at offset 36. */
  predicate HasCueTag(buf: seq<Byte>)
  {
    AsciiText(buf, CHUNK_TAG_OFFSET, CHUNK_TAG_OFFSET + 4) == "cue "
  }

  /** `extractTimestampsFromBuffer` as a function of the accumulated bytes. */
  function Parse(buf: seq<Byte>): Extraction
  {
    if |buf| < SAMPLE_RATE_OFFSET + 4 then Threw(ReadOutOfRange)
    else if !HasCueTag(buf) then NoCueChunk
    else ParseCueChunk(buf, ReadU32LE(buf, SAMPLE_RATE_OFFSET))
  }

  /** From the `cue ` tag on: its size and cue-point count, the end-of-chunk check, and the cue points. */
  function ParseCueChunk(buf: seq<Byte>, sampleRate: nat): Extraction
  {
    if |buf| < CUE_POINTS_OFFSET then Threw(ReadOutOfRange)
    else
      var remSize := ReadU32LE(buf, 40);
      var nCuePoints := ReadU32LE(buf, 44);
      if CUE_POINTS_OFFSET + remSize - 4 > |buf| then Incomplete(CUE_POINTS_OFFSET)
      else match ReadCuePoints(buf, CUE_POINTS_OFFSET, nCuePoints, map[])
        case None => Threw(ReadOutOfRange)
        case Some(cues) => ParseListChunk(buf, CUE_POINTS_OFFSET + 24 * nCuePoints, cues, sampleRate)
  }

  /** From the `LIST` chunk at `listAt` on: its size, the end-of-chunk check, and the records. */
  function ParseListChunk(buf: seq<Byte>, listAt: nat, cues: map<nat, nat>, sampleRate: nat): Extraction
  {
    if listAt + 8 > |buf| then Threw(ReadOutOfRange)
    else
      var first := listAt + 12;
      var listEnd := first + ReadU32LE(buf, listAt + 4) - 4;
      if listEnd > |buf| then Incomplete(first)
      else ReadRecords(buf, first, listEnd, cues, Timestamps(sampleRate, [], [], [], []))
  }

  /**
   * The record loop ends in success or in an exception, never in one of the "not yet"
   * outcomes; on success every record has added one text and one time pair to the lists
   * of its kind, the sample rate is kept, and the offset has moved an even number of
   * bytes to at least the end of the `LIST` chunk.
   */
  lemma {:induction false} RecordsOutcome(buf: seq<Byte>, off: nat, listEnd: nat, cues: map<nat, nat>, acc: Timestamps)
    ensures var r := ReadRecords(buf, off, listEnd, cues, acc);
      && (r.Extracted? || r.Threw?)
      && (r.Extracted? ==>
            && r.timestamps.sampleRate == acc.sampleRate
            && |r.timestamps.graphChars| - |acc.graphChars| == |r.timestamps.graphTimes| - |acc.graphTimes| >= 0
            && |r.timestamps.phonChars| - |acc.phonChars| == |r.timestamps.phonTimes| - |acc.phonTimes| >= 0
            && acc.graphChars <= r.timestamps.graphChars && acc.phonChars <= r.timestamps.phonChars
            && r.offset >= off && r.offset >= listEnd && r.offset % 2 == off % 2)
    decreases listEnd - off
  {
    if off < listEnd {
      var rec := ReadLtxt(buf, off, cues);
      if rec.Some? && rec.value.kind.Some? {
        assert rec.value.next % 2 == off % 2;
        RecordsOutcome(buf, rec.value.next, listEnd, cues, AddRecord(acc, rec.value.kind.value, rec.value.text, rec.value.span));
      }
    }
  }

  /** A buffer too short for the sample rate makes the parser throw. */
  lemma ShortBufferThrows(buf: seq<Byte>)
    requires |buf| < SAMPLE_RATE_OFFSET + 4
    ensures Parse(buf) == Threw(ReadOutOfRange)
  {
  }

  /** The `LIST` stage: never "no cue chunk", and "incomplete" (at the first record) exactly when the chunk ends past the buffer. */
  lemma ListChunkOutcome(buf: seq<Byte>, listAt: nat, cues: map<nat, nat>, sampleRate: nat)
    ensures var r := ParseListChunk(buf, listAt, cues, sampleRate);
      && !r.NoCueChunk?
      && (r.Incomplete? <==> listAt + 8 <= |buf| && listAt + 12 + ReadU32LE(buf, listAt + 4) - 4 > |buf|)
      && (r.Incomplete? ==> r.offset == listAt + 12)
  {
    if listAt + 8 <= |buf| {
      var first := listAt + 12;
      var listEnd := first + ReadU32LE(buf, listAt + 4) - 4;
      if listEnd <= |buf| {
        RecordsOutcome(buf, first, listEnd, cues, Timestamps(sampleRate, [], [], [], []));
      }
    }
  }

  /** A successful `LIST` stage keeps the sample rate, pairs every text with a time, and ends at or past the chunk's end. */
  lemma ListChunkExtracted(buf: seq<Byte>, listAt: nat, cues: map<nat, nat>, sampleRate: nat)
    requires ParseListChunk(buf, listAt, cues, sampleRate).Extracted?
    ensures listAt + 8 <= |buf|
    ensures var r := ParseListChunk(buf, listAt, cues, sampleRate);
      && r.offset >= listAt + 12 && r.offset >= listAt + 12 + ReadU32LE(buf, listAt + 4) - 4
      && r.timestamps.sampleRate == sampleRate
      && |r.timestamps.graphChars| == |r.timestamps.graphTimes|
      && |r.timestamps.phonChars| == |r.timestamps.phonTimes|
  {
    var first := listAt + 12;
    var listEnd := first + ReadU32LE(buf, listAt + 4) - 4;
    RecordsOutcome(buf, first, listEnd, cues, Timestamps(sampleRate, [], [], [], []));
  }

  /** The `cue ` stage: never "no cue chunk"; "incomplete" at offset 48 exactly when the cue chunk ends past the buffer. */
  lemma CueChunkOutcome(buf: seq<Byte>, sampleRate: nat)
    requires |buf| >= CUE_POINTS_OFFSET
    ensures var r := ParseCueChunk(buf, sampleRate);
      && !r.NoCueChunk?
      && (r == Incomplete(CUE_POINTS_OFFSET) <==> CUE_POINTS_OFFSET + ReadU32LE(buf, 40) - 4 > |buf|)
      && (r.Extracted? ==>
            && CUE_POINTS_OFFSET + ReadU32LE(buf, 40) - 4 <= |buf|
            && r.timestamps.sampleRate == sampleRate
            && |r.timestamps.graphChars| == |r.timestamps.graphTimes|
            && |r.timestamps.phonChars| == |r.timestamps.phonTimes|)
    ensures var nCuePoints := ReadU32LE(buf, 44);
      var listAt := CUE_POINTS_OFFSET + 24 * nCuePoints;
      CUE_POINTS_OFFSET + ReadU32LE(buf, 40) - 4 <= |buf| && listAt + 8 <= |buf| &&
      ReadCuePoints(buf, CUE_POINTS_OFFSET, nCuePoints, map[]).Some? ==>
        (ParseCueChunk(buf, sampleRate) == Incomplete(listAt + 12) <==> listAt + 12 + ReadU32LE(buf, listAt + 4) - 4 > |buf|)
  {
    var r := ParseCueChunk(buf, sampleRate);
    var nCuePoints := ReadU32LE(buf, 44);
    if CUE_POINTS_OFFSET + ReadU32LE(buf, 40) - 4 > |buf| {
      assert r == Incomplete(CUE_POINTS_OFFSET);
    } else {
      var cues := ReadCuePoints(buf, CUE_POINTS_OFFSET, nCuePoints, map[]);
      if cues.None? {
        assert r == Threw(ReadOutOfRange);
      } else {
        var listAt := CUE_POINTS_OFFSET + 24 * nCuePoints;
        assert r == ParseListChunk(buf, listAt, cues.value, sampleRate);
        ListChunkOutcome(buf, listAt, cues.value, sampleRate);
        if r.Extracted? {
          ListChunkExtracted(buf, listAt, cues.value, sampleRate);
        }
      }
    }
  }

  /** The parser reports "no timestamps, no offset" exactly when the header is readable and the next tag is not `cue `. */
  lemma NoCueChunkIff(buf: seq<Byte>)
    ensures Parse(buf) == NoCueChunk <==> |buf| >= SAMPLE_RATE_OFFSET + 4 && !HasCueTag(buf)
  {
    if |buf| >= CUE_POINTS_OFFSET && HasCueTag(buf) {
      CueChunkOutcome(buf, ReadU32LE(buf, SAMPLE_RATE_OFFSET));
    }
  }

  /** A `cue ` tag in a buffer that stops before the cue-point count makes the parser throw. */
  lemma TruncatedCueChunkThrows(buf: seq<Byte>)
    requires SAMPLE_RATE_OFFSET + 4 <= |buf| < CUE_POINTS_OFFSET && HasCueTag(buf)
    ensures Parse(buf) == Threw(ReadOutOfRange)
  {
  }

  /** The end of the cue chunk (`48 + size - 4`) lies past the buffer exactly when the parser reports "incomplete" at offset 48. */
  lemma CueChunkIncompleteIff(buf: seq<Byte>)
    requires |buf| >= CUE_POINTS_OFFSET && HasCueTag(buf)
    ensures Parse(buf) == Incomplete(CUE_POINTS_OFFSET) <==> CUE_POINTS_OFFSET + ReadU32LE(buf, 40) - 4 > |buf|
  {
    CueChunkOutcome(buf, ReadU32LE(buf, SAMPLE_RATE_OFFSET));
  }

  /**
   * With the cue chunk in the buffer and its cue points readable, the end of the `LIST`
   * chunk lies past the buffer exactly when the parser reports "incomplete" at the
   * offset of the first `ltxt` record.
   */
  lemma ListChunkIncompleteIff(buf: seq<Byte>)
    requires |buf| >= CUE_POINTS_OFFSET && HasCueTag(buf)
    requires CUE_POINTS_OFFSET + ReadU32LE(buf, 40) - 4 <= |buf|
    requires ReadCuePoints(buf, CUE_POINTS_OFFSET, ReadU32LE(buf, 44), map[]).Some?
    requires CUE_POINTS_OFFSET + 24 * ReadU32LE(buf, 44) + 8 <= |buf|
    ensures var listAt := CUE_POINTS_OFFSET + 24 * ReadU32LE(buf, 44);
      Parse(buf) == Incomplete(listAt + 12) <==> listAt + 12 + ReadU32LE(buf, listAt + 4) - 4 > |buf|
  {
    var rate := ReadU32LE(buf, SAMPLE_RATE_OFFSET);
    assert Parse(buf) == ParseCueChunk(buf, rate);
    CueChunkOutcome(buf, rate);
  }

  /** A `cue ` tag needs the 40 bytes that hold it. */
  lemma CueTagNeedsBytes(buf: seq<Byte>)
    requires HasCueTag(buf)
    ensures |buf| >= CHUNK_TAG_OFFSET + 4
  {
    AsciiTextInRange(buf, CHUNK_TAG_OFFSET, "cue ");
  }

  /** Once the 40 bytes up to the end of the next chunk's tag have arrived, more bytes never change whether that chunk is `cue `. */
  lemma CueTagSettled(buf: seq<Byte>, more: seq<Byte>)
    requires |buf| >= CHUNK_TAG_OFFSET + 4
    ensures HasCueTag(buf + more) == HasCueTag(buf)
  {
    assert SliceClamped(buf + more, CHUNK_TAG_OFFSET, CHUNK_TAG_OFFSET + 4) == buf[CHUNK_TAG_OFFSET..CHUNK_TAG_OFFSET + 4];
  }

  /** The parser reports "incomplete" or succeeds only past a `cue ` tag and the cue-point count. */
  lemma ParsedPastCueTag(buf: seq<Byte>)
    requires Parse(buf).Incomplete? || Parse(buf).Extracted?
    ensures HasCueTag(buf) && |buf| >= CUE_POINTS_OFFSET
  {
  }

  /**
   * A successful parse found the `cue ` tag, the cue chunk lies inside the buffer, the
   * sample rate is the one at offset 24, and every text has its time pair.
   */
  lemma ExtractedShape(buf: seq<Byte>)
    requires Parse(buf).Extracted?
    ensures HasCueTag(buf) && |buf| >= CUE_POINTS_OFFSET
    ensures CUE_POINTS_OFFSET + ReadU32LE(buf, 40) - 4 <= |buf|
    ensures var ts := Parse(buf).timestamps;
      && ts.sampleRate == ReadU32LE(buf, SAMPLE_RATE_OFFSET)
      && |ts.graphChars| == |ts.graphTimes| && |ts.phonChars| == |ts.phonTimes|
  {
    CueChunkOutcome(buf, ReadU32LE(buf, SAMPLE_RATE_OFFSET));
  }

  /**
   * `extractTimestampsFromBuffer`: the walk over the header, the cue points and the
   * `ltxt` records with a moving offset, as in the source. The walk is split into
   * the methods below at the two chunk boundaries, and each loop is a method of its own.
   */
  method ExtractTimestampsFromBuffer(buffer: seq<Byte>) returns (r: Extraction)
    ensures r == Parse(buffer)
  {
    var offset: nat := 0;
    offset := offset + 4;   // RIFF id
    offset := offset + 4;   // remaining file size
    offset := offset + 14;  // WAVE, format chunk id, its size, compression code
    if offset + 6 > |buffer| {
      return Threw(ReadOutOfRange);
    }
    var nChannels := ReadU16LE(buffer, offset);
    var sampleRate := ReadU32LE(buffer, offset + 2);
    offset := offset + 14;  // channels, sample rate, byte rate, block align, bits per sample
    var chunkType := AsciiText(buffer, offset, offset + 4);
    offset := offset + 4;
    if chunkType != "cue " {
      return NoCueChunk;
    }
    r := ExtractFromCueChunk(buffer, sampleRate);
  }

  /** The `cue ` branch, from offset 40: the chunk's size and count, the end-of-chunk check, the cue points. */
  method ExtractFromCueChunk(buffer: seq<Byte>, sampleRate: nat) returns (r: Extraction)
    ensures r == ParseCueChunk(buffer, sampleRate)
  {
    var offset: nat := 40;
    if offset + 8 > |buffer| {
      return Threw(ReadOutOfRange);
    }
    var remSize := ReadU32LE(buffer, offset);
    var nCuePoints := ReadU32LE(buffer, offset + 4);
    offset := offset + 8;
    var endPoint := offset + remSize - 4;
    if endPoint > |buffer| {
      return Incomplete(offset);
    }
    var cuePoints := CollectCuePoints(buffer, nCuePoints);
    if cuePoints.None? {
      return Threw(ReadOutOfRange);
    }
    offset := offset + 24 * nCuePoints;
    r := ExtractFromListChunk(buffer, offset, cuePoints.value, sampleRate);
  }

  /** From the `LIST` chunk at `offset`: the tag itself is read but never compared; only its size matters. */
  method ExtractFromListChunk(buffer: seq<Byte>, offset: nat, cuePoints: map<nat, nat>, sampleRate: nat)
    returns (r: Extraction)
    ensures r == ParseListChunk(buffer, offset, cuePoints, sampleRate)
  {
    if offset + 8 > |buffer| {
      return Threw(ReadOutOfRange);
    }
    var remSize := ReadU32LE(buffer, offset + 4);
    var first := offset + 12;  // "LIST", its size, "adtl"
    var listEndPoint := first + remSize - 4;
    if listEndPoint > |buffer| {
      return Incomplete(first);
    }
    r := CollectRecords(buffer, first, listEndPoint, cuePoints, Timestamps(sampleRate, [], [], [], []));
  }

  /** The cue-point `for` loop of `extractTimestampsFromBuffer`; `None` where a read would throw. */
  method CollectCuePoints(buffer: seq<Byte>, nCuePoints: nat) returns (r: Option<map<nat, nat>>)
    ensures r == ReadCuePoints(buffer, CUE_POINTS_OFFSET, nCuePoints, map[])
  {
    var offset := CUE_POINTS_OFFSET;
    var cuePoints: map<nat, nat> := map[];
    var cp := 1;
    while cp <= nCuePoints
      invariant 1 <= cp <= nCuePoints + 1
      invariant offset == CUE_POINTS_OFFSET + 24 * (cp - 1)
      invariant ReadCuePoints(buffer, CUE_POINTS_OFFSET, nCuePoints, map[])
             == ReadCuePoints(buffer, offset, nCuePoints - (cp - 1), cuePoints)
    {
      if offset + CUE_POINT_SIZE > |buffer| {
        return None;
      }
      var idx := ReadU32LE(buffer, offset);
      var cuePoint := ReadU32LE(buffer, offset + 20);
      cuePoints := cuePoints[idx := cuePoint];
      offset := offset + CUE_POINT_SIZE;
      cp := cp + 1;
    }
    return Some(cuePoints);
  }

  /** The `ltxt` `while` loop of `extractTimestampsFromBuffer`, from offset `first` to `listEndPoint`. */
  method CollectRecords(buffer: seq<Byte>, first: nat, listEndPoint: nat, cuePoints: map<nat, nat>, init: Timestamps)
    returns (r: Extraction)
    ensures r == ReadRecords(buffer, first, listEndPoint, cuePoints, init)
  {
    var offset: nat := first;
    var timestamps := init;
    while offset < listEndPoint
      invariant ReadRecords(buffer, first, listEndPoint, cuePoints, init)
             == ReadRecords(buffer, offset, listEndPoint, cuePoints, timestamps)
      decreases listEndPoint - offset
    {
      var record := DecodeRecordAt(buffer, offset, cuePoints);
      if record.None? {
        return Threw(ReadOutOfRange);
      }
      if record.value.kind.None? {
        return Threw(UnknownTextType);
      }
      timestamps := AddRecord(timestamps, record.value.kind.value, record.value.text, record.value.span);
      offset := record.value.next;
    }
    return Extracted(timestamps, offset);
  }

  /** One turn of the record loop up to the push: the field reads, the text, and the advance of the offset. */
  method DecodeRecordAt(buffer: seq<Byte>, offset: nat, cuePoints: map<nat, nat>) returns (r: Option<Ltxt>)
    ensures r == ReadLtxt(buffer, offset, cuePoints)
  {
    if offset + 16 > |buffer| {
      return None;
    }
    var subChunkSize := ReadU32LE(buffer, offset + 4);
    var cueIdx := ReadU32LE(buffer, offset + 8);
    var nSamples := ReadU32LE(buffer, offset + 12);
    var charType := Trim(AsciiText(buffer, offset + 16, offset + 20));
    var at: int := offset + LTXT_HEADER_SIZE;
    var textLen: int := subChunkSize as int - 20;
    var text := SliceClamped(buffer, at, at + textLen - 1);
    at := at + textLen;
    at := at + JsRem2(textLen);
    var mappedType := KindOf(charType);
    KindAtIsMappedTag(buffer, offset);
    var span := if cueIdx in cuePoints then Frames(cuePoints[cueIdx], cuePoints[cueIdx] + nSamples) else NoCuePoint;
    return Some(Ltxt(mappedType, text, span, at));
  }
}
