/**
 * The re-segmentation logic both decoder versions share: buffer-size validation,
 * the fixed-size flush, the one-time header strip, and the shape of everything a
 * full drain hands out. The header length is a parameter (36 bytes in the
 * TypeScript decoder, 44 in the older JavaScript one), so the proofs below cover both.
 */
module Segmenter {
  import opened Bytes
  import opened Wrappers

  const DEFAULT_BUFFER_SIZE: nat := 4 * 1024

  /** The two `Error`s the constructor and `setBufferSize` throw. */
  datatype ConfigError = BufferSizeBelowMinimum | BufferSizeOdd

  predicate ValidBufferSize(size: int)
  {
    size >= 2 && size % 2 == 0
  }

  /** The check in the constructor and in `setBufferSize`: the minimum first, then parity. */
  function CheckBufferSize(size: int): (r: Outcome<ConfigError>)
    ensures r.Pass? <==> ValidBufferSize(size)
    ensures r == Fail(BufferSizeBelowMinimum) <==> size < 2
    ensures r == Fail(BufferSizeOdd) <==> size >= 2 && size % 2 == 1
  {
    if size < 2 then Fail(BufferSizeBelowMinimum)
    else if size % 2 != 0 then Fail(BufferSizeOdd)
    else Pass
  }

  /** What `flushBuffer` returns (`None` for `null`) and the pending bytes it leaves. */
  datatype Flushed = Flushed(out: Option<seq<Byte>>, rest: seq<Byte>)

  /** `flushBuffer(force)` on the concatenated pending bytes. */
  function FlushSplit(pending: seq<Byte>, bufferSize: nat, force: bool): (r: Flushed)
    // nothing is lost or duplicated
    ensures r.out.Some? ==> r.out.value + r.rest == pending
    ensures r.out.None? ==> r.rest == pending
    // a forced flush drains everything, or returns null when there is nothing
    ensures force && pending != [] ==> r.out == Some(pending) && r.rest == []
    ensures force && pending == [] && bufferSize > 0 ==> r.out.None?
    // an ordinary flush hands out exactly one buffer of the target size, or nothing
    ensures !force ==> (r.out.Some? <==> |pending| >= bufferSize)
    ensures !force && r.out.Some? ==> |r.out.value| == bufferSize
  {
    if force && |pending| > 0 then Flushed(Some(pending), [])
    else if |pending| >= bufferSize then Flushed(Some(pending[..bufferSize]), pending[bufferSize..])
    else Flushed(None, pending)
  }

  /** The pending bytes and captured header after a header strip. */
  datatype Stripped = Stripped(header: seq<Byte>, pending: seq<Byte>)

  /**
   * The header strip of `decodeChunk` (after the fragment has been appended to `pending`):
   * while fewer than `headerLen` header bytes are held and at least `headerLen` bytes are
   * pending, the first `headerLen` pending bytes become the header.
   */
  function StripHeader(header: seq<Byte>, pending: seq<Byte>, headerLen: nat): (r: Stripped)
    ensures r.header + r.pending == (if r.header == header then header + pending else pending)
    ensures r.header != header <==> |header| < headerLen <= |pending|
    ensures r.header != header ==> |r.header| == headerLen
  {
    if |header| < headerLen && |pending| >= headerLen then Stripped(pending[..headerLen], pending[headerLen..])
    else Stripped(header, pending)
  }

  /** The audio bytes of a stream when the header is stripped: all but the first `headerLen`, once there are that many. */
  function StrippedAudio(fed: seq<Byte>, headerLen: nat): seq<Byte>
  {
    if |fed| >= headerLen then fed[headerLen..] else fed
  }

  /**
   * The relation between everything fed so far, the captured header, the pending bytes
   * and the bytes already handed out, in the header-stripping mode without timestamps,
   * for a driver that never flushes a full buffer before the header is captured.
   */
  ghost predicate StripInvariant(fed: seq<Byte>, header: seq<Byte>, pending: seq<Byte>, emitted: seq<Byte>, headerLen: nat)
  {
    if |fed| < headerLen then header == [] && emitted == [] && pending == fed
    else header == fed[..headerLen] && emitted + pending == fed[headerLen..]
  }

  /** Header capture happens once, on the first call at which `headerLen` bytes have arrived, whatever the fragmentation. */
  lemma StripStep(fed: seq<Byte>, chunk: seq<Byte>, header: seq<Byte>, pending: seq<Byte>, emitted: seq<Byte>, headerLen: nat)
    requires StripInvariant(fed, header, pending, emitted, headerLen)
    ensures var r := StripHeader(header, pending + chunk, headerLen);
      StripInvariant(fed + chunk, r.header, r.pending, emitted, headerLen)
  {
    var r := StripHeader(header, pending + chunk, headerLen);
    if |fed| >= headerLen {
      assert (fed + chunk)[..headerLen] == fed[..headerLen];
      assert (fed + chunk)[headerLen..] == fed[headerLen..] + chunk;
    }
  }

  /** Under the strip invariant, what has been handed out and what is pending together are the audio after the header. */
  lemma StripInvariantAudio(fed: seq<Byte>, header: seq<Byte>, pending: seq<Byte>, emitted: seq<Byte>, headerLen: nat)
    requires StripInvariant(fed, header, pending, emitted, headerLen)
    ensures emitted + pending == StrippedAudio(fed, headerLen)
  {
  }

  /** An ordinary flush preserves the strip invariant, provided a buffer is at least a header long. */
  lemma StripFlushStep(fed: seq<Byte>, header: seq<Byte>, pending: seq<Byte>, emitted: seq<Byte>, headerLen: nat, bufferSize: nat)
    requires StripInvariant(fed, header, pending, emitted, headerLen)
    requires bufferSize >= headerLen
    ensures var f := FlushSplit(pending, bufferSize, false);
      StripInvariant(fed, header, f.rest, if f.out.Some? then emitted + f.out.value else emitted, headerLen)
  {
  }

  /** Every buffer of a list is exactly `bufferSize` long. */
  ghost predicate AllFull(outs: seq<seq<Byte>>, bufferSize: nat)
  {
    forall i :: 0 <= i < |outs| ==> |outs[i]| == bufferSize
  }

  /** Two lists of full buffers make one. */
  lemma AllFullConcat(a: seq<seq<Byte>>, b: seq<seq<Byte>>, bufferSize: nat)
    requires AllFull(a, bufferSize) && AllFull(b, bufferSize)
    ensures AllFull(a + b, bufferSize)
  {
    forall i | 0 <= i < |a + b|
      ensures |(a + b)[i]| == bufferSize
    {
      if i >= |a| {
        assert (a + b)[i] == b[i - |a|];
      }
    }
  }

  /** Full buffers followed by a shorter remainder: every buffer is non-empty and at most `bufferSize` long, all but the last exactly. */
  lemma FinishedShape(outs: seq<seq<Byte>>, rest: seq<Byte>, bufferSize: nat)
    requires bufferSize > 0 && AllFull(outs, bufferSize) && |rest| < bufferSize
    ensures var all := outs + Remainder(rest);
      && (forall i :: 0 <= i < |all| ==> 0 < |all[i]| <= bufferSize)
      && (forall i :: 0 <= i < |all| - 1 ==> |all[i]| == bufferSize)
  {
    var all := outs + Remainder(rest);
    forall i | 0 <= i < |all|
      ensures 0 < |all[i]| <= bufferSize && (i < |all| - 1 ==> |all[i]| == bufferSize)
    {
      if i < |outs| {
        assert all[i] == outs[i];
      }
    }
  }

  /** The buffers a full drain of `audio` hands out: full buffers, then one shorter non-empty remainder if any. */
  function Segment(audio: seq<Byte>, bufferSize: nat): seq<seq<Byte>>
    requires bufferSize > 0
    decreases |audio|
  {
    if audio == [] then []
    else if |audio| <= bufferSize then [audio]
    else [audio[..bufferSize]] + Segment(audio[bufferSize..], bufferSize)
  }

  /** The segmentation loses nothing, every buffer but the last is full, and the last is non-empty and not over-long. */
  lemma {:induction false} SegmentShape(audio: seq<Byte>, bufferSize: nat)
    requires bufferSize > 0
    ensures Flatten(Segment(audio, bufferSize)) == audio
    ensures forall i :: 0 <= i < |Segment(audio, bufferSize)| ==> 0 < |Segment(audio, bufferSize)[i]| <= bufferSize
    ensures forall i :: 0 <= i < |Segment(audio, bufferSize)| - 1 ==> |Segment(audio, bufferSize)[i]| == bufferSize
    decreases |audio|
  {
    var s := Segment(audio, bufferSize);
    if audio == [] {
    } else if |audio| <= bufferSize {
      FlattenSnoc([], audio);
    } else {
      var tail := Segment(audio[bufferSize..], bufferSize);
      SegmentShape(audio[bufferSize..], bufferSize);
      FlattenCons(audio[..bufferSize], tail);
      assert audio == audio[..bufferSize] + audio[bufferSize..];
      assert s == [audio[..bufferSize]] + tail;
      forall i | 0 <= i < |s| ensures 0 < |s[i]| <= bufferSize {
        if i > 0 { assert s[i] == tail[i - 1]; }
      }
      forall i | 0 <= i < |s| - 1 ensures |s[i]| == bufferSize {
        if i > 0 { assert s[i] == tail[i - 1]; }
      }
    }
  }

  /** The last buffer a drain hands out: the remainder, if there is one. */
  function Remainder(rest: seq<Byte>): seq<seq<Byte>>
  {
    if rest == [] then [] else [rest]
  }

  /**
   * Any list of full buffers followed by a remainder shorter than a buffer is the
   * segmentation of what they hold together: the output of a drain depends only on
   * the bytes, never on how they arrived.
   */
  lemma {:induction false} DrainIsSegment(outs: seq<seq<Byte>>, rest: seq<Byte>, audio: seq<Byte>, bufferSize: nat)
    requires bufferSize > 0
    requires AllFull(outs, bufferSize) && |rest| < bufferSize
    requires Flatten(outs) + rest == audio
    ensures outs + Remainder(rest) == Segment(audio, bufferSize)
    decreases |outs|
  {
    if outs == [] {
      assert audio == rest;
    } else {
      var o, more := outs[0], outs[1..];
      assert outs == [o] + more;
      FlattenCons(o, more);
      assert audio == o + (Flatten(more) + rest);
      assert audio[..bufferSize] == o;
      assert audio[bufferSize..] == Flatten(more) + rest;
      DrainIsSegment(more, rest, audio[bufferSize..], bufferSize);
      if |audio| == bufferSize {
        assert Flatten(more) + rest == [];
      }
      assert outs + Remainder(rest) == [o] + (more + Remainder(rest));
    }
  }
}
