/**
 * Byte strings and the Node `Buffer` operations the decoders use:
 * concatenation of a list of fragments, `slice(start)`, `toString(enc, start, end)`
 * (both clamp instead of throwing) and the little-endian reads
 * `readUInt16LE` / `readUInt32LE` (which throw past the end, so callers check bounds).
 */
module Bytes {

  type Byte = b: int | 0 <= b < 256

  /** `Buffer.concat(list)`: the fragments joined in order. */
  function Flatten(parts: seq<seq<Byte>>): seq<Byte>
  {
    if parts == [] then [] else Flatten(parts[..|parts| - 1]) + parts[|parts| - 1]
  }

  lemma FlattenSnoc(parts: seq<seq<Byte>>, p: seq<Byte>)
    ensures Flatten(parts + [p]) == Flatten(parts) + p
  {
    assert (parts + [p])[..|parts|] == parts;
  }

  lemma {:induction false} FlattenCons(p: seq<Byte>, parts: seq<seq<Byte>>)
    ensures Flatten([p] + parts) == p + Flatten(parts)
    decreases |parts|
  {
    if parts == [] {
      assert [p] + parts == [] + [p];
      FlattenSnoc([], p);
    } else {
      var init, last := parts[..|parts| - 1], parts[|parts| - 1];
      assert parts == init + [last];
      assert [p] + parts == ([p] + init) + [last];
      FlattenSnoc([p] + init, last);
      FlattenCons(p, init);
      FlattenSnoc(init, last);
    }
  }

  /** Flattening distributes over joining two lists of fragments. */
  lemma {:induction false} FlattenConcat(a: seq<seq<Byte>>, b: seq<seq<Byte>>)
    ensures Flatten(a + b) == Flatten(a) + Flatten(b)
    decreases |b|
  {
    if b == [] {
      assert a + b == a;
    } else {
      var init, last := b[..|b| - 1], b[|b| - 1];
      assert b == init + [last];
      assert a + b == (a + init) + [last];
      FlattenSnoc(a + init, last);
      FlattenConcat(a, init);
      FlattenSnoc(init, last);
    }
  }

  /** Prefix of a fragment list, flattened: the bytes delivered by the first `i` fragments. */
  lemma FlattenPrefixStep(parts: seq<seq<Byte>>, i: nat)
    requires i < |parts|
    ensures Flatten(parts[..i + 1]) == Flatten(parts[..i]) + parts[i]
  {
    assert parts[..i + 1] == parts[..i] + [parts[i]];
    FlattenSnoc(parts[..i], parts[i]);
  }

  /** `buf.slice(start)` for a non-negative start: clamps to the empty buffer past the end. */
  function SliceFrom(s: seq<Byte>, start: nat): seq<Byte>
  {
    if start < |s| then s[start..] else []
  }

  /** `buf.toString(enc, start, end)` works on these bytes: both ends are clamped, and an empty range gives ''. */
  function SliceClamped(s: seq<Byte>, start: int, end: int): seq<Byte>
  {
    var lo := if start <= 0 then 0 else start;
    if lo >= |s| then []
    else
      var hi := if end > |s| then |s| else end;
      if hi <= lo then [] else s[lo..hi]
  }

  /** Inside the buffer the clamped range is the plain slice, and it is never longer than the buffer. */
  lemma SliceClampedInRange(s: seq<Byte>, start: int, end: int)
    ensures 0 <= start <= end <= |s| ==> SliceClamped(s, start, end) == s[start..end]
    ensures |SliceClamped(s, start, end)| <= |s|
  {
  }

  /** `buf.toString('ascii', start, end)`: Node clears the high bit of every byte. */
  function AsciiText(s: seq<Byte>, start: int, end: int): string
  {
    var t := SliceClamped(s, start, end);
    seq(|t|, i requires 0 <= i < |t| => (t[i] % 128) as char)
  }

  lemma AsciiTextInRange(s: seq<Byte>, start: int, tag: string)
    requires |tag| == 4 && AsciiText(s, start, start + 4) == tag
    ensures 0 <= start && start + 4 <= |s|
  {
  }

  /** `buf.readUInt16LE(off)`. */
  function ReadU16LE(s: seq<Byte>, off: nat): (r: nat)
    requires off + 2 <= |s|
    ensures r < 0x1_0000
  {
    var b0: int, b1: int := s[off], s[off + 1];
    b0 + 0x100 * b1
  }

  /** `buf.readUInt32LE(off)`. */
  function ReadU32LE(s: seq<Byte>, off: nat): (r: nat)
    requires off + 4 <= |s|
    ensures r < 0x1_0000_0000
  {
    var b0: int, b1: int, b2: int, b3: int := s[off], s[off + 1], s[off + 2], s[off + 3];
    b0 + 0x100 * (b1 + 0x100 * (b2 + 0x100 * b3))
  }

  /** JavaScript's `t % 2`: the remainder takes the sign of the dividend. */
  function JsRem2(t: int): (r: int)
    ensures -1 <= r <= 1 && (t - r) % 2 == 0
    ensures t >= 0 ==> r >= 0
    ensures t < 0 ==> r <= 0
  {
    if t >= 0 then t % 2 else -((-t) % 2)
  }
}
