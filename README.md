# Resemble client: streaming WAV decoders and request context

This project models the parts of the Resemble Node client that work on bytes and URLs rather than on the network:

- **The v2 streaming decoder** (`src/v2/StreamDecoder.ts`). Network fragments of a streamed WAV response are appended to a pending buffer. The 36-byte streaming header is kept or stripped. When timestamps were requested, the word/phoneme timing block that follows the header is parsed once. That block is a `cue ` chunk followed by a `LIST` chunk of `ltxt` records. The pending bytes are handed out in buffers of `bufferSize` bytes.
- **The legacy decoder** (`src/api/v2/StreamDecoder.js`): the same buffering with a 44-byte header and no timestamps.
- **The two `stream` generators** (`src/v2/clips.ts`, `src/api/v2/clips.js`) that drive the decoders. Each fragment is decoded and followed by one ordinary flush. At the end of the response the generator flushes until less than a buffer is left, then forces one last flush.
- **The v2 request context** (`src/context.ts`): the API key, the base and synthesis URLs, the two header dictionaries derived from the key, and the URL builders `endpoint` and `synServerUrl`.
- **The legacy entry point** (`src/APIBuilder.js`): the base-URL override, and the checks and context assembly of `build`.

Modules:

- `Bytes`: byte strings and the Node `Buffer` operations used. `concat` is `Flatten`. `slice` and `toString` clamp their ranges. The little-endian reads throw past the end.
- `Segmenter`: what both decoders share. This is the buffer-size check, the fixed-size flush and the one-time header strip. It also defines `Segment`, the reference segmentation of a byte string, and proves that a full drain always produces it.
- `WavTimestamps`: the timing-block parser, as pure functions and as the source's loop-based methods, and its outcome lemmas.
- `WavStreamDecoder` and `LegacyWavStreamDecoder`: each decoder's state as a value, the effect of each operation on that value, and a class whose methods update the fields in place and are proved to agree with it.
- `Streaming` and `LegacyStreaming`: the generators as methods from a response, given as a list of fragments, to the list of values they yield. The methods carry end-to-end theorems: in which cases they yield exactly the audio cut into full buffers, and that the timestamps a piece carries never change.
- `Urls`: the trailing-slash normalisation and the leading-slash removal used by both clients.
- `Context` and `ApiBuilder`: the two request contexts.

Behaviour the model keeps as the code has it:

- In keep-header timestamp mode, the pending bytes are reset to the header after every fragment until the timing block parses (`src/v2/StreamDecoder.ts:66-84`). Once it parses, they are rebuilt from the parser's own copy of everything received (`src/v2/StreamDecoder.ts:104-110`), so no audio after the block is lost. The audio is lost only when the block never parses: for a stream whose chunk after the header is not `cue `, this mode yields the header and nothing else.
- With timestamps requested, `decodeChunk` runs the parser on everything received so far after every fragment, until the block parses. The parser throws when that is shorter than 28 bytes (`src/v2/StreamDecoder.ts:181-184`); when a `cue ` tag is not followed by the cue chunk's two counts (`src/v2/StreamDecoder.ts:198-201`); when the cue points run past the end of the bytes although the declared size of the cue chunk fits (`src/v2/StreamDecoder.ts:213-218`, `WavTimestamps.ReadCuePoints`); when the bytes end inside the 8 bytes of the `LIST` header (`src/v2/StreamDecoder.ts:221-222`); or, in the record loop, on a record whose fields pass the end of the bytes (`src/v2/StreamDecoder.ts:233-235`) or whose tag is neither `grph` nor `phon` (`src/v2/StreamDecoder.ts:251-253`, `WavTimestamps.ReadRecords`). Bytes that end inside a cue chunk whose declared size does not fit are not an error: the parser reports the block incomplete and waits for more (`src/v2/StreamDecoder.ts:210-212`, `WavTimestamps.CueChunkIncompleteIff`). The stream ends with `DecodeError` exactly when the parser throws on one of the prefixes it is run on, that is, on a prefix up to the first one that parses, or on any prefix when none parses (`Streaming.ThrowsBeforeParse`, `Streaming.ThrowsBeforeParseIff`, `Streaming.Stream`). A first fragment shorter than 28 bytes is one such case (`Streaming.ShortFirstFragmentThrows`, `WavTimestamps.ShortBufferThrows`, `WavTimestamps.TruncatedCueChunkThrows`, `WavStreamDecoder.DecodeFailsOnlyInParser`).
- In ignore-header timestamp mode, a stream whose chunk after the header is not `cue ` keeps its header in the output.
- `reset()` leaves the timestamp state alone.
- The ignore-header timestamp branch never empties the parser's buffer.
- `build` in `APIBuilder.js` tests `VERSIONS[apiVersion]` for truthiness. It therefore accepts the keys every object inherits from `Object.prototype` (`toString`, `constructor`, ...). It then fails when loading the version's module. The model returns `NoVersionModule` for those keys and `InvalidVersion` for every other version except "v2".

## Model

| member | source | states |
|---|---|---|
| Bytes.SliceClampedInRange | src/v2/StreamDecoder.ts:236-242 | `toString(enc, start, end)` reads exactly the bytes in range when the range is inside the buffer, and never more bytes than the buffer holds |
| Bytes.ReadU16LE | src/v2/StreamDecoder.ts:182 | `readUInt16LE` yields a 16-bit unsigned value |
| Bytes.ReadU32LE | src/v2/StreamDecoder.ts:183 | `readUInt32LE` yields a 32-bit unsigned value |
| Bytes.JsRem2 | src/v2/StreamDecoder.ts:245 | JavaScript `%` by 2: the remainder is in -1..1, has the sign of the dividend, and leaves an even difference |
| Bytes.FlattenConcat | src/v2/StreamDecoder.ts:44 | `Buffer.concat` of two lists joined is the two concatenations joined |
| Segmenter.CheckBufferSize | src/v2/StreamDecoder.ts:9-11 | the constructor's buffer-size check: passes exactly for even sizes of at least 2, fails with "less than 2" first and with "divisible by 2" only for odd sizes of at least 2 |
| Segmenter.FlushSplit | src/v2/StreamDecoder.ts:144-158 | `flushBuffer(force)`: nothing lost or duplicated; a forced flush drains everything or returns null when nothing is pending; an ordinary flush returns one full buffer exactly when at least a buffer is pending |
| Segmenter.StripHeader | src/v2/StreamDecoder.ts:39-52 | the header strip: the header is taken exactly when it is not yet held and enough bytes are pending, is then exactly a header long, and header plus pending is what was pending |
| Segmenter.StripStep | src/api/v2/StreamDecoder.js:29-38 | decoding a fragment keeps the strip invariant: the header is the stream's first bytes and the rest is pending or handed out, whatever the fragmentation |
| Segmenter.StripInvariantAudio | src/v2/StreamDecoder.ts:38-52 | under the strip invariant, handed-out and pending bytes are the stream without its header |
| Segmenter.StripFlushStep | src/v2/StreamDecoder.ts:150-156 | an ordinary flush keeps the strip invariant when a buffer is at least a header long |
| Segmenter.AllFullConcat | src/v2/clips.ts:242-248 | two lists of full buffers joined are full buffers |
| Segmenter.FinishedShape | src/v2/clips.ts:254-271 | full buffers followed by a shorter remainder: every buffer non-empty and at most a buffer long, all but the last full |
| Segmenter.SegmentShape | src/v2/clips.ts:254-271 | the reference segmentation loses nothing, its buffers are non-empty and at most a buffer long, and all but the last are full |
| Segmenter.DrainIsSegment | src/api/v2/clips.js:84-95 | any run of full buffers followed by a remainder shorter than a buffer is the reference segmentation of the bytes they hold |
| WavTimestamps.TrimKeepsKindTags | src/v2/StreamDecoder.ts:237 | `trim()` leaves the two mapped tags unchanged |
| WavTimestamps.TrimShortens | src/v2/StreamDecoder.ts:237 | `trim()` (start, end, both) never lengthens a string, and returns it unchanged if it keeps its length |
| WavTimestamps.KindAtIsMappedTag | src/v2/StreamDecoder.ts:236-251 | reading the four tag bytes directly agrees with decoding them as ASCII, trimming and mapping, for any buffer |
| WavTimestamps.ReadLtxt | src/v2/StreamDecoder.ts:233-245 | a record can be read exactly when its three 32-bit fields lie in the buffer; the next record starts at least 8 bytes on, at an even distance |
| WavTimestamps.LtxtFields | src/v2/StreamDecoder.ts:233-257 | a record's text is its declared length minus the NUL terminator, and its time pair is its cue point to cue point plus sample count (no cue point when the index is unknown) |
| WavTimestamps.RecordsOutcome | src/v2/StreamDecoder.ts:232-258 | the record loop ends in success or an exception; on success texts and time pairs grow in step, the sample rate is kept, and the offset is at or past the end of the `LIST` chunk, an even distance on |
| WavTimestamps.ShortBufferThrows | src/v2/StreamDecoder.ts:181-184 | a buffer too short for the channel count and sample rate makes the parser throw |
| WavTimestamps.NoCueChunkIff | src/v2/StreamDecoder.ts:187-197 | the parser reports no timestamps and no offset exactly when the header is readable and the next tag is not `cue ` |
| WavTimestamps.TruncatedCueChunkThrows | src/v2/StreamDecoder.ts:197-201 | a `cue ` tag in a buffer that ends before the cue-point count makes the parser throw |
| WavTimestamps.CueChunkOutcome | src/v2/StreamDecoder.ts:197-229 | the `cue ` stage is incomplete at offset 48 exactly when the cue chunk ends past the buffer, and incomplete at the first record exactly when the `LIST` chunk does; a success pairs every text with a time |
| WavTimestamps.CueChunkIncompleteIff | src/v2/StreamDecoder.ts:203-212 | "incomplete at offset 48" happens exactly when the cue chunk's end lies past the buffer |
| WavTimestamps.ListChunkOutcome | src/v2/StreamDecoder.ts:220-229 | the `LIST` stage is incomplete, at the first record, exactly when the chunk ends past the buffer |
| WavTimestamps.ListChunkExtracted | src/v2/StreamDecoder.ts:220-263 | a successful `LIST` stage keeps the sample rate, pairs every text with a time and ends at or past the chunk's end |
| WavTimestamps.ListChunkIncompleteIff | src/v2/StreamDecoder.ts:225-229 | with the cue chunk complete, the parser is incomplete at the first record exactly when the `LIST` chunk ends past the buffer |
| WavTimestamps.CueTagNeedsBytes | src/v2/StreamDecoder.ts:187-197 | a `cue ` tag after the header needs the 40 bytes that hold it |
| WavTimestamps.CueTagSettled | src/v2/StreamDecoder.ts:187-197 | once 40 bytes have arrived, more bytes never change whether the chunk after the header is `cue ` |
| WavTimestamps.ParsedPastCueTag | src/v2/StreamDecoder.ts:197-229 | the parser reports "incomplete" or succeeds only past a `cue ` tag and the cue-point count, at least 48 bytes |
| WavTimestamps.ExtractedShape | src/v2/StreamDecoder.ts:172-263 | a successful parse found the `cue ` tag with its chunk inside the buffer, reports the sample rate stored at offset 24, and pairs every text with a time |
| WavTimestamps.ExtractTimestampsFromBuffer | src/v2/StreamDecoder.ts:172-269 | the offset-walking parser computes `Parse` of the buffer |
| WavTimestamps.ExtractFromCueChunk | src/v2/StreamDecoder.ts:197-263 | the `cue ` branch computes the cue stage of `Parse` |
| WavTimestamps.ExtractFromListChunk | src/v2/StreamDecoder.ts:220-263 | the `LIST` part computes the list stage of `Parse` |
| WavTimestamps.CollectCuePoints | src/v2/StreamDecoder.ts:213-218 | the cue-point `for` loop builds the cue map, or throws on a read past the end |
| WavTimestamps.CollectRecords | src/v2/StreamDecoder.ts:232-258 | the `ltxt` `while` loop computes the record stage of `Parse` |
| WavTimestamps.DecodeRecordAt | src/v2/StreamDecoder.ts:233-245 | one turn of the record loop reads the record `ReadLtxt` describes |
| WavStreamDecoder.DecodeKeepsValid | src/v2/StreamDecoder.ts:34-142 | `decodeChunk` keeps the state invariant and the configuration, whatever the parser does |
| WavStreamDecoder.DecodeFailsOnlyInParser | src/v2/StreamDecoder.ts:55-64 | `decodeChunk` throws exactly when timestamps are still to come and the parser throws on all bytes so far, leaving the fragment appended to both buffers |
| WavStreamDecoder.DecodeAppends | src/v2/StreamDecoder.ts:36-57 | with the header held or kept and no timestamps pending, `decodeChunk` only appends |
| WavStreamDecoder.DecodeStripsHeader | src/v2/StreamDecoder.ts:38-52 | without timestamps, the header strip captures the stream's first 36 bytes once, however the stream is fragmented |
| WavStreamDecoder.KeepHeaderWithTimestamps | src/v2/StreamDecoder.ts:59-119 | keep-header timestamp mode, header held: an incomplete or absent timing block resets pending to the header; a parsed one gives header plus everything after the block and empties the parser's buffer |
| WavStreamDecoder.KeepHeaderBeforeHeader | src/v2/StreamDecoder.ts:59-119 | keep-header timestamp mode before the header is held: the first 36 bytes become the header once they have arrived, pending is reset to it while the block does not parse, and a parsed block gives header plus everything after the block |
| WavStreamDecoder.IgnoreHeaderWithTimestamps | src/v2/StreamDecoder.ts:121-141 | ignore-header timestamp mode: incomplete empties pending, no `cue ` chunk keeps everything, parsed gives everything after the block and leaves the parser's buffer |
| WavStreamDecoder.DecodeFirstWithTimestamps | src/v2/StreamDecoder.ts:59-141 | a first fragment carrying the whole timing block yields its timestamps and leaves the audio after the block pending, behind the 36-byte header in keep-header mode |
| WavStreamDecoder.DecodeBeforeTimestamps | src/v2/StreamDecoder.ts:55-141 | until the timing block parses, the parser's buffer is everything received and no timestamps are reported; once it parses, its timestamps are reported |
| WavStreamDecoder.DecodeKeepsTimestamps | src/v2/StreamDecoder.ts:113-116 | reported timestamps never change afterwards, and never appear unless requested |
| WavStreamDecoder.StreamDecoder.constructor | src/v2/StreamDecoder.ts:4-21 | a fresh decoder with the given settings, empty buffers and no timestamps |
| WavStreamDecoder.StreamDecoder.Create | src/v2/StreamDecoder.ts:4-21 | `new StreamDecoder`: throws the check's error exactly for an invalid buffer size, otherwise a fresh valid decoder |
| WavStreamDecoder.StreamDecoder.SetBufferSize | src/v2/StreamDecoder.ts:23-28 | changes the buffer size exactly when the check passes; nothing else changes |
| WavStreamDecoder.StreamDecoder.SetIgnoreWavHeader | src/v2/StreamDecoder.ts:30-32 | changes only the header flag |
| WavStreamDecoder.StreamDecoder.DecodeChunk | src/v2/StreamDecoder.ts:34-142 | the in-place `decodeChunk` reaches the state `Decode` gives and reports the parser's exception |
| WavStreamDecoder.StreamDecoder.BufferChunk | src/v2/StreamDecoder.ts:36-57 | the append, the header strip and the parser's copy, in place |
| WavStreamDecoder.StreamDecoder.KeepHeaderTimestamps | src/v2/StreamDecoder.ts:60-119 | the keep-header timestamp branch, in place |
| WavStreamDecoder.StreamDecoder.IgnoreHeaderTimestamps | src/v2/StreamDecoder.ts:122-141 | the ignore-header timestamp branch, in place |
| WavStreamDecoder.StreamDecoder.FlushBuffer | src/v2/StreamDecoder.ts:144-158 | returns and leaves pending what `FlushSplit` says; nothing else changes |
| WavStreamDecoder.StreamDecoder.Reset | src/v2/StreamDecoder.ts:160-163 | empties pending and the header and leaves every timestamp field as it was |
| WavStreamDecoder.StreamDecoder.GetTimestamps | src/v2/StreamDecoder.ts:165-170 | the timestamps exactly when requested and processed, otherwise null |
| LegacyWavStreamDecoder.DecodeKeepsValid | src/api/v2/StreamDecoder.js:27-39 | `decodeChunk` keeps the state invariant |
| LegacyWavStreamDecoder.DecodeAppends | src/api/v2/StreamDecoder.js:28-29 | with the header kept or already held, `decodeChunk` only appends |
| LegacyWavStreamDecoder.DecodeStripsHeader | src/api/v2/StreamDecoder.js:29-38 | the strip captures the stream's first 44 bytes once, however it is fragmented |
| LegacyWavStreamDecoder.StreamDecoder.constructor | src/api/v2/StreamDecoder.js:4-13 | a fresh decoder with the given settings and empty buffers |
| LegacyWavStreamDecoder.StreamDecoder.Create | src/api/v2/StreamDecoder.js:4-13 | throws the check's error exactly for an invalid buffer size |
| LegacyWavStreamDecoder.StreamDecoder.SetBufferSize | src/api/v2/StreamDecoder.js:15-21 | changes the buffer size exactly when the check passes |
| LegacyWavStreamDecoder.StreamDecoder.SetIgnoreWavHeader | src/api/v2/StreamDecoder.js:23-25 | changes only the header flag |
| LegacyWavStreamDecoder.StreamDecoder.DecodeChunk | src/api/v2/StreamDecoder.js:27-39 | the in-place `decodeChunk` reaches the state `Decode` gives |
| LegacyWavStreamDecoder.StreamDecoder.FlushBuffer | src/api/v2/StreamDecoder.js:41-55 | returns and leaves pending what `FlushSplit` says |
| LegacyWavStreamDecoder.StreamDecoder.Reset | src/api/v2/StreamDecoder.js:57-60 | empties pending and the header |
| Streaming.Stream | src/v2/clips.ts:225-271 | the constructor's errors exactly for bad sizes; all buffers full but a non-empty last one, all full after an exception; timestamps only when requested and never changing; with timestamps, a parser exception exactly when the parser throws on one of the prefixes up to the first that parses (all of them when none does); without timestamps, the reference segmentation of the audio with or without its header; with timestamps, the reference segmentation of the header (keep-header mode), the audio after the block and the later fragments, each piece carrying the timestamps of the first prefix that parses, whether the block comes in the first fragment (for any buffer size) or is spread over several (for a buffer holding what is pending until then); with a block that never parses, no timestamps, and the header alone (keep-header), everything (ignore-header, no `cue ` chunk) or nothing (ignore-header, `cue ` chunk) |
| Streaming.Run | src/v2/clips.ts:230-271 | for a decoder already built and reset: the same sizes and stability; a parser exception exactly when timestamps are requested and `ThrowsBeforeParse` holds of the fragments, so none without timestamps or when the first fragment carries the block; in every determined case of `AudioKnown`, a drained stream yields the reference segmentation of `StreamAudio`, and its pieces carry the timestamps of the first prefix that parses |
| Streaming.TimestampCases | src/v2/clips.ts:230-271 | which timestamp cases are determined and what their audio is: the block in the first fragment, spread over several with a large enough buffer, or never parsing |
| Streaming.FirstParsed | src/v2/StreamDecoder.ts:55-62 | the number of fragments after which the whole prefix received parses, if any: it is at most the number of fragments and its prefix does parse |
| Streaming.FirstParsedIsFirst | src/v2/StreamDecoder.ts:55-62 | no shorter prefix parses, and when there is none, no prefix parses |
| Streaming.FirstParsedOne | src/v2/StreamDecoder.ts:55-62 | the block parses with the first fragment exactly when that fragment carries it whole |
| Streaming.FirstParsedPrefix | src/v2/StreamDecoder.ts:55-62 | a prefix of the fragments has parsed exactly when the whole response had parsed within that prefix |
| Streaming.ParseBound | src/v2/StreamDecoder.ts:55-62 | the number of prefixes the parser is run on is at most the number of fragments |
| Streaming.ThrowsBeforeParseIff | src/v2/StreamDecoder.ts:55-62 | the recursive `ThrowsBeforeParse` holds exactly when the parser throws on one of the first `ParseBound` prefixes |
| Streaming.ThrowsPrefix | src/v2/StreamDecoder.ts:55-62 | a prefix of the fragments that makes the parser throw makes the whole response throw |
| Streaming.ThrowsNotFirst | src/v2/StreamDecoder.ts:55-62 | a response whose parser throws has a first fragment that does not carry the whole block |
| Streaming.ShortFirstFragmentThrows | src/v2/StreamDecoder.ts:181-184 | a first fragment shorter than 28 bytes makes the parser throw before anything parses |
| Streaming.ThrowsDecode | src/v2/StreamDecoder.ts:55-62 | with timestamps, the fragments up to the next one make the parser throw before anything parses exactly when the earlier ones already do or decoding the next one throws |
| Streaming.EmptyBeforeTimestamps | src/v2/clips.ts:241-242 | nothing is handed out before the fragment with which the block parses, when it is the first fragment or a buffer holds everything pending until then |
| Streaming.ProgressDecodeCompletes | src/v2/StreamDecoder.ts:59-141 | the fragment with which the block first parses leaves the audio after the block pending, behind the header in keep-header mode |
| Streaming.ProgressDecodeWaiting | src/v2/StreamDecoder.ts:59-141 | while the block does not parse, keep-header mode holds the header or what has arrived of it, and ignore-header mode everything while no `cue ` tag is seen and nothing after one |
| Streaming.FeedAll | src/v2/clips.ts:237-249 | the fragment loop yields full buffers only, keeps the progress invariant, and stops early on a parser exception exactly when timestamps are requested and the parser throws on a prefix before any prefix parses |
| Streaming.FeedOne | src/v2/clips.ts:241-248 | one decode and one ordinary flush keep the loop's invariant (which records that no prefix so far made the parser throw), or the parser threw on the prefix ending with this fragment |
| Streaming.DrainAll | src/v2/clips.ts:254-263 | the drain loop yields full buffers whose bytes plus what is left are what was pending, stops with less than a buffer left, and changes nothing else |
| Streaming.Finish | src/v2/clips.ts:254-271 | after the drain and the forced flush, the pieces are all full but the last, keep their timestamps, and are the reference segmentation of the audio when it is determined |
| Streaming.ProgressDecode | src/v2/clips.ts:241 | decoding a fragment that does not throw keeps the driver's invariant |
| Streaming.ProgressFlush | src/v2/clips.ts:242 | an ordinary flush keeps the driver's invariant |
| Streaming.ProgressAudio | src/v2/clips.ts:254-271 | in the determined cases, handed-out plus pending bytes are the stream's audio |
| Streaming.FinishAudio | src/v2/clips.ts:254-271 | in the determined cases, the finished pieces are the audio cut into buffers |
| LegacyStreaming.Stream | src/api/v2/clips.js:61-99 | the constructor's error exactly for bad sizes; all buffers full but a non-empty last one; the output is the reference segmentation of all bytes (header kept) or of the bytes after the 44-byte header (header ignored, buffer at least a header long) |
| LegacyStreaming.FeedAll | src/api/v2/clips.js:77-82 | the fragment loop yields full buffers only and keeps the progress invariant |
| LegacyStreaming.DrainAll | src/api/v2/clips.js:84-90 | the drain loop yields full buffers whose bytes plus what is left are what was pending, and stops with less than a buffer left |
| LegacyStreaming.Finish | src/api/v2/clips.js:84-95 | after the drain and the forced flush, the buffers are the reference segmentation of the audio when it is determined |
| LegacyStreaming.ProgressDecode | src/api/v2/clips.js:78 | decoding a fragment keeps the driver's invariant |
| LegacyStreaming.ProgressAudio | src/api/v2/clips.js:84-95 | in the determined cases, yielded plus pending bytes are the stream's audio |
| Urls.WithTrailingSlash | src/context.ts:20-26 | the shortest extension of the URL that ends with '/': unchanged exactly when it already ends with '/' (the empty string becomes "/") |
| Urls.TrailingSlashIdempotent | src/APIBuilder.js:23-24 | normalising twice is normalising once |
| Urls.StripLeadingSlash | src/context.ts:44 | one leading '/' removed if present, otherwise the path unchanged |
| Urls.StripLeadingSlashOnce | src/context.ts:49 | only one slash is removed |
| Context.Context.constructor | src/context.ts:1-14 | the module's initial state: empty key, the default base URL, no synthesis URL, headers for the empty key |
| Context.Context.SetBaseUrl | src/context.ts:20-26 | the base URL becomes the normalised URL; key and synthesis URL unchanged; the headers still match the key |
| Context.Context.SetApiKey | src/context.ts:28-33 | the key and the three derived header entries change to the new key; `Content-Type` and both URLs unchanged |
| Context.Context.SetSynthesisUrl | src/context.ts:35-41 | the synthesis URL becomes the normalised URL; key and base URL unchanged |
| Context.Context.Endpoint | src/context.ts:43-46 | the base URL, the version and '/', then the path with one leading '/' removed |
| Context.Context.SynServerUrl | src/context.ts:48-52 | the synthesis URL, then the path with one leading '/' removed |
| Context.Context.EndpointIgnoresLeadingSlash | src/context.ts:43-52 | a path with one leading '/' and the same path without it give the same URL |
| Context.Context.EndpointShape | src/context.ts:43-46 | under the invariant the base URL ends with '/' and the version is followed by exactly one '/' |
| ApiBuilder.LookupVersion | src/APIBuilder.js:4-13 | `VERSIONS[v]`: an entry exactly for "v2", an inherited value for the `Object.prototype` keys, nothing otherwise |
| ApiBuilder.Build | src/APIBuilder.js:29-59 | throws for a non-string or empty token first; then for a non-string, empty or unknown version; fails to load a module for inherited keys; succeeds exactly for "v2" with a valid token, with the two headers and the override URL if set, else the v2 default |
| ApiBuilder.Url | src/APIBuilder.js:46 | `api(path)`: the application URL followed by the path |
| ApiBuilder.OnlyV2Builds | src/APIBuilder.js:30-36 | a successful build had version "v2" and a non-empty token |
| ApiBuilder.OverrideUrl | src/APIBuilder.js:18-46 | after `setBaseUrl(u)`, every URL of a built context is the normalised `u` (ending with '/') followed by the path |
| ApiBuilder.Builder.constructor | src/APIBuilder.js:15 | no override initially |
| ApiBuilder.Builder.SetBaseUrl | src/APIBuilder.js:18-27 | throws exactly for a non-string or empty URL and leaves the override unchanged; otherwise stores the normalised URL |

## Left out

- Times stay as sample-frame pairs together with the sample rate. The source divides them by the rate in floating point.
- Texts stay as bytes. The source decodes `ltxt` texts as UTF-8.
- The async generators, `fetch`, the HTTP request, the error-response branches (`clips.ts:215-223`, `clips.js:65-71`) and `reader.releaseLock()` are left out. A response is modelled as the list of its fragments.
- The `||` defaulting of the stream configuration in `clips.ts:192-203` is left out. The driver takes the three settings as given.
- The default arguments are left out: `bufferSize = 4096`, `ignoreWavHeader = true` and no timestamps for the v2 decoder (`src/v2/StreamDecoder.ts:4-8`), the same size and flag for the legacy decoder (`src/api/v2/StreamDecoder.js:4`) and for the legacy `stream` (`src/api/v2/clips.js:61`). The model's constructors and drivers take every argument explicitly.
- The list of fragments the decoders hold is modelled as its concatenation. Every use of the list concatenates it first, so only the cost of `Buffer.concat` is lost.
- `require(version.exports)(context)` in `APIBuilder.js:59-63` is foreign code. `Build` returns the context it would receive: the headers and the application URL. The `options` argument and the `get`/`post`/`put`/`delete` wrappers around `fetch` are left out.
- The CRUD modules (projects, voices, clips other than `stream`, recordings and the rest), `resemble.ts` and `resemble.js` are not part of this model.
- Streaming.Stream: the segmentation theorem for ignore-header mode without timestamps holds only for a buffer size of at least 36. With smaller buffers the driver can flush header bytes before the header is captured, and the output then depends on the fragmentation.
- Streaming.Stream: when the timing block is spread over several fragments, the timestamp theorem needs a buffer longer than 36 bytes in keep-header mode and of at least 40 bytes in ignore-header mode. The same holds in keep-header mode when the block never parses. With smaller buffers the driver can hand out the header, or bytes not yet known not to start a `cue ` chunk, before the block parses, and the output then depends on the fragmentation. Only the size and timestamp-stability facts are stated for those buffers.
- Streaming.Stream: for a response that ends the stream with `DecodeError`, the model states when that happens, but of the pieces it states only the size and stability facts. They are not related to the audio.
- Streaming.Run: the same gaps as `Streaming.Stream`. They are the cases `AudioKnown` leaves out, and the streams that end with `DecodeError`.
- LegacyStreaming.Stream: the segmentation theorem for ignore-header mode holds only for a buffer size of at least 44, for the same reason as in the v2 driver.
