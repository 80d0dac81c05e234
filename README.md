# tailing-stream in Dafny

A model of `TailingReadableStream`, the `tail -f`-style readable stream of
tailing-stream.js, and of its option-merging helper `extend`.

The stream watches a file. Each 'change' notification opens a ranged read
from the last emitted byte offset, unless a read is already open. The read
forwards chunks as `data` events and advances the offset by each chunk's
length. When the read reaches the end of the file it releases itself, and
the next notification opens a fresh read at the new offset. Every
notification re-arms an inactivity timer. When the timer fires, the stream
tears down and emits `end` and `close`. `pause` stops the watcher and the
timer and pauses the live read, keeping it. `resume` watches again: it
delivers one synthetic 'change' and resumes the read. `destroy` and the
read's and watcher's errors tear the stream down too.

Modules:

- `JsValues` (js_values.dfy): the option values (`Value`), `Option`, and
  JavaScript truthiness.
- `Extend` (extend.dfy): `extend` as a method with the source's two nested
  loops. It is proved equal to a left fold (`Fold`) of a per-argument merge.
  The fold is then related to independent definitions of the union of keys
  and of the left-most and right-most owner of a key.
- `TailingStream` (tailing_stream.dfy): the class `TailingReadableStream`.
  - The watcher, read and timer handles are booleans (`hasWatcher`,
    `hasStream` with `streamPaused`, `timerArmed`).
  - Chunks are byte sequences, and emitted events are appended to `events`.
    With an encoding set, the source's chunks are strings; "## Left out" says
    what the model then misses.
  - Each callback from the watcher, the read or the timer is a method the
    environment calls: `OnChange(kind)`, `OnData`, `OnReadEnd`,
    `OnReadError`, `OnWatcherError`, `TimeoutKillswitch`.
  - `Valid()` is the object invariant:
    - a paused stream has no watcher;
    - a timer runs only under a watcher;
    - a paused stream's read is paused;
    - a read exists only while the stream is readable;
    - the offset equals the start offset plus the number of bytes in all
      emitted Data events.
- `Scenarios` (scenarios.dfy): clients that drive a stream through a
  sequence of callbacks and state what a consumer sees. They use only the
  stream's contracts.

The model follows the code in two places where a reader might expect
otherwise:

- `close` is not terminal and may be emitted more than once. After a
  teardown, `pause()` followed by `resume()` subscribes a watcher and arms the
  timer again (tailing-stream.js:161-193, 221). The timer then emits a
  second `end`/`close` (`Scenarios.CloseIsNotTerminal`).
- A paused stream's read is kept and is only marked paused. A 'change'
  arriving while it exists opens nothing.

## Model

| member | source | states |
|---|---|---|
| `Extend.Extend` | tailing-stream.js:5-29 | the nested loops compute `Fold`: falsy leading arguments are skipped, the first object becomes the result, and each later argument's own properties are copied in left to right; with `preserve`, a key the result already has is skipped |
| `Extend.FoldKeys` | tailing-stream.js:5-29 | `extend` returns an object exactly when some argument is one; its key set is the union of all arguments' key sets |
| `Extend.FoldRightmostWins` | tailing-stream.js:16-24 | without `preserve`, every key's value comes from the right-most argument that owns it |
| `Extend.FoldFirstWins` | tailing-stream.js:18-23 | with `preserve`, every key's value comes from the left-most argument that owns it |
| `Extend.PreserveKeepsFirst` | tailing-stream.js:19-22 | with `preserve`, no entry of the first object is ever overwritten |
| `Extend.OverrideKeepsFirstKeys` | tailing-stream.js:11-14 | without `preserve`, the result still holds every key of the first object, which it extends |
| `Extend.CopyIntoEmpty` | tailing-stream.js:108 | `extend(false, {}, m)` is a copy of `m` |
| `TailingStream.EncodingOrDefault` | tailing-stream.js:149 | the encoding used is never falsy: it is the given one whenever that is truthy, and 'utf8' otherwise |
| `TailingStream.TailingReadableStream.Open` | tailing-stream.js:63-93 | the constructor's defaults apply (timeout 5000, offset 0, not paused, readable). `timeout`, `start` and `startPaused` override them only when present. The stored read options are the options minus `end`. A paused stream has no watcher, timer or read. Otherwise the kick-start has armed the timer (when the timeout is truthy) and opened a read at the start offset |
| `TailingStream.TailingReadableStream.Watch` | tailing-stream.js:96-144 | a watcher is subscribed and the synthetic 'change' is delivered: the timer is re-armed and a read opens at the offset if none exists and the stream is readable |
| `TailingStream.TailingReadableStream.OnChange` | tailing-stream.js:101-133 | any notification re-arms the timer, which is armed exactly when `timeout` is truthy. A read opens exactly when none exists, the stream is readable and the kind is 'change'. It starts at the current offset, using a copy of the stored options. Otherwise the read is untouched. Offset, events and stored options are unchanged |
| `TailingStream.TailingReadableStream.OnData` | tailing-stream.js:113-117 | the offset grows by exactly the chunk's length and one Data event carrying the chunk is appended; the offset stays equal to the start plus all emitted bytes |
| `TailingStream.TailingReadableStream.OnReadEnd` | tailing-stream.js:128-131 | the read handle is released; the offset and everything else are kept |
| `TailingStream.TailingReadableStream.OnReadError` | tailing-stream.js:120-124 | torn down (no watcher, timer or read; not readable, not paused), offset kept, Error then Close appended |
| `TailingStream.TailingReadableStream.OnWatcherError` | tailing-stream.js:136-140 | torn down, offset kept, Error then Close appended |
| `TailingStream.TailingReadableStream.SetEncoding` | tailing-stream.js:147-158 | the stored `encoding` option becomes the given encoding or 'utf8', and so does the live read's; nothing else changes |
| `TailingStream.TailingReadableStream.Pause` | tailing-stream.js:161-180 | a no-op when already paused. Otherwise: paused, no watcher, no timer, the read kept and marked paused, offset and events unchanged |
| `TailingStream.TailingReadableStream.Resume` | tailing-stream.js:183-193 | a no-op when not paused. Otherwise: unpaused, a watcher subscribed, the timer re-armed by the synthetic 'change', the read un-paused. An existing read keeps its start; a readable stream without one opens one at the offset |
| `TailingStream.TailingReadableStream.ResetTimeoutKillswitch` | tailing-stream.js:196-206 | the timer is armed afterwards exactly when `timeout` is truthy; with timeout 0 it is left unarmed |
| `TailingStream.TailingReadableStream.Teardown` | tailing-stream.js:209-222 | no watcher, no timer, no read, not readable, not paused; offset, options and events unchanged |
| `TailingStream.TailingReadableStream.TimeoutKillswitch` | tailing-stream.js:225-229 | torn down, then End and Close appended |
| `TailingStream.TailingReadableStream.Destroy` | tailing-stream.js:232-235 | torn down, then only Close appended |
| `Scenarios.KickStartThenAppend` | tailing-stream.js:101-131 | on a file holding "A", the kick-start emits "A" (offset 1); after the read ends, the next 'change' opens a read at offset 1 that emits "BC" (offset 3) |
| `Scenarios.OpenMidFile` | tailing-stream.js:73-76 | opened with `start`, the first read begins at `start` and emits the rest of the file once; the offset ends at start plus its length; the timer then emits End, Close |
| `Scenarios.PauseMidRead` | tailing-stream.js:161-193 | pausing and resuming in the middle of a read keeps that read (still started at 0) and the offset; the next chunk continues after the first |
| `Scenarios.RenameOpensNothing` | tailing-stream.js:101-106 | a non-'change' notification opens no read but re-arms the timer |
| `Scenarios.ZeroTimeoutNeverArms` | tailing-stream.js:201-205 | with timeout 0, a notification leaves no timer armed |
| `Scenarios.CloseIsNotTerminal` | tailing-stream.js:209-229 | destroy, pause, resume and a timer fire give Close, End, Close, and no read is opened after the teardown |
| `Scenarios.ErrorsCloseTheStream` | tailing-stream.js:119-140 | a read error and a watcher error each emit exactly Error then Close |

## Left out

- `fs.watch`, `fs.createReadStream`, `setTimeout` and `clearTimeout` are not modelled (tailing-stream.js:100, 110, 172, 199-204). Each handle is a boolean, and each callback is a method the caller invokes. Timing such as when the timer fires is not modelled.
- The `Readable` prototype wiring is not modelled (tailing-stream.js:2, 33, 53-60). This includes `extend(true, TailingReadableStream, Readable)` at line 60, which copies the stream library's static properties onto the constructor.
- `createTailingReadStream` (tailing-stream.js:238-240) is not modelled separately. It only forwards to `open`.
- Byte contents are opaque. Text decoding is not modelled: the encoding is only stored as an option.
- TailingStream.TailingReadableStream.OnData: the model's offset is a byte offset only when no encoding is set, or when the text is single-byte. Once an encoding is set (the `encoding` option, or `setEncoding`, whose default is 'utf8'), the source receives strings, and `_offset += data.length` (tailing-stream.js:115) counts UTF-16 code units, not bytes. That count is then passed back as the byte position `start` of the next read (tailing-stream.js:109), so for multi-byte text the next read starts at the wrong byte. The model treats every chunk as a byte sequence and does not capture this.
- TailingStream.TailingReadableStream.OnReadError: the model assumes an 'error' listener is attached. Without one, `emit('error')` (tailing-stream.js:122, 138) throws out of the callback and the following `emit('close')` is never reached; the model always appends Error and then Close. The same holds for TailingStream.TailingReadableStream.OnWatcherError and Scenarios.ErrorsCloseTheStream.
- Listener re-entrancy and interleaving are not modelled. Each callback is one atomic method call.
- Extend.Extend: works on option values rather than shared objects, so aliasing between arguments is not captured. In `extend(false, a, b, a)`, for example, the third argument would already hold `b`'s properties.
- Extend.Extend: prototype-inherited and non-enumerable properties, non-object truthy arguments, and the implicit globals `obj` and `prop` are not modelled.
- JavaScript numbers are modelled as integers, so fractional numbers and NaN are not represented.
- TailingStream.TailingReadableStream.Open: requires `start`, when given, to be a non-negative integer. Any other value makes the offset arithmetic meaningless: NaN or string concatenation.
- TailingStream.TailingReadableStream.Open: `_paused` is stored as the truthiness of `startPaused`. The source keeps the raw value but only ever tests its truthiness.
- TailingStream.TailingReadableStream.Watch: requires that no watcher is running. Both callers guarantee this: `open` acts on a new stream, and `resume` acts only on a paused one. The model has no representation for a second, leaked watcher.
- The live read's options are not stored separately (`StreamOptions`). They always equal the stored options with `start` replaced, because `setEncoding` updates both alike.
- TailingStream.TailingReadableStream.OnData: the model lets a paused read deliver chunks. The handler does not check for this, and whether a paused read can deliver is up to the read stream.
