/**
 * The TailingReadableStream state machine: a file watcher whose notifications
 * open ranged reads from the last emitted offset, an inactivity timer that
 * ends the stream, and pause/resume/destroy.
 *
 * The watcher, the ranged reader and the timer are not modelled as objects:
 * each handle is a boolean field, and each callback they would deliver is a
 * method the environment calls (OnChange, OnData, OnReadEnd, OnReadError,
 * OnWatcherError, TimeoutKillswitch). What the stream emits is appended to
 * `events`.
 */
module TailingStream {
  import opened JsValues
  import Extend

  newtype byte = x: int | 0 <= x < 256

  /** An event emitted by the stream. */
  datatype Event = Data(chunk: seq<byte>) | Error(cause: string) | End | Close

  const DefaultTimeout: Value := Num(5000)
  const DefaultEncoding: Value := Str("utf8")

  /** The bytes carried by the Data events of a log, in order. */
  function DataBytes(log: seq<Event>): seq<byte>
    decreases |log|
  {
    if log == [] then [] else DataBytes(log[..|log| - 1]) + Payload(log[|log| - 1])
  }

  function Payload(e: Event): seq<byte> {
    if e.Data? then e.chunk else []
  }

  lemma {:induction false} DataBytesAppend(a: seq<Event>, b: seq<Event>)
    ensures DataBytes(a + b) == DataBytes(a) + DataBytes(b)
    decreases |b|
  {
    if b == [] {
      assert a + b == a;
    } else {
      var b', e := b[..|b| - 1], b[|b| - 1];
      var ab := a + b;
      assert ab[..|ab| - 1] == a + b' && ab[|ab| - 1] == e;
      assert DataBytes(ab) == DataBytes(a + b') + Payload(e);
      assert DataBytes(b) == DataBytes(b') + Payload(e);
      DataBytesAppend(a, b');
      assert DataBytes(a) + DataBytes(b') + Payload(e) == DataBytes(a) + (DataBytes(b') + Payload(e));
    }
  }

  /** `options || {}` */
  function OptionsOrEmpty(options: Option<Props>): Props {
    match options
    case None => map[]
    case Some(o) => o
  }

  /** A `start` option, when given, is a byte offset. */
  predicate StartIsOffset(o: Props) {
    "start" in o ==> o["start"].Num? && o["start"].n >= 0
  }

  /** `encoding || 'utf8'`: never falsy, and the given encoding whenever it is truthy. */
  function EncodingOrDefault(encoding: Value): (r: Value)
    ensures Truthy(r)
    ensures Truthy(encoding) ==> r == encoding
    ensures !Truthy(encoding) ==> r == DefaultEncoding
  {
    if Truthy(encoding) then encoding else DefaultEncoding
  }

  class TailingReadableStream {
    var readable: bool
    var timeout: Value
    /** Options given to every read the stream opens (never holds `end`). */
    var readOptions: Props
    var path: Option<string>
    var offset: nat
    var paused: bool
    var events: seq<Event>

    // the three handles
    var hasStream: bool
    var streamPaused: bool
    /** The offset the live read started at. */
    var streamStart: nat
    var hasWatcher: bool
    var timerArmed: bool

    /** The offset the stream was opened at. */
    ghost var startOffset: nat

    ghost predicate Valid()
      reads this
    {
      // while paused no watcher runs, and so no timer either
      && (paused ==> !hasWatcher)
      && (timerArmed ==> hasWatcher)
      && (streamPaused ==> hasStream)
      && (paused && hasStream ==> streamPaused)
      // a read is only ever open on a readable stream
      && (hasStream ==> readable)
      // the offset is the start plus every byte emitted so far
      && offset == startOffset + |DataBytes(events)|
      // the live read started at or before the offset
      && (hasStream ==> streamStart <= offset)
    }

    /**
     * The options the live read runs with: the stored options with `start`
     * set to where it began. Its encoding follows `setEncoding`, which updates
     * the stored options and the live read alike.
     */
    function StreamOptions(): Props
      reads this
    {
      readOptions["start" := Num(streamStart)]
    }

    /** The state every termination path leaves. */
    predicate TornDown()
      reads this
    {
      !hasWatcher && !timerArmed && !hasStream && !streamPaused && !readable && !paused
    }

    /**
     * The change handler's effect on the read handle: a read is opened exactly
     * when none exists, the stream is readable and the notification is a
     * 'change'; it starts at the current offset with the stored options.
     * Otherwise the read handle is untouched.
     */
    twostate predicate ReadOpenedOnChange(kind: string)
      reads this
    {
      var opens := !old(hasStream) && old(readable) && kind == "change";
      && hasStream == (old(hasStream) || opens)
      && (opens ==> !streamPaused && streamStart == old(offset))
      && (!opens ==> streamPaused == old(streamPaused) && streamStart == old(streamStart))
    }

    /**
     * `TailingReadableStream.open(path, options)`: a stream with the
     * constructor's defaults (readable, timeout 5000, offset 0, not paused, no
     * handles), then `timeout`, `start` and `startPaused` taken from the
     * options when present, the options minus `end` stored for reads, and,
     * unless paused, the watcher started.
     */
    constructor Open(path: string, options: Option<Props>)
      requires StartIsOffset(OptionsOrEmpty(options))
      ensures Valid()
      ensures var o := OptionsOrEmpty(options);
        && timeout == (if "timeout" in o then o["timeout"] else DefaultTimeout)
        && offset == (if "start" in o then o["start"].n else 0)
        && paused == ("startPaused" in o && Truthy(o["startPaused"]))
        && readOptions == o - {"end"}
      ensures this.path == Some(path) && readable && events == []
      ensures startOffset == offset
      // started paused: nothing runs
      ensures paused ==> !hasWatcher && !timerArmed && !hasStream
      // otherwise the kick-start opened a read at the start offset and armed the timer
      ensures !paused ==> hasWatcher && timerArmed == Truthy(timeout)
      ensures !paused ==> hasStream && !streamPaused && streamStart == offset
    {
      var o := OptionsOrEmpty(options);
      readable := true;
      timeout := if "timeout" in o then o["timeout"] else DefaultTimeout;
      offset := if "start" in o then o["start"].n else 0;
      paused := if "startPaused" in o then Truthy(o["startPaused"]) else false;
      // the stored options start empty; `extend` copies the given ones in
      var stored := Extend.Extend(false, [Some(map[]), Some(o)]);
      Extend.CopyIntoEmpty(o);
      readOptions := stored.value - {"end"};
      this.path := Some(path);
      events := [];
      hasStream, streamPaused, streamStart := false, false, 0;
      hasWatcher, timerArmed := false, false;
      startOffset := offset;
      new;
      if !paused {
        Watch();
      }
    }

    /** `_watch`: subscribe to the file, then deliver one synthetic 'change'. */
    method Watch()
      requires Valid() && !paused && !hasWatcher
      modifies this`hasWatcher, this`timerArmed, this`hasStream, this`streamPaused, this`streamStart
      ensures Valid() && hasWatcher && timerArmed == Truthy(timeout)
      ensures ReadOpenedOnChange("change")
    {
      hasWatcher := true;
      OnChange("change");
    }

    /** The watcher's 'change' listener, for a notification of the given kind. */
    method OnChange(kind: string)
      requires Valid() && hasWatcher
      modifies this`timerArmed, this`hasStream, this`streamPaused, this`streamStart
      ensures Valid() && timerArmed == Truthy(timeout)
      ensures ReadOpenedOnChange(kind)
    {
      ResetTimeoutKillswitch();
      if !hasStream && readable && kind == "change" {
        // The source opens the read with `extend(false, {}, options)` and then
        // sets `start`. The model does not store that copy: the assertion shows
        // it agrees with the derived StreamOptions().
        var copy := Extend.Extend(false, [Some(map[]), Some(readOptions)]);
        Extend.CopyIntoEmpty(readOptions);
        hasStream, streamPaused, streamStart := true, false, offset;
        assert StreamOptions() == copy.value["start" := Num(offset)];
      }
    }

    /** The read's 'data' listener: advance the offset, then forward the chunk. */
    method OnData(chunk: seq<byte>)
      requires Valid() && hasStream
      modifies this`offset, this`events
      ensures Valid()
      ensures offset == old(offset) + |chunk|
      ensures events == old(events) + [Data(chunk)]
    {
      DataBytesAppend(events, [Data(chunk)]);
      offset := offset + |chunk|;
      events := events + [Data(chunk)];
    }

    /** The read's 'end' listener: release the read so the next 'change' opens a new one. */
    method OnReadEnd()
      requires Valid() && hasStream
      modifies this`hasStream, this`streamPaused
      ensures Valid() && !hasStream && !streamPaused
    {
      hasStream, streamPaused := false, false;
    }

    /** The read's 'error' listener. */
    method OnReadError(cause: string)
      requires Valid() && hasStream
      modifies this`paused, this`hasWatcher, this`timerArmed, this`hasStream, this`streamPaused, this`readable,
               this`events
      ensures Valid() && TornDown()
      ensures events == old(events) + [Error(cause), Close]
    {
      Teardown();
      Emit([Error(cause), Close]);
    }

    /** The watcher's 'error' listener. */
    method OnWatcherError(cause: string)
      requires Valid() && hasWatcher
      modifies this`paused, this`hasWatcher, this`timerArmed, this`hasStream, this`streamPaused, this`readable,
               this`events
      ensures Valid() && TornDown()
      ensures events == old(events) + [Error(cause), Close]
    {
      Teardown();
      Emit([Error(cause), Close]);
    }

    /** `setEncoding(encoding)` */
    method SetEncoding(encoding: Value)
      requires Valid()
      modifies this`readOptions
      ensures Valid()
      ensures readOptions == old(readOptions)["encoding" := EncodingOrDefault(encoding)]
      ensures StreamOptions() == old(StreamOptions())["encoding" := EncodingOrDefault(encoding)]
    {
      readOptions := readOptions["encoding" := EncodingOrDefault(encoding)];
    }

    /** `pause()`: stop the watcher and the timer, pause the read but keep it. */
    method Pause()
      requires Valid()
      modifies this`paused, this`hasWatcher, this`timerArmed, this`streamPaused
      ensures Valid()
      ensures old(paused) ==> unchanged(this)
      ensures paused && !hasWatcher && !timerArmed && streamPaused == hasStream
    {
      if !paused {
        paused := true;
        hasWatcher := false;
        timerArmed := false;
        if hasStream {
          streamPaused := true;
        }
      }
    }

    /** `resume()`: watch again (with a synthetic 'change') and resume the read. */
    method Resume()
      requires Valid()
      modifies this`paused, this`hasWatcher, this`timerArmed, this`hasStream, this`streamPaused, this`streamStart
      ensures Valid()
      ensures !old(paused) ==> unchanged(this)
      ensures old(paused) ==> !paused && hasWatcher && timerArmed == Truthy(timeout) && !streamPaused
      // an existing read is kept; otherwise a readable stream opens one at the offset
      ensures old(paused) ==> hasStream == readable
      ensures old(paused) && old(hasStream) ==> streamStart == old(streamStart)
      ensures old(paused) && !old(hasStream) && readable ==> streamStart == offset
    {
      if paused {
        paused := false;
        Watch();
        if hasStream {
          streamPaused := false;
        }
      }
    }

    /** `_resetTimeoutKillswitch`: cancel the timer, and arm a new one unless the timeout is falsy. */
    method ResetTimeoutKillswitch()
      requires Valid() && hasWatcher
      modifies this`timerArmed
      ensures Valid() && timerArmed == Truthy(timeout)
    {
      timerArmed := false;
      if Truthy(timeout) {
        timerArmed := true;
      }
    }

    /** `_destroy`: pause, destroy any read, and mark the stream neither readable nor paused. */
    method Teardown()
      requires Valid()
      modifies this`paused, this`hasWatcher, this`timerArmed, this`hasStream, this`streamPaused, this`readable
      ensures Valid() && TornDown()
    {
      Pause();
      if hasStream {
        hasStream, streamPaused := false, false;
      }
      readable := false;
      paused := false;
    }

    /** The timer's callback, `_timeoutKillswitch`: tear down, then emit End and Close. */
    method TimeoutKillswitch()
      requires Valid() && timerArmed
      modifies this`paused, this`hasWatcher, this`timerArmed, this`hasStream, this`streamPaused, this`readable,
               this`events
      ensures Valid() && TornDown()
      ensures events == old(events) + [End, Close]
    {
      Teardown();
      Emit([End, Close]);
    }

    /** `destroy()`: tear down, then emit Close only. */
    method Destroy()
      requires Valid()
      modifies this`paused, this`hasWatcher, this`timerArmed, this`hasStream, this`streamPaused, this`readable,
               this`events
      ensures Valid() && TornDown()
      ensures events == old(events) + [Close]
    {
      Teardown();
      Emit([Close]);
    }

    /** Appends events that carry no data. */
    method Emit(es: seq<Event>)
      requires Valid()
      requires forall i :: 0 <= i < |es| ==> !es[i].Data?
      modifies this`events
      ensures Valid() && events == old(events) + es
    {
      NoData(es);
      DataBytesAppend(events, es);
      events := events + es;
    }
  }

  lemma {:induction false} NoData(es: seq<Event>)
    requires forall i :: 0 <= i < |es| ==> !es[i].Data?
    ensures DataBytes(es) == []
    decreases |es|
  {
    if es != [] {
      NoData(es[..|es| - 1]);
    }
  }
}
