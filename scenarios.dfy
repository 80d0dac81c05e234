/**
 * Clients of the stream model: each drives one stream through a sequence of
 * callbacks and states what a consumer observes, using nothing but the
 * contracts of the stream's methods.
 */
module Scenarios {
  import opened JsValues
  import opened TailingStream

  /**
   * A file holding "A" is opened with timeout 5000 and start 0, and "BC" is
   * appended later: the kick-start emits "A", the append's notification
   * opens a second read at offset 1, which emits "BC".
   */
  method KickStartThenAppend() returns (secondReadFrom: nat, log: seq<Event>, offset: nat)
    ensures secondReadFrom == 1
    ensures log == [Data([65]), Data([66, 67])]
    ensures offset == 3
  {
    var o := map["timeout" := Num(5000), "start" := Num(0)];
    assert "startPaused" !in o;
    var s := new TailingReadableStream.Open("f", Some(o));
    // the synthetic kick-start opened a read at offset 0
    s.OnData([65]);
    s.OnReadEnd();
    s.OnChange("change");
    secondReadFrom := s.streamStart;
    s.OnData([66, 67]);
    log, offset := s.events, s.offset;
  }

  /**
   * Opened at `start` on a file that then stays quiet: the kick-start read
   * begins at `start` and emits the rest of the file once; the timer then
   * emits End and Close.
   */
  method OpenMidFile(start: nat, tail: seq<byte>) returns (readFrom: Value, log: seq<Event>, offset: nat)
    ensures readFrom == Num(start)
    ensures log == [Data(tail), End, Close]
    ensures offset == start + |tail|
  {
    var o := map["start" := Num(start)];
    assert "startPaused" !in o && "timeout" !in o;
    var s := new TailingReadableStream.Open("f", Some(o));
    readFrom := s.StreamOptions()["start"];
    s.OnData(tail);
    s.OnReadEnd();
    s.TimeoutKillswitch();
    log, offset := s.events, s.offset;
  }

  /**
   * Pausing in the middle of a read keeps that read and the offset: after
   * resume no second read is opened and the bytes continue where they stopped.
   */
  method PauseMidRead(a: seq<byte>, b: seq<byte>) returns (readFrom: nat, log: seq<Event>, offset: nat)
    ensures readFrom == 0
    ensures log == [Data(a), Data(b)]
    ensures offset == |a| + |b|
  {
    var s := new TailingReadableStream.Open("f", None);
    s.OnData(a);
    s.Pause();
    s.Resume();
    s.OnData(b);
    readFrom := s.streamStart;
    log, offset := s.events, s.offset;
  }

  /** A notification that is not a 'change' opens no read but still re-arms the timer. */
  method RenameOpensNothing() returns (reading: bool, armed: bool)
    ensures !reading && armed
  {
    var s := new TailingReadableStream.Open("f", None);
    s.OnReadEnd();
    s.OnChange("rename");
    reading, armed := s.hasStream, s.timerArmed;
  }

  /** With timeout 0 the kick-start leaves no timer armed. */
  method ZeroTimeoutNeverArms() returns (armed: bool)
    ensures !armed
  {
    var o := map["timeout" := Num(0)];
    assert "startPaused" !in o;
    var s := new TailingReadableStream.Open("f", Some(o));
    s.OnReadEnd();
    s.OnChange("change");
    armed := s.timerArmed;
  }

  /**
   * Close is not terminal: after destroy, pause and resume subscribe a
   * watcher and arm the timer again (no read opens, the stream is no longer
   * readable), and the timer then emits End and a second Close.
   */
  method CloseIsNotTerminal() returns (log: seq<Event>, reading: bool)
    ensures log == [Close, End, Close]
    ensures !reading
  {
    var s := new TailingReadableStream.Open("f", None);
    s.Destroy();
    s.Pause();
    s.Resume();
    reading := s.hasStream;
    s.TimeoutKillswitch();
    log := s.events;
  }

  /** A read error and a watcher error both emit Error then Close. */
  method ErrorsCloseTheStream(cause: string) returns (readLog: seq<Event>, watchLog: seq<Event>)
    ensures readLog == [Error(cause), Close]
    ensures watchLog == [Error(cause), Close]
  {
    var r := new TailingReadableStream.Open("f", None);
    r.OnReadError(cause);
    readLog := r.events;
    var w := new TailingReadableStream.Open("f", None);
    w.OnWatcherError(cause);
    watchLog := w.events;
  }
}
