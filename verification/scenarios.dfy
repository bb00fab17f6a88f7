/**
 * Client scenarios of the engine that follow documented behaviour step by
 * step, verified from the contracts of `FifoLogger`'s methods alone.
 */
module Scenarios {
  import opened Wrappers
  import opened Config
  import opened Format
  import opened Rotation
  import opened Engine

  function FileOptions(minLogLevel: int, fileName: string): Options
  {
    Options("", minLogLevel, 0, File, false, false, fileName, 0, false, 0)
  }

  /** A fresh logger initialised for a named log file: stream open, dequeue timer armed, nothing queued. */
  method NewFileLogger(minLogLevel: int, fileName: string) returns (logger: FifoLogger)
    requires fileName != ""
    ensures fresh(logger) && logger.Valid()
    ensures logger.settings.Some? && logger.settings.value.minLogLevel == minLogLevel
    ensures logger.fileName == fileName && logger.hasStream && logger.timeoutSet && logger.dequeueArmed
    ensures logger.queue == [] && logger.written == [] && logger.pendingEnds == [] && logger.pendingRetries == []
    ensures logger.initialized && !logger.closeRequested && logger.retryCount == 0
  {
    logger := new FifoLogger();
    logger.Init(FileOptions(minLogLevel, fileName));
  }

  /**
   * Minimum level WARNING, file destination: an INFO event is dropped and
   * an ERROR event is queued.
   */
  method SeverityFilter(date: string, jsonText: string) returns (logger: FifoLogger, line: string)
    ensures fresh(logger) && logger.Valid()
    ensures logger.settings.Some? && logger.queue == [line]
    ensures line == BuildMessage(logger.settings.value, LevelError, "y", date, [], jsonText)
    ensures logger.hasStream && logger.pendingEnds == [] && logger.written == [] && !logger.closeRequested
  {
    logger := NewFileLogger(LevelWarning, "/tmp/t.log");

    var out := logger.Log(LevelInfo, "x", [], date, jsonText);
    assert logger.queue == [] && out == None;

    out := logger.Log(LevelError, "y", [], date, jsonText);
    line := BuildMessage(logger.settings.value, LevelError, "y", date, [], jsonText);
    assert logger.queue == [line];
  }

  /**
   * Closing writes the queued line; events logged while the close is under
   * way are dropped, and the close callback runs once the stream has ended.
   */
  method CloseWritesQueue(date: string, jsonText: string)
  {
    var logger, line := SeverityFilter(date, jsonText);

    var calledBack := logger.Close(true);
    assert logger.written == Terminated([line]);
    assert logger.written[0] == line + "\n" && |logger.written| == 1;
    assert !calledBack && logger.pendingEnds == [CloseEnd(true)];

    var out := logger.Log(LevelCritical, "z", [], date, jsonText);
    assert logger.queue == [] && out == None;

    calledBack := logger.EndCompleted(LocalTime(2024, 0, 1, 0, 0, 0));
    assert calledBack && !logger.initialized && !logger.closeRequested;
  }

  /**
   * A close that completes resets the lifecycle flags but leaves the
   * dequeue timer's handle set, with no timer pending.
   */
  method CompletedClose() returns (logger: FifoLogger)
    ensures fresh(logger) && logger.Valid()
    ensures logger.timeoutSet && !logger.dequeueArmed && logger.hasStream
    ensures !logger.initialized && !logger.closeRequested && logger.queue == []
  {
    logger := NewFileLogger(LevelInfo, "app.log");
    var calledBack := logger.Close(false);
    assert logger.pendingEnds == [CloseEnd(false)];
    calledBack := logger.EndCompleted(LocalTime(2024, 0, 1, 0, 0, 0));
  }

  /**
   * After a completed close and a new `init`, the handle left set means
   * neither `Init` nor `Log` arms the dequeue timer: accepted lines stay
   * queued until the next close.
   */
  method NoDrainAfterReinit(message: string, date: string, jsonText: string)
  {
    var logger := CompletedClose();
    logger.Init(FileOptions(LevelInfo, "app.log"));
    assert !logger.dequeueArmed && !logger.closeRequested && logger.Accepts(LevelInfo);
    var line := BuildMessage(logger.settings.value, LevelInfo, message, date, [], jsonText);
    var out := logger.Log(LevelInfo, message, [], date, jsonText);
    assert !logger.dequeueArmed;
    assert logger.queue == [line];
  }

  /**
   * Repeated stream errors without a successful reopen schedule reopens
   * after 1, 2, 3, 4 and 5 seconds; the sixth error turns file logging off.
   */
  method RetriesRunOut()
  {
    var logger := NewFileLogger(LevelInfo, "app.log");
    logger.OnStreamError();
    assert logger.retryCount == 1 && logger.pendingRetries == [1000];
    logger.OnStreamError();
    assert logger.retryCount == 2 && logger.pendingRetries == [1000, 2000];
    logger.OnStreamError();
    assert logger.retryCount == 3 && logger.pendingRetries == [1000, 2000, 3000];
    logger.OnStreamError();
    assert logger.retryCount == 4 && logger.pendingRetries == [1000, 2000, 3000, 4000];
    logger.OnStreamError();
    assert logger.retryCount == 5 && logger.pendingRetries == [1000, 2000, 3000, 4000, 5000];
    assert logger.fileName == "app.log";
    logger.OnStreamError();
    assert logger.fileName == "" && logger.retryCount == 5;
  }
}
