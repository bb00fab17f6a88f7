/**
 * The logging engine: the single `FifoLogger` whose fields hold the
 * configuration, the queue of formatted lines, the stream and timer handles
 * and the retry and rotation flags, and whose methods are the calls a
 * client makes (`Init`, `Log`, `Close`) and the callbacks the platform makes
 * (the dequeue timer, the stream's 'drain', 'error' and end-of-stream
 * notifications, the retry timer and the rotation timer).
 *
 * Platform I/O is abstract: the stream is a flag saying whether a handle is
 * held, a write's answer ("can accept more") is unconstrained, and the
 * ghost `written` records every line handed to a stream, in order. Timers
 * are flags saying that a callback is pending; firing one is a call of the
 * matching method.
 */
module Engine {
  import opened Wrappers
  import opened Config
  import opened Format
  import opened Rotation

  const MaxStreamErrorRetries: nat := 5
  const StreamErrorRetryDelayMs: nat := 1000
  /** Period of the rotation timer; timers are not simulated, so it only documents the schedule. */
  const ToRejuvenateMs: nat := 10000

  /** What the error handler does with the retry counter. */
  datatype RetryStep = Retry(count: nat, delayMs: nat) | GiveUp

  /** Below the cap the counter goes up by one and the reopen waits 1000 ms per attempt; at the cap, give up. */
  function NextRetry(count: nat): (r: RetryStep)
    ensures r.Retry? <==> count < MaxStreamErrorRetries
    ensures r.Retry? ==> r.count == count + 1 && r.count <= MaxStreamErrorRetries
    ensures r.Retry? ==> r.delayMs == StreamErrorRetryDelayMs * r.count
  {
    if count < MaxStreamErrorRetries then
      var c := count + 1;
      Retry(c, StreamErrorRetryDelayMs * c)
    else
      GiveUp
  }

  /** The reopen delays scheduled by consecutive stream errors, starting from counter `count`, until giving up. */
  function ConsecutiveDelays(count: nat): seq<nat>
    decreases MaxStreamErrorRetries - count
  {
    match NextRetry(count)
    case Retry(c, d) => [d] + ConsecutiveDelays(c)
    case GiveUp => []
  }

  /** Back-off is linear and bounded: from counter c, errors schedule 1000·(c+1), …, 5000 ms, then file logging stops. */
  lemma {:induction false} ConsecutiveDelaysShape(count: nat)
    requires count <= MaxStreamErrorRetries
    ensures |ConsecutiveDelays(count)| == MaxStreamErrorRetries - count
    ensures forall i :: 0 <= i < |ConsecutiveDelays(count)| ==>
      ConsecutiveDelays(count)[i] == StreamErrorRetryDelayMs * (count + 1 + i)
    decreases MaxStreamErrorRetries - count
  {
    if count < MaxStreamErrorRetries {
      ConsecutiveDelaysShape(count + 1);
      var ds := ConsecutiveDelays(count);
      assert ds == [StreamErrorRetryDelayMs * (count + 1)] + ConsecutiveDelays(count + 1);
    }
  }

  /** The text handed to the stream for each line: the line and a newline. */
  function Terminated(lines: seq<string>): (r: seq<string>)
    ensures |r| == |lines|
    ensures forall i :: 0 <= i < |lines| ==> r[i] == lines[i] + "\n"
  {
    if lines == [] then [] else [lines[0] + "\n"] + Terminated(lines[1..])
  }

  /** The callback passed to the stream's `end`, run once the stream has flushed. */
  datatype EndCallback = CloseEnd(hasCallback: bool) | RejuvenateEnd

  class FifoLogger {
    /** The formatting part of `cfg`; None until the first `Init`. */
    var settings: Option<Settings>
    /** `cfg.fileName`: '' when file logging is off. */
    var fileName: string
    /** A write stream is held (`_logWriteStream` is not null). */
    var hasStream: bool
    /** `_logQueueItems`: formatted lines waiting for the stream, oldest first. */
    var queue: seq<string>
    /** `_bCanWritemore`: the stream's last answer, reset by 'drain'. */
    var canWriteMore: bool
    /** The `_timeout` handle is not null. */
    var timeoutSet: bool
    /** A dequeue timer callback is actually pending. */
    var dequeueArmed: bool
    var closeRequested: bool
    var initialized: bool
    /** `_streamErrorRetryCount` */
    var retryCount: nat
    /** Delays of the reopen callbacks scheduled and not yet run, oldest first. */
    var pendingRetries: seq<nat>
    /** The `_rejuvenateTimeout` handle is not null. */
    var rejuvenateTimeoutSet: bool
    var mustRejuvenate: bool
    var rejuvenateSizeMB: int
    /** Callbacks passed to `end` whose stream has not finished yet, oldest first. */
    var pendingEnds: seq<EndCallback>

    /** Every text handed to a stream's `write`, in order. */
    ghost var written: seq<string>
    /** Every line ever pushed on the queue, in order. */
    ghost var accepted: seq<string>
    /** Every line ever taken off the queue, in order. */
    ghost var removed: seq<string>
    /** The names live files were renamed to by rotation, in order. */
    ghost var archives: seq<string>

    ghost predicate Valid()
      reads this
    {
      && retryCount <= MaxStreamErrorRetries
      && (dequeueArmed ==> timeoutSet)
      // the queue is always the not-yet-removed tail of what was accepted: nothing reordered
      && accepted == removed + queue
      && (forall i :: 0 <= i < |pendingRetries| ==>
            StreamErrorRetryDelayMs <= pendingRetries[i] <= StreamErrorRetryDelayMs * MaxStreamErrorRetries)
    }

    /** The static fields' initial values. */
    constructor ()
      ensures Valid()
      ensures settings == None && fileName == "" && !hasStream && queue == [] && canWriteMore
      ensures !timeoutSet && !dequeueArmed && !closeRequested && !initialized
      ensures retryCount == 0 && pendingRetries == [] && !rejuvenateTimeoutSet && !mustRejuvenate
      ensures rejuvenateSizeMB == 10 && pendingEnds == []
      ensures written == [] && accepted == [] && removed == [] && archives == []
    {
      settings := None;
      fileName := "";
      hasStream := false;
      queue := [];
      canWriteMore := true;
      timeoutSet := false;
      dequeueArmed := false;
      closeRequested := false;
      initialized := false;
      retryCount := 0;
      pendingRetries := [];
      rejuvenateTimeoutSet := false;
      mustRejuvenate := false;
      rejuvenateSizeMB := 10;
      pendingEnds := [];
      written := [];
      accepted := [];
      removed := [];
      archives := [];
    }

    /** The level passes the configured minimum (never before the first `Init`). */
    predicate Accepts(level: int)
      reads this
    {
      settings.Some? && level >= settings.value.minLogLevel
    }

    /** The filter is a threshold: a level that passes lets every higher level pass. */
    lemma AcceptsUpward(level: int, higher: int)
      requires Accepts(level) && level <= higher
      ensures Accepts(higher)
    {
    }

    // ------------------------------------------------------------ lifecycle

    /**
     * A no-op once initialised. Otherwise installs the defaulted settings,
     * opens the file stream and arms the dequeue timer for a FILE
     * destination with a name, and arms the rotation timer when rotation is
     * fully requested. Fields it does not set (the queue, the flags, and the
     * file name when no file is configured) keep their values.
     */
    method Init(flc: Options)
      requires Valid()
      modifies this`settings, this`fileName, this`hasStream, this`timeoutSet, this`dequeueArmed
      modifies this`rejuvenateSizeMB, this`rejuvenateTimeoutSet, this`initialized
      ensures Valid()
      ensures initialized
      ensures old(initialized) ==> unchanged(this)
      ensures !old(initialized) ==> settings == Some(Resolve(flc))
      ensures !old(initialized) && OpensFile(flc) ==>
        fileName == flc.fileName && hasStream && timeoutSet && dequeueArmed == (old(dequeueArmed) || !old(timeoutSet))
      ensures !OpensFile(flc) ==>
        fileName == old(fileName) && hasStream == old(hasStream)
        && timeoutSet == old(timeoutSet) && dequeueArmed == old(dequeueArmed)
      ensures !old(initialized) && RotationRequested(flc) ==>
        rejuvenateSizeMB == flc.rejuvenateSizeMB && rejuvenateTimeoutSet
      ensures !RotationRequested(flc) ==>
        rejuvenateSizeMB == old(rejuvenateSizeMB) && rejuvenateTimeoutSet == old(rejuvenateTimeoutSet)
    {
      if initialized {
        return;
      }
      settings := Some(Resolve(flc));
      if OpensFile(flc) {
        fileName := flc.fileName;
        OpenStream();
        SetDequeueTimeout();
      }
      if RotationRequested(flc) {
        rejuvenateSizeMB := flc.rejuvenateSizeMB;
        rejuvenateTimeoutSet := true;
      }
      initialized := true;
    }

    /** Creating the append-mode stream (its 'drain' and 'error' handlers are `OnDrain` and `OnStreamError`). */
    method OpenStream()
      modifies this`hasStream
      ensures hasStream
    {
      hasStream := true;
    }

    /** Arms the dequeue timer unless the handle is already set. */
    method SetDequeueTimeout()
      requires Valid()
      modifies this`timeoutSet, this`dequeueArmed
      ensures Valid()
      ensures timeoutSet
      ensures dequeueArmed == (old(dequeueArmed) || !old(timeoutSet))
    {
      if !timeoutSet {
        timeoutSet := true;
        dequeueArmed := true;
      }
    }

    /**
     * Marks the close, cancels the dequeue timer (leaving its handle set),
     * writes out the whole queue, then ends the stream; the rest of the
     * shutdown happens in `EndCompleted`. Without a stream the callback runs
     * at once and the flags stay as they are, `closeRequested` included.
     */
    method Close(hasCallback: bool) returns (calledBack: bool)
      requires Valid()
      modifies this`closeRequested, this`dequeueArmed, this`queue, this`removed, this`written
      modifies this`canWriteMore, this`pendingEnds
      ensures Valid()
      ensures closeRequested && !dequeueArmed
      ensures hasStream ==>
        queue == [] && written == old(written) + Terminated(old(queue))
        && pendingEnds == old(pendingEnds) + [CloseEnd(hasCallback)] && !calledBack
        && (old(queue) == [] ==> canWriteMore == old(canWriteMore))
      ensures !hasStream ==>
        queue == old(queue) && written == old(written) && pendingEnds == old(pendingEnds)
        && canWriteMore == old(canWriteMore) && calledBack == hasCallback
    {
      closeRequested := true;
      if timeoutSet {
        dequeueArmed := false;
      }
      Flush();
      if hasStream {
        pendingEnds := pendingEnds + [CloseEnd(hasCallback)];
        calledBack := false;
      } else {
        calledBack := hasCallback;
      }
    }

    /**
     * The oldest pending `end` callback runs. After a close it resets the
     * lifecycle flags and the retry counter, empties the queue and calls the
     * client back. After a rotation it renames the live file to its archive
     * name (stamped with `now`), opens a fresh stream and resumes writing.
     */
    method EndCompleted(now: LocalTime) returns (calledBack: bool)
      requires Valid() && pendingEnds != []
      modifies this`pendingEnds, this`initialized, this`closeRequested, this`retryCount
      modifies this`queue, this`removed, this`archives, this`hasStream, this`canWriteMore
      ensures Valid()
      ensures pendingEnds == old(pendingEnds)[1..]
      ensures retryCount == 0
      ensures old(pendingEnds)[0].CloseEnd? ==>
        && !initialized && !closeRequested && queue == [] && removed == old(removed) + old(queue)
        && calledBack == old(pendingEnds)[0].hasCallback
        && archives == old(archives) && hasStream == old(hasStream) && canWriteMore == old(canWriteMore)
      ensures old(pendingEnds)[0].RejuvenateEnd? ==>
        && archives == old(archives) + [ArchiveName(fileName, Stamp(now))]
        && hasStream && canWriteMore && !calledBack
        && initialized == old(initialized) && closeRequested == old(closeRequested) && queue == old(queue)
        && removed == old(removed)
    {
      var callback := pendingEnds[0];
      pendingEnds := pendingEnds[1..];
      match callback
      case CloseEnd(hasCallback) =>
        CloseCompleted();
        calledBack := hasCallback;
      case RejuvenateEnd =>
        RotationCompleted(now);
        calledBack := false;
    }

    /** The `end` callback of `close`: the lifecycle is reset and the queue discarded. */
    method CloseCompleted()
      requires Valid()
      modifies this`initialized, this`closeRequested, this`retryCount, this`queue, this`removed
      ensures Valid()
      ensures !initialized && !closeRequested && retryCount == 0
      ensures queue == [] && removed == old(removed) + old(queue)
    {
      initialized := false;
      closeRequested := false;
      retryCount := 0;
      removed := removed + queue;
      queue := [];
    }

    /**
     * The `end` callback of a rotation: the live file is renamed to its
     * archive name stamped with `now`, and a fresh stream is opened.
     */
    method RotationCompleted(now: LocalTime)
      requires Valid()
      modifies this`retryCount, this`archives, this`hasStream, this`canWriteMore
      ensures Valid()
      ensures retryCount == 0 && hasStream && canWriteMore
      ensures archives == old(archives) + [ArchiveName(fileName, Stamp(now))]
    {
      retryCount := 0;
      var archFile := ArchiveName(fileName, Stamp(now));
      archives := archives + [archFile];
      OpenStream();
      canWriteMore := true;
    }

    // ------------------------------------------------------------ logging

    /**
     * Logs one event: nothing at all once a close is requested; otherwise
     * re-arms the dequeue timer when its handle is clear and a file stream
     * is held, and, when the level passes the minimum, renders the line and
     * queues it (file logging) or returns it for the console.
     */
    method Log(level: int, message: string, attachments: seq<string>, date: string, jsonText: string)
      returns (console: Option<string>)
      requires Valid()
      modifies this`queue, this`accepted, this`timeoutSet, this`dequeueArmed
      ensures Valid()
      ensures old(closeRequested) ==> unchanged(this) && console == None
      ensures !old(closeRequested) ==>
        && timeoutSet == (old(timeoutSet) || (hasStream && fileName != ""))
        && dequeueArmed == (old(dequeueArmed) || (!old(timeoutSet) && hasStream && fileName != ""))
      ensures !old(closeRequested) && Accepts(level) && fileName != "" ==>
        && queue == old(queue) + [BuildMessage(settings.value, level, message, date, attachments, jsonText)]
        && console == None
      ensures !old(closeRequested) && Accepts(level) && fileName == "" ==>
        && queue == old(queue)
        && console == Some(BuildMessage(settings.value, level, message, date, attachments, jsonText))
      ensures !Accepts(level) ==> queue == old(queue) && accepted == old(accepted) && console == None
    {
      if closeRequested {
        return None;
      }
      if !timeoutSet && hasStream && fileName != "" {
        SetDequeueTimeout();
      }
      console := None;
      if Accepts(level) {
        var msg := BuildMessage(settings.value, level, message, date, attachments, jsonText);
        console := WriteMessage(msg);
      }
    }

    /** Queues the line when a file name is configured, else sends it to the console. */
    method WriteMessage(msg: string) returns (console: Option<string>)
      requires Valid()
      modifies this`queue, this`accepted
      ensures Valid()
      ensures fileName != "" ==> queue == old(queue) + [msg] && accepted == old(accepted) + [msg] && console == None
      ensures fileName == "" ==> queue == old(queue) && accepted == old(accepted) && console == Some(msg)
    {
      if fileName != "" {
        queue := queue + [msg];
        accepted := accepted + [msg];
        console := None;
      } else {
        console := Some(msg);
      }
    }

    /** Hands one line and a newline to the stream; its answer says whether it accepts more. */
    method WriteFile(msg: string)
      requires Valid() && hasStream
      modifies this`written, this`canWriteMore
      ensures Valid()
      ensures written == old(written) + [msg + "\n"]
    {
      written := written + [msg + "\n"];
      canWriteMore := *;
    }

    // ------------------------------------------------------------ draining

    /**
     * The dequeue timer fires. It writes queued lines, oldest first, while a
     * stream is held and the stream accepts more; `replies` are the stream's
     * answers, one per line written. Then a pending rotation starts, and the
     * timer is re-armed — unless the rotation found no stream, which in the
     * running program is an uncaught TypeError (`ok` false).
     */
    method DequeueTimeoutHandler() returns (ok: bool, ghost replies: seq<bool>)
      requires Valid() && dequeueArmed
      modifies this`timeoutSet, this`dequeueArmed, this`queue, this`removed, this`written
      modifies this`canWriteMore, this`mustRejuvenate, this`pendingEnds
      ensures Valid()
      // what was written plus what is left is the old queue, in order
      ensures |replies| <= |old(queue)|
      ensures queue == old(queue)[|replies|..]
      ensures written == old(written) + Terminated(old(queue)[..|replies|])
      // writing happens only with a stream that accepts, and stops at the first refusal
      ensures replies != [] ==> hasStream && old(canWriteMore)
      ensures forall i :: 0 <= i < |replies| - 1 ==> replies[i]
      ensures queue != [] && hasStream ==>
        if replies == [] then !old(canWriteMore) else !replies[|replies| - 1]
      ensures !mustRejuvenate
      ensures !old(mustRejuvenate) ==>
        && ok && pendingEnds == old(pendingEnds)
        && canWriteMore == (if replies == [] then old(canWriteMore) else replies[|replies| - 1])
      ensures old(mustRejuvenate) ==>
        && !canWriteMore && ok == hasStream
        && pendingEnds == (if hasStream then old(pendingEnds) + [RejuvenateEnd] else old(pendingEnds))
      ensures timeoutSet == ok && dequeueArmed == ok
    {
      if timeoutSet {
        timeoutSet := false;
      }
      dequeueArmed := false;
      replies := WriteWhileAccepted();
      ok := true;
      if mustRejuvenate {
        mustRejuvenate := false;
        ok := RejuvenateLogFile();
      }
      if ok {
        SetDequeueTimeout();
      }
    }

    /**
     * The loop of the dequeue handler: while a stream is held and accepts
     * more, take the oldest line off the queue and write it.
     */
    method WriteWhileAccepted() returns (ghost replies: seq<bool>)
      requires Valid()
      modifies this`queue, this`removed, this`written, this`canWriteMore
      ensures Valid()
      ensures |replies| <= |old(queue)|
      ensures queue == old(queue)[|replies|..]
      ensures written == old(written) + Terminated(old(queue)[..|replies|])
      ensures replies != [] ==> hasStream && old(canWriteMore)
      ensures forall i :: 0 <= i < |replies| - 1 ==> replies[i]
      ensures canWriteMore == (if replies == [] then old(canWriteMore) else replies[|replies| - 1])
      ensures queue == [] || !hasStream || !canWriteMore
    {
      replies := [];
      while hasStream && canWriteMore
        invariant Valid()
        invariant |replies| <= |old(queue)| && queue == old(queue)[|replies|..]
        invariant written == old(written) + Terminated(old(queue)[..|replies|])
        invariant forall i :: 0 <= i < |replies| - 1 ==> replies[i]
        invariant replies != [] ==> hasStream && old(canWriteMore) && canWriteMore == replies[|replies| - 1]
        invariant replies == [] ==> canWriteMore == old(canWriteMore)
        decreases |queue|
      {
        if queue == [] {
          break;
        }
        var msg := queue[0];
        queue := queue[1..];
        removed := removed + [msg];
        WriteFile(msg);
        replies := replies + [canWriteMore];
        assert old(queue)[..|replies|] == old(queue)[..|replies| - 1] + [msg];
      }
    }

    /** Writes out the whole queue, oldest first, whatever the stream answers. */
    method Flush()
      requires Valid()
      modifies this`queue, this`removed, this`written, this`canWriteMore
      ensures Valid()
      ensures hasStream ==> queue == [] && written == old(written) + Terminated(old(queue))
      ensures !hasStream ==> queue == old(queue) && written == old(written) && canWriteMore == old(canWriteMore)
      ensures old(queue) == [] ==> written == old(written) && canWriteMore == old(canWriteMore)
    {
      ghost var done := 0;
      while hasStream && |queue| > 0
        invariant Valid()
        invariant done <= |old(queue)| && queue == old(queue)[done..]
        invariant written == old(written) + Terminated(old(queue)[..done])
        invariant !hasStream ==> done == 0
        invariant done == 0 ==> canWriteMore == old(canWriteMore)
        decreases |queue|
      {
        var msg := queue[0];
        queue := queue[1..];
        removed := removed + [msg];
        WriteFile(msg);
        done := done + 1;
        assert old(queue)[..done] == old(queue)[..done - 1] + [msg];
      }
      assert hasStream ==> old(queue)[..done] == old(queue);
    }

    /** The stream's 'drain' event: it accepts writes again. */
    method OnDrain()
      modifies this`canWriteMore
      ensures canWriteMore
    {
      canWriteMore := true;
    }

    // ------------------------------------------------------------ stream errors

    /**
     * The stream's 'error' event: the stream is dropped and writing stops;
     * below the retry cap a reopen is scheduled after 1000 ms times the new
     * count, and at the cap file logging is switched off.
     */
    method OnStreamError()
      requires Valid()
      modifies this`hasStream, this`canWriteMore, this`retryCount, this`pendingRetries, this`fileName
      ensures Valid()
      ensures !hasStream && !canWriteMore
      ensures old(retryCount) < MaxStreamErrorRetries ==>
        && retryCount == old(retryCount) + 1
        && pendingRetries == old(pendingRetries) + [StreamErrorRetryDelayMs * retryCount]
        && fileName == old(fileName)
      ensures old(retryCount) >= MaxStreamErrorRetries ==>
        retryCount == old(retryCount) && pendingRetries == old(pendingRetries) && fileName == ""
    {
      hasStream := false;
      canWriteMore := false;
      match NextRetry(retryCount)
      case Retry(count, delay) =>
        retryCount := count;
        pendingRetries := pendingRetries + [delay];
      case GiveUp =>
        fileName := "";
    }

    /**
     * The oldest scheduled reopen runs. When the stream opens, the counter
     * resets and writing resumes; when opening throws, nothing changes and
     * no further reopen is scheduled.
     */
    method RetryTimerFired(reopened: bool)
      requires Valid() && pendingRetries != []
      modifies this`pendingRetries, this`hasStream, this`retryCount, this`canWriteMore
      ensures Valid()
      ensures pendingRetries == old(pendingRetries)[1..]
      ensures reopened ==> hasStream && retryCount == 0 && canWriteMore
      ensures !reopened ==>
        hasStream == old(hasStream) && retryCount == old(retryCount) && canWriteMore == old(canWriteMore)
    {
      pendingRetries := pendingRetries[1..];
      if reopened {
        OpenStream();
        retryCount := 0;
        canWriteMore := true;
      }
    }

    // ------------------------------------------------------------ rotation

    /** The rotation timer fires: probe the size, then re-arm. */
    method RejuvenateTimeoutHandler(stat: StatResult)
      requires Valid() && rejuvenateTimeoutSet
      modifies this`mustRejuvenate
      ensures Valid()
      ensures mustRejuvenate == (old(mustRejuvenate) || (stat.Stat? && SizeExceeded(stat.size, rejuvenateSizeMB)))
    {
      CheckMustRejuvenateLogFile(stat);
    }

    /** Flags a rotation when the probed size reaches the ceiling; a probe error changes nothing. */
    method CheckMustRejuvenateLogFile(stat: StatResult)
      requires Valid()
      modifies this`mustRejuvenate
      ensures Valid()
      ensures mustRejuvenate == (old(mustRejuvenate) || (stat.Stat? && SizeExceeded(stat.size, rejuvenateSizeMB)))
    {
      match stat
      case StatError =>
        return;
      case Stat(size) =>
        var maxSize := rejuvenateSizeMB * OneMbBytes;
        if size >= maxSize {
          mustRejuvenate := true;
        }
    }

    /**
     * Starts a rotation: writing stops, then the stream is ended with the
     * rotation callback. The stream is used without a null check; with no
     * stream the call fails (`ok` false) after writing has been stopped.
     */
    method RejuvenateLogFile() returns (ok: bool)
      requires Valid()
      modifies this`canWriteMore, this`pendingEnds
      ensures Valid()
      ensures !canWriteMore && ok == hasStream
      ensures pendingEnds == if hasStream then old(pendingEnds) + [RejuvenateEnd] else old(pendingEnds)
    {
      canWriteMore := false;
      if !hasStream {
        return false;
      }
      pendingEnds := pendingEnds + [RejuvenateEnd];
      ok := true;
    }
  }
}
