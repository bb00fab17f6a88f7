# FifoLogger in Dafny

A model of FifoLogger, an in-process queued log writer. Callers log events.
Each accepted event is rendered to one line. When a log file is configured,
the line goes onto a FIFO queue; otherwise it goes straight to the console.
A dequeue timer drains the queue into an append-mode file stream and stops as
soon as the stream signals backpressure. A stream error drops the stream and
schedules a reopen, with a linear back-off capped at five attempts. A rotation
timer probes the file size; when the size reaches the ceiling, the next dequeue
pass ends the stream and renames the file to a timestamped archive name
(`_Y_M_D_H_Min_S` inserted before the last '.' of the path, or appended when
there is none), then reopens the live file.

The TypeScript keeps all of this in static fields of one class. Here it is
one `Engine.FifoLogger` object with the same fields. The pure parts are
modelled as functions with lemmas:

- the severity names, the truncation rule and the plain and colour line layouts (`Format`);
- removing ANSI escape codes (`Ansi`);
- the size test and the archive name (`Rotation`);
- the defaulting of options (`Config`);
- the retry schedule (`Engine.NextRetry`).

Platform I/O is abstract:

- Holding a stream is a flag. The ghost field `written` records every text handed to a stream.
- The answer of `write` (accepts more or not) is unconstrained.
- A timer is a flag meaning "a callback is pending". The callbacks are explicit methods: `DequeueTimeoutHandler`, `OnDrain`, `OnStreamError`, `RetryTimerFired`, `EndCompleted` and `RejuvenateTimeoutHandler`.
- The clock's readings (`date`, `now`), the serialised attachments and the JSON text of an event are parameters.
- The result of `fs.stat` is a `StatResult` parameter.

`Scenarios` holds four client scenarios, each verified from the method contracts alone:

- the WARNING-minimum example: the INFO event is dropped and the ERROR line is queued;
- a close that writes the queued line, drops later events and then calls back;
- no drain after a close and a re-initialisation;
- retries running out after five errors.

Quirks of the code that the model keeps:

- Colour is always on after `init` (`useColor ? useColor : true`), so outside JSON mode the plain layout is never used (`Format.ColorAlwaysChosen`).
- `close` cancels the dequeue timer but leaves its handle set. After a completed close and a new `init`, neither `init` nor the self-healing branch of `log` arms the timer again.
- `close` without a stream calls back at once. It leaves `closeRequested` (and `initialized`) set, so the logger accepts nothing more.
- A reopen that throws schedules no further retry.
- After the retry cap the file name is cleared. Later lines then go to the console; they are not dropped.
- Before the first `init` the minimum level is undefined, so `log` renders nothing.
- The archive name looks for the last '.' in the whole path, not just in the file name (src/fifoLogger.ts:383). For `/var/log.d/app` the archive name is `/var/log_<stamp>.d/app`, a directory that does not exist, so the rename in the rotation callback would fail. `Rotation.ArchiveName` keeps this behaviour, and "extension" below means the suffix from the last '.' of the whole path.
- `rejuvenateLogFile` calls `end` on the stream without a null check (src/fifoLogger.ts:378). `RejuvenateLogFile` reports that case as a failure (`ok == false`): in the program it is an uncaught TypeError.

## Model

| member | source | states |
|---|---|---|
| `Config.Resolve` | src/fifoLogger.ts:64-70 | Defaults of `init`: prefix, minimum level, truncation length and JSON flag pass through unchanged, because their defaults equal their falsy values. Colour is always on. The dequeue period is the given one, or 100 when it is zero. |
| `Config.OpensFile` | src/fifoLogger.ts:72 | `init` opens the file stream only for a FILE destination with a non-empty file name. |
| `Config.RotationRequested` | src/fifoLogger.ts:78 | `init` starts the rotation timer only when rotation is on, the size ceiling is non-zero, a file name is given and the destination is FILE. |
| `Config.RotationImpliesFile` | src/fifoLogger.ts:72-78 | Every option set that starts the rotation timer also opens the log file: both need a FILE destination and a non-empty name. |
| `Format.ToSeverity` | src/fifoLogger.ts:163-172 | Levels -1..3 map to "debug", "info", "warning", "error", "critical" in order. Any other value maps to "info". The result is always one of the five names. |
| `Format.SeverityNamesDistinct` | src/fifoLogger.ts:163-172 | Two in-range levels with the same name are the same level. |
| `Format.Truncate` | src/fifoLogger.ts:228-230 | With a positive maximum N, a longer line becomes its first N characters plus "..." (length N+3). Every other line, and every line when N ≤ 0, is unchanged. |
| `Format.TruncateIdempotent` | src/fifoLogger.ts:228-230 | Truncating an already truncated line changes nothing. |
| `Format.AppendEach` | src/fifoLogger.ts:255-259 | The plain `forEach` over the attachments appends exactly `" a1  a2 ... "` (each attachment between single spaces) to its starting value. |
| `Format.PlainAttachments` | src/fifoLogger.ts:253-260 | The plain attachment block is `[` + the spaced attachments + `]`; an empty list gives `[]`. |
| `Format.PlainLayout` | src/fifoLogger.ts:248-262 | The plain line is `<prefix> [<severity>][<date>][<message>][ <a1>  <a2> ]`. |
| `Format.ColorEach` | src/fifoLogger.ts:280-284 | The colour `forEach` appends each attachment as `" " + yellow + a + " "`, in order, and nothing else. |
| `Format.ColorAttachments` | src/fifoLogger.ts:278-285 | The colour attachment block is green `[`, the yellow spaced attachments, green `]`. When no attachment holds an ESC character, the block with its escape codes removed is exactly the plain block. `JSON.stringify` escapes control characters, so serialised attachments never hold a raw ESC. |
| `Format.ColorSeverity` | src/fifoLogger.ts:287-303 | The severity token is green `[`, then the level's colour from `SeverityColor` (cyan DEBUG, yellow WARNING, red ERROR and CRITICAL) followed by the name and green `]`; INFO and unknown levels give green `[<severity>]` with no colour. In every case the token is well-formed and shows as `[<severity>]` once escape codes are removed. |
| `Format.ColorLayout` | src/fifoLogger.ts:264-305 | The colour line is reset + white + prefix, a space, the coloured severity token, the date in orange between green brackets, `[<message>]`, and the yellow attachments between green brackets. With its ANSI escape sequences removed it is exactly the plain line, provided the inputs hold no ESC character. |
| `Format.BuildMessage` | src/fifoLogger.ts:215-233 | JSON mode gives the truncated JSON text whatever the colour flag. Otherwise the line is the truncated colour layout when colour is on and the truncated plain layout when it is off. |
| `Format.VisibleLine` | src/fifoLogger.ts:215-233 | Outside JSON mode, without truncation, and when the prefix, message, date and attachments hold no ESC character, the visible text of a line is the plain layout whether colour is on or off. |
| `Format.ColorAlwaysChosen` | src/fifoLogger.ts:68 | After `init`'s defaulting, every non-JSON line is rendered with the colour layout. |
| `Rotation.Decimal` | src/fifoLogger.ts:382 | Numbers render as non-empty digit strings without leading zeros; the result starts with '0' only for 0. |
| `Rotation.DecimalRoundTrip` | src/fifoLogger.ts:382 | Reading a rendered number back gives the number. |
| `Rotation.DecimalInjective` | src/fifoLogger.ts:382 | Different numbers render differently. |
| `Rotation.Stamp` | src/fifoLogger.ts:381-382 | The date stamp contains only digits and '_'. |
| `Rotation.StampInjective` | src/fifoLogger.ts:381-382 | Different local times give different stamps. Two instants with the same local reading (for example when clocks fall back for daylight saving time) do get the same stamp. |
| `Rotation.ArchiveNameInjective` | src/fifoLogger.ts:383-390 | For one live file name, different stamps give different archive names. |
| `Rotation.SizeExceeded` | src/fifoLogger.ts:369-370 | A file must be rotated once its size is at least the ceiling in mebibytes × 1048576. |
| `Rotation.SizeExceededGrows` | src/fifoLogger.ts:369-370 | The rotation size test is monotone: a file over the ceiling stays over it as it grows, and it is also over any lower ceiling. |
| `Rotation.LastIndexOf` | src/fifoLogger.ts:383 | The result is -1 or an index holding the character, and no later index holds it. |
| `Rotation.ArchiveName` | src/fifoLogger.ts:383-390 | The archive name inserts `_<stamp>` at the last '.' when that dot is past index 0, and at the end of the name otherwise. |
| `Rotation.DotInDirectory` | src/fifoLogger.ts:383-387 | A '.' in a directory name is taken as the extension's start: the archive name of `/var/log.d/app` with stamp `S` is `/var/log_S.d/app`. |
| `Rotation.ExtensionKept` | src/fifoLogger.ts:383-390 | For a stamp without '.', the archive name has the same extension as the live file's name, where the extension is the suffix from the last '.' of the whole path (when that '.' is not the first character). |
| `Rotation.ArchiveKeepsExtension` | src/fifoLogger.ts:380-390 | Every rotation archive name keeps the live file's extension, in the same whole-path sense. |
| `Engine.FifoLogger.Accepts` | src/fifoLogger.ts:183 | A level passes when it is at least the configured minimum; before the first `init` there is no minimum and nothing passes. |
| `Engine.FifoLogger.AcceptsUpward` | src/fifoLogger.ts:183 | The level filter is a threshold: when a level passes, every higher level passes too. |
| `Engine.NextRetry` | src/fifoLogger.ts:110-126 | Below the cap of 5 the counter rises by one and the delay is 1000 ms times the new count. At the cap, give up. The counter never exceeds 5. |
| `Engine.ConsecutiveDelaysShape` | src/fifoLogger.ts:110-126 | From counter c, consecutive errors schedule 5−c reopens with delays 1000·(c+1), …, 5000 ms. |
| `Engine.Terminated` | src/fifoLogger.ts:315-318 | Each line is handed to the stream with "\n" appended, one text per line, in order. |
| `Engine.FifoLogger.constructor` | src/fifoLogger.ts:46-57 | Initial values of the static fields: empty queue, writable, no stream or timers, counter 0, rotation ceiling 10 MB. |
| `Engine.FifoLogger.Init` | src/fifoLogger.ts:59-86 | When already initialised, nothing changes. Otherwise: defaulted settings are installed. A FILE destination with a name sets the file name, opens the stream and arms the dequeue timer (only if its handle is clear). A full rotation request sets the ceiling and arms the rotation timer. `initialized` becomes true. |
| `Engine.FifoLogger.OpenStream` | src/fifoLogger.ts:88-100 | A stream is held afterwards. |
| `Engine.FifoLogger.SetDequeueTimeout` | src/fifoLogger.ts:155-161 | The handle is set afterwards. A new timer is armed only if the handle was clear. |
| `Engine.FifoLogger.Close` | src/fifoLogger.ts:129-153 | Sets `closeRequested` and cancels the pending dequeue. With a stream: writes the whole queue in FIFO order, ignoring backpressure, and registers the close callback for the stream's end. With a stream and an empty queue, nothing is written and `canWriteMore` is unchanged. Without a stream: calls back at once and leaves the queue and flags as they were. |
| `Engine.FifoLogger.EndCompleted` | src/fifoLogger.ts:139-147 | The oldest end callback runs. After a close it clears `initialized`, `closeRequested` and the counter, empties the queue and calls back. After a rotation (lines 378-395) it records the rename to `ArchiveName(fileName, Stamp(now))`, reopens the stream, resets the counter and resumes writing. |
| `Engine.FifoLogger.CloseCompleted` | src/fifoLogger.ts:139-144 | The close's end callback clears `initialized`, `closeRequested` and the retry counter and discards the queue; the discarded lines count as removed, so the invariant holds. |
| `Engine.FifoLogger.RotationCompleted` | src/fifoLogger.ts:378-395 | The rotation's end callback resets the counter, records the rename of the live file to `ArchiveName(fileName, Stamp(now))`, opens a new stream and makes it writable. |
| `Engine.FifoLogger.Log` | src/fifoLogger.ts:174-193 | Once a close is requested, nothing changes. Otherwise the dequeue timer is armed when its handle is clear and a stream and file name exist. A level below the minimum (or any level before `init`) adds nothing. An accepted line is appended at the tail of the queue when a file name is set, and returned for the console when it is not. |
| `Engine.FifoLogger.WriteMessage` | src/fifoLogger.ts:307-313 | With a file name the line is appended to the queue; without one it goes to the console and the queue is unchanged. |
| `Engine.FifoLogger.WriteFile` | src/fifoLogger.ts:315-318 | The line plus "\n" is appended to what the stream received. The stream's answer becomes `canWriteMore`. |
| `Engine.FifoLogger.DequeueTimeoutHandler` | src/fifoLogger.ts:320-339 | The lines written plus the remaining queue equal the old queue, each written with "\n". The pass stops only at an empty queue, a missing stream or a refused write. A pending rotation is consumed and begins by stopping writes. The timer is re-armed unless the rotation found no stream. |
| `Engine.FifoLogger.WriteWhileAccepted` | src/fifoLogger.ts:324-331 | Writes lines oldest first, only while a stream is held and accepts. Every write but the last was accepted. It ends with the queue empty, no stream, or `canWriteMore` false. |
| `Engine.FifoLogger.Flush` | src/fifoLogger.ts:341-348 | With a stream, the queue is emptied and every line is written in FIFO order regardless of the stream's answers. Without one, nothing changes. With an empty queue nothing is written and `canWriteMore` keeps its value. |
| `Engine.FifoLogger.OnDrain` | src/fifoLogger.ts:91-94 | The 'drain' event makes the stream writable again. |
| `Engine.FifoLogger.OnStreamError` | src/fifoLogger.ts:102-127 | The stream is dropped and writing stops. Below the cap the counter is incremented and a reopen is scheduled after 1000 ms × count. At the cap the file name becomes ''. The counter stays ≤ 5. |
| `Engine.FifoLogger.RetryTimerFired` | src/fifoLogger.ts:113-122 | A successful reopen holds a stream, resets the counter to 0 and resumes writing. A failed one changes nothing and schedules no further retry. |
| `Engine.FifoLogger.RejuvenateTimeoutHandler` | src/fifoLogger.ts:350-360 | Each rotation tick probes the size and keeps the timer armed. |
| `Engine.FifoLogger.CheckMustRejuvenateLogFile` | src/fifoLogger.ts:362-374 | Sets the rotation flag when the size is at least `rejuvenateSizeMB` × 1048576. A probe error leaves the flag unchanged, and the flag is never cleared here. |
| `Engine.FifoLogger.RejuvenateLogFile` | src/fifoLogger.ts:376-378 | Stops writing, then ends the stream with the rotation callback. Without a stream it fails. |

The object invariant `Engine.FifoLogger.Valid`, which every method keeps, says four things:

- The retry counter is at most 5.
- A pending dequeue timer always has its handle set.
- The queue is always the not-yet-removed tail of every line ever accepted. So lines are never reordered.
- Every scheduled reopen waits between 1000 and 5000 ms.

## Left out

- JSON rendering (`buildJsonMessage`, `JSON.stringify`) is a foreign library call. The JSON text of an event, and each attachment's serialisation, are inputs.
- Clock readings (`new Date()`, `toISOString`) are inputs.
- `fs.createWriteStream`, `write`, `end`, `close`, `fs.stat` and `fs.renameSync` are platform I/O. A stream is a flag, the answer of `write` is unconstrained, and the end and stat results arrive through explicit methods and parameters.
- A synchronous throw from `createWriteStream` in `init`, and a throw from `renameSync` in the rotation callback, are not modelled. The reopen's throw is modelled.
- Timer periods are constants (`Config.DefaultDequeueTimeoutMs`, `Engine.ToRejuvenateMs`, `Engine.StreamErrorRetryDelayMs`) or settings, but timers are not simulated. Firing a timer is a method call, and the model does not order callbacks in time.
- Reopen and end callbacks run oldest first. Node's event ordering beyond that is not modelled.
- A second rotation timer chain, started when `init` runs again after a close (`close` never clears the rotation timer), is not modelled; the model keeps a single rotation timer flag.
- Which stream object an event comes from is not tracked. 'drain' and 'error' events from a replaced stream act on the logger just as they do in the program, through the same static handlers.
- `debug`, `info`, `warn`, `error` and `critical` are one-line delegations to `log` with a fixed level. Use `Engine.FifoLogger.Log` with that level.
- `console.log` / `console.error` diagnostics have no effect on state. The console line of a console-mode event is returned by `Log`.
- Format.Truncate: lengths and cut points count Unicode scalar values. JavaScript's `length` and `substring` count UTF-16 code units, so a line with characters outside the Basic Multilingual Plane is cut at a different place: for `"\u{1F600}\u{1F600}"` with maximum 1 the program keeps half a surrogate pair.
- Numeric options and log levels are integers. A fractional `rejuvenateSizeMB` (0.5) or `maxEventLength` (2.5), which JavaScript accepts, cannot be expressed. Neither can a fractional level passed to `log`: `log(0.5, …)` passes an INFO minimum and renders as `[info]` through the default branches of the severity switches (src/fifoLogger.ts:170, 302).
- Engine.FifoLogger.DequeueTimeoutHandler: when a pending rotation finds no stream (`ok == false`), the model returns with the dequeue timer unarmed and the logger otherwise intact. In Node the TypeError is uncaught and ends the process.
