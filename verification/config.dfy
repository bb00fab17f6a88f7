/**
 * The configuration surface of the logger: the numeric log levels, the
 * destination kinds, the options object passed to `init`, and the settings
 * `init` derives from it.
 *
 * An option the caller leaves out is given here as its falsy value ('' for a
 * string, 0 for a number, false for a flag, Stdout for the destination):
 * every place the logger reads an option tests it for truthiness or compares
 * it with FILE, and an absent option and its falsy value behave the same
 * there.
 */
module Config {

  // LogLevel: DEBUG < INFO < WARNING < ERROR < CRITICAL
  const LevelDebug: int := -1
  const LevelInfo: int := 0
  const LevelWarning: int := 1
  const LevelError: int := 2
  const LevelCritical: int := 3

  /** The dequeue period used when none is configured (DequeueTimeoutMs.FAST). */
  const DefaultDequeueTimeoutMs: int := 100

  datatype Destination = Stdout | File

  /** The options object accepted by `init`. */
  datatype Options = Options(
    logPrefix: string,
    minLogLevel: int,
    maxEventLength: int,
    destination: Destination,
    useColor: bool,
    jsonMode: bool,
    fileName: string,
    dequeueTimeoutMs: int,
    rejuvenateLog: bool,
    rejuvenateSizeMB: int)

  /** The formatting and timing part of the logger's `cfg` once `init` has run. */
  datatype Settings = Settings(
    logPrefix: string,
    minLogLevel: int,
    maxEventLength: int,
    useColor: bool,
    jsonMode: bool,
    dequeueTimeoutMs: int)

  /**
   * The defaulting `init` applies. Because the defaults of the prefix, the
   * minimum level, the truncation length and JSON mode coincide with their
   * falsy values, those options pass through unchanged; the colour flag is
   * always on (the fallback of `useColor ? useColor : true` is itself true),
   * and only a zero dequeue period is replaced.
   */
  function Resolve(flc: Options): (s: Settings)
    ensures s.logPrefix == flc.logPrefix
    ensures s.minLogLevel == flc.minLogLevel
    ensures s.maxEventLength == flc.maxEventLength
    ensures s.jsonMode == flc.jsonMode
    ensures s.useColor
    ensures s.dequeueTimeoutMs != 0
    ensures flc.dequeueTimeoutMs != 0 ==> s.dequeueTimeoutMs == flc.dequeueTimeoutMs
    ensures flc.dequeueTimeoutMs == 0 ==> s.dequeueTimeoutMs == DefaultDequeueTimeoutMs
  {
    Settings(
      if flc.logPrefix != "" then flc.logPrefix else "",
      if flc.minLogLevel != 0 then flc.minLogLevel else LevelInfo,
      if flc.maxEventLength != 0 then flc.maxEventLength else 0,
      if flc.useColor then flc.useColor else true,
      if flc.jsonMode then flc.jsonMode else false,
      if flc.dequeueTimeoutMs != 0 then flc.dequeueTimeoutMs else DefaultDequeueTimeoutMs)
  }

  /** `init` opens a file stream only for a FILE destination with a non-empty name. */
  predicate OpensFile(flc: Options)
  {
    flc.destination == File && flc.fileName != ""
  }

  /** `init` starts the rotation timer only when all four conditions hold. */
  predicate RotationRequested(flc: Options)
  {
    flc.rejuvenateLog && flc.rejuvenateSizeMB != 0 && flc.fileName != "" && flc.destination == File
  }

  /** The rotation timer is only ever started for a logger that also opens its file. */
  lemma RotationImpliesFile(flc: Options)
    requires RotationRequested(flc)
    ensures OpensFile(flc)
  {
  }
}
