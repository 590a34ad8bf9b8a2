/** The mod's leveled logging helper: a holder for a logger that may not be set
    yet, with convenience methods that fix the level of each message. */
module LogHelper {
  import opened Wrappers

  /** The logging levels of the underlying logging library. */
  datatype Level = Off | Fatal | Error | Warn | Info | Debug | Trace | All

  /** A configured logger, known only by its identity. */
  datatype Logger = Logger(name: string)

  /** One message received by a logger. */
  datatype Record = Record(logger: Logger, level: Level, message: string)

  /** Everything the loggers have received so far, oldest first. */
  type Output = seq<Record>

  /** A Java object, known only by what its `toString()` returns. */
  datatype Obj = Obj(text: string)

  /** A throwable: its message and its stack trace, outermost call last. */
  datatype Throwable = Throwable(message: string, stackTrace: seq<Obj>)

  datatype LoggingException = LoggingException(message: string)

  /** What logging through a helper whose logger was never set throws. */
  const NotInitialized := LoggingException("Logger has not been initialized")

  /** The helper's one field; `None` stands for a null logger. */
  datatype Helper = Helper(logger: Option<Logger>)

  /** The contract shared by every logging operation: without a logger the call
      throws `NotInitialized` and nothing is logged; with one, the call succeeds
      and the output grows by exactly `entries`, in order, each sent to that
      logger, while what was logged before stays as it was. */
  predicate Emits(h: Helper, out: Output, r: Result<Output, LoggingException>, entries: seq<(Level, string)>) {
    match h.logger
    case None => r == Failure(NotInitialized)
    case Some(l) =>
      && r.Success?
      && |r.value| == |out| + |entries|
      && r.value[..|out|] == out
      && forall i :: 0 <= i < |entries| ==> r.value[|out| + i] == Record(l, entries[i].0, entries[i].1)
  }

  /** The entries for a stack trace: each frame's text at `level`, in frame order. */
  function FrameEntries(level: Level, frames: seq<Obj>): (es: seq<(Level, string)>)
    ensures |es| == |frames|
    ensures forall i :: 0 <= i < |frames| ==> es[i] == (level, frames[i].text)
  {
    seq(|frames|, i requires 0 <= i < |frames| => (level, frames[i].text))
  }

  /** When every entry is at `level`, so is every record a successful call added. */
  lemma EmittedLevels(h: Helper, out: Output, r: Result<Output, LoggingException>,
                      entries: seq<(Level, string)>, level: Level)
    requires Emits(h, out, r, entries)
    requires forall i :: 0 <= i < |entries| ==> entries[i].0 == level
    ensures r.Success? ==> forall i :: |out| <= i < |r.value| ==> r.value[i].level == level
  {
    if r.Success? {
      forall i | |out| <= i < |r.value|
        ensures r.value[i].level == level
      {
        assert r.value[|out| + (i - |out|)].level == entries[i - |out|].0;
      }
    }
  }

  /** The public constructor: no logger yet. */
  function NewHelper(): (h: Helper)
    ensures forall out, level, message :: Log(h, out, level, message) == Failure(NotInitialized)
  {
    Helper(None)
  }

  /** The constructor that takes a logger: logging works at once. */
  function HelperFor(logger: Logger): (h: Helper)
    ensures h.logger == Some(logger)
  {
    InitializeLogger(Helper(None), Some(logger))
  }

  /** Sets the logger, replacing any earlier one; a null logger (`None`) puts the
      helper back in the state where every logging call throws. */
  function InitializeLogger(h: Helper, logger: Option<Logger>): (h': Helper)
    ensures h'.logger == logger
  {
    Helper(logger)
  }

  /** Logs `message` at `level`, failing fast when no logger is set. */
  function Log(h: Helper, out: Output, level: Level, message: string): (r: Result<Output, LoggingException>)
    ensures Emits(h, out, r, [(level, message)])
  {
    match h.logger
    case None => Failure(NotInitialized)
    case Some(l) => Success(out + [Record(l, level, message)])
  }

  /** Logs an object as its `toString()` text. */
  function LogObject(h: Helper, out: Output, level: Level, obj: Obj): (r: Result<Output, LoggingException>)
    ensures Emits(h, out, r, [(level, obj.text)])
  {
    Log(h, out, level, obj.text)
  }

  /** The loop over the stack trace: one object record per frame, in order. */
  function LogFrames(h: Helper, out: Output, level: Level, frames: seq<Obj>): (r: Result<Output, LoggingException>)
    requires h.logger.Some?
    ensures Emits(h, out, r, FrameEntries(level, frames))
    decreases |frames|
  {
    if |frames| == 0 then Success(out)
    else
      var next :- LogObject(h, out, level, frames[0]);
      LogFrames(h, next, level, frames[1..])
  }

  /** Logs a throwable's message at `level` and then every frame of its stack
      trace at `stackTraceLevel`. Without a logger the first record already
      throws, so no frame is logged. */
  function LogThrowableAt(h: Helper, out: Output, level: Level, ex: Throwable, stackTraceLevel: Level)
    : (r: Result<Output, LoggingException>)
    ensures Emits(h, out, r, [(level, ex.message)] + FrameEntries(stackTraceLevel, ex.stackTrace))
    ensures r.Success? ==> |r.value| == |out| + 1 + |ex.stackTrace|
  {
    var next :- Log(h, out, level, ex.message);
    LogFramesAfter(h, out, next, level, ex, stackTraceLevel)
  }

  /** The frames of `LogThrowableAt`, once its first record has been logged. */
  function LogFramesAfter(h: Helper, out: Output, next: Output, level: Level, ex: Throwable, stackTraceLevel: Level)
    : (r: Result<Output, LoggingException>)
    requires h.logger.Some? && next == out + [Record(h.logger.value, level, ex.message)]
    ensures Emits(h, out, r, [(level, ex.message)] + FrameEntries(stackTraceLevel, ex.stackTrace))
  {
    var r := LogFrames(h, next, stackTraceLevel, ex.stackTrace);
    assert r.Success? && r.value[..|next|] == next;
    assert r.value[..|out|] == next[..|out|];
    r
  }

  /** Logs a throwable with its stack trace at the same level as its message. */
  function LogThrowable(h: Helper, out: Output, level: Level, ex: Throwable): (r: Result<Output, LoggingException>)
    ensures r == LogThrowableAt(h, out, level, ex, level)
    ensures r.Success? ==> forall i :: |out| <= i < |r.value| ==> r.value[i].level == level
  {
    var r := LogThrowableAt(h, out, level, ex, level);
    var entries := [(level, ex.message)] + FrameEntries(level, ex.stackTrace);
    assert forall i :: 0 <= i < |entries| ==> entries[i].0 == level;
    EmittedLevels(h, out, r, entries, level);
    r
  }

  function InfoMessage(h: Helper, out: Output, message: string): (r: Result<Output, LoggingException>)
    ensures Emits(h, out, r, [(Info, message)])
  {
    Log(h, out, Info, message)
  }

  function WarningMessage(h: Helper, out: Output, message: string): (r: Result<Output, LoggingException>)
    ensures Emits(h, out, r, [(Warn, message)])
  {
    Log(h, out, Warn, message)
  }

  /** A warning about an exception: the message at WARN, the stack trace at DEBUG. */
  function WarningException(h: Helper, out: Output, ex: Throwable): (r: Result<Output, LoggingException>)
    ensures Emits(h, out, r, [(Warn, ex.message)] + FrameEntries(Debug, ex.stackTrace))
  {
    LogThrowableAt(h, out, Warn, ex, Debug)
  }

  function ErrorMessage(h: Helper, out: Output, message: string): (r: Result<Output, LoggingException>)
    ensures Emits(h, out, r, [(Error, message)])
  {
    Log(h, out, Error, message)
  }

  /** An error about an exception: the message at ERROR, the stack trace at DEBUG. */
  function ErrorException(h: Helper, out: Output, ex: Throwable): (r: Result<Output, LoggingException>)
    ensures Emits(h, out, r, [(Error, ex.message)] + FrameEntries(Debug, ex.stackTrace))
  {
    LogThrowableAt(h, out, Error, ex, Debug)
  }

  function FatalMessage(h: Helper, out: Output, message: string): (r: Result<Output, LoggingException>)
    ensures Emits(h, out, r, [(Fatal, message)])
  {
    Log(h, out, Fatal, message)
  }

  /** A fatal throwable: the message at FATAL, the stack trace at DEBUG. */
  function FatalThrowable(h: Helper, out: Output, ex: Throwable): (r: Result<Output, LoggingException>)
    ensures Emits(h, out, r, [(Fatal, ex.message)] + FrameEntries(Debug, ex.stackTrace))
  {
    LogThrowableAt(h, out, Fatal, ex, Debug)
  }

  function DebugMessage(h: Helper, out: Output, message: string): (r: Result<Output, LoggingException>)
    ensures Emits(h, out, r, [(Debug, message)])
  {
    Log(h, out, Debug, message)
  }

  function DebugObject(h: Helper, out: Output, obj: Obj): (r: Result<Output, LoggingException>)
    ensures Emits(h, out, r, [(Debug, obj.text)])
  {
    LogObject(h, out, Debug, obj)
  }

  function TraceMessage(h: Helper, out: Output, message: string): (r: Result<Output, LoggingException>)
    ensures Emits(h, out, r, [(Trace, message)])
  {
    Log(h, out, Trace, message)
  }

  function TraceObject(h: Helper, out: Output, obj: Obj): (r: Result<Output, LoggingException>)
    ensures Emits(h, out, r, [(Trace, obj.text)])
  {
    LogObject(h, out, Trace, obj)
  }

  /** Re-initialisation decides where every later record goes, whatever logger
      the helper held before; a null logger makes logging throw again. */
  lemma ReinitializeRedirects(h: Helper, out: Output, logger: Option<Logger>, level: Level, message: string)
    ensures var r := Log(InitializeLogger(h, logger), out, level, message);
      match logger
      case None => r == Failure(NotInitialized)
      case Some(l) => r == Success(out + [Record(l, level, message)])
  {
    var r := Log(InitializeLogger(h, logger), out, level, message);
    if logger.Some? {
      assert r.value == r.value[..|out|] + [r.value[|out|]];
    }
  }
}
