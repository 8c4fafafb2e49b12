/**
 * The fx event renderer of app-custom-logger: every lifecycle event that the
 * fx container reports is turned into zero or more structured log records.
 *
 * `Render` is the classification itself (the type switch of `LogEvent`), as a
 * pure function from an event to the records it produces. The class `Logger`
 * stands for the package-level `Logger` variable together with the records
 * already written through it; its `LogEvent` appends exactly `Render(e)`.
 */
module FxLogger {
  import opened Wrappers

  /** slog severity: the renderer only ever uses `slog.LevelInfo` and `slog.LevelError`. */
  datatype Level = LevelInfo | LevelError

  /**
   * The fixed messages the renderer writes; `Text` gives each one's exact
   * wording. Records carry the message as one of these values.
   */
  datatype Message =
    | OnStartHookExecuting | OnStartHookFailed | OnStartHookExecuted
    | OnStopHookExecuting | OnStopHookFailed | OnStopHookExecuted
    | SuppliedFailed | SuppliedType | ProvidedType | ProvideFailed
    | InvokingFunction | InvokedFailed
    | StoppingOnSignal | StoppedWithError | StoppedCleanly
    | RollingBackOnStartFailure | RollbackFailed | RolledBackCleanly
    | StartFailed | StartedCleanly
    | LoggerInitializationFailed | LoggerInitializedCleanly
    | UnhandledEvent

  /** The text slog prints for each message. */
  function Text(m: Message): string
  {
    match m
    case OnStartHookExecuting => "OnStart hook executing"
    case OnStartHookFailed => "OnStart hook failed"
    case OnStartHookExecuted => "OnStart hook executed"
    case OnStopHookExecuting => "OnStop hook executing"
    case OnStopHookFailed => "OnStop hook failed"
    case OnStopHookExecuted => "OnStop hook executed"
    case SuppliedFailed => "Supplied failed"
    case SuppliedType => "Supplied"
    case ProvidedType => "Provided"
    case ProvideFailed => "Provide failed"
    case InvokingFunction => "Invoking"
    case InvokedFailed => "Invoked failed"
    case StoppingOnSignal => "Stopping"
    case StoppedWithError => "Stopped with error"
    case StoppedCleanly => "Stopped"
    case RollingBackOnStartFailure => "Rolling back due to start failure"
    case RollbackFailed => "Rollback failed"
    case RolledBackCleanly => "Rolled back"
    case StartFailed => "Start failed"
    case StartedCleanly => "Started"
    case LoggerInitializationFailed => "Logger initialization failed"
    case LoggerInitializedCleanly => "Logger initialized"
    case UnhandledEvent => "Unhandled event"
  }

  /** The attribute keys the renderer uses; `KeyText` gives each one's exact spelling. */
  datatype Key = Caller | Function | Error | Runtime | Type | Module | Constructor | Signal | EventType

  /** The key as slog prints it. */
  function KeyText(k: Key): string
  {
    match k
    case Caller => "caller"
    case Function => "function"
    case Error => "error"
    case Runtime => "runtime"
    case Type => "type"
    case Module => "module"
    case Constructor => "constructor"
    case Signal => "signal"
    case EventType => "event"
  }

  /**
   * The message whose text is `s`, if any: the reader of a printed message.
   * It looks at the length first, then compares with the texts of that length.
   */
  function FromText(s: string): Option<Message>
  {
    if |s| == 7 then
      if s == "Stopped" then Some(StoppedCleanly)
      else if s == "Started" then Some(StartedCleanly)
      else None
    else if |s| == 8 then
      if s == "Supplied" then Some(SuppliedType)
      else if s == "Provided" then Some(ProvidedType)
      else if s == "Invoking" then Some(InvokingFunction)
      else if s == "Stopping" then Some(StoppingOnSignal)
      else None
    else if |s| == 11 then
      if s == "Rolled back" then Some(RolledBackCleanly)
      else None
    else if |s| == 12 then
      if s == "Start failed" then Some(StartFailed)
      else None
    else if |s| == 14 then
      if s == "Provide failed" then Some(ProvideFailed)
      else if s == "Invoked failed" then Some(InvokedFailed)
      else None
    else if |s| == 15 then
      if s == "Supplied failed" then Some(SuppliedFailed)
      else if s == "Rollback failed" then Some(RollbackFailed)
      else if s == "Unhandled event" then Some(UnhandledEvent)
      else None
    else if |s| == 18 then
      if s == "OnStop hook failed" then Some(OnStopHookFailed)
      else if s == "Stopped with error" then Some(StoppedWithError)
      else if s == "Logger initialized" then Some(LoggerInitializedCleanly)
      else None
    else if |s| == 19 then
      if s == "OnStart hook failed" then Some(OnStartHookFailed)
      else None
    else if |s| == 20 then
      if s == "OnStop hook executed" then Some(OnStopHookExecuted)
      else None
    else if |s| == 21 then
      if s == "OnStart hook executed" then Some(OnStartHookExecuted)
      else if s == "OnStop hook executing" then Some(OnStopHookExecuting)
      else None
    else if |s| == 22 then
      if s == "OnStart hook executing" then Some(OnStartHookExecuting)
      else None
    else if |s| == 28 then
      if s == "Logger initialization failed" then Some(LoggerInitializationFailed)
      else None
    else if |s| == 33 then
      if s == "Rolling back due to start failure" then Some(RollingBackOnStartFailure)
      else None
    else None
  }

  /** Every message is read back from its text, so no two messages print alike. */
  lemma TextRoundTrip(m: Message)
    ensures FromText(Text(m)) == Some(m)
  {
    match m
    case OnStartHookExecuting =>
    case OnStartHookFailed =>
    case OnStartHookExecuted =>
    case OnStopHookExecuting =>
    case OnStopHookFailed =>
    case OnStopHookExecuted =>
    case SuppliedFailed =>
    case SuppliedType =>
    case ProvidedType =>
    case ProvideFailed =>
    case InvokingFunction =>
    case InvokedFailed =>
    case StoppingOnSignal =>
    case StoppedWithError =>
    case StoppedCleanly =>
    case RollingBackOnStartFailure =>
    case RollbackFailed =>
    case RolledBackCleanly =>
    case StartFailed =>
    case StartedCleanly =>
    case LoggerInitializationFailed =>
    case LoggerInitializedCleanly =>
    case UnhandledEvent =>
  }

  /** Two messages with the same text are the same message. */
  lemma TextInjective(m1: Message, m2: Message)
    ensures Text(m1) == Text(m2) ==> m1 == m2
  {
    TextRoundTrip(m1);
    TextRoundTrip(m2);
  }

  /** The key whose spelling is `s`, if any. */
  function KeyFromText(s: string): Option<Key>
  {
    if s == "caller" then Some(Caller)
    else if s == "function" then Some(Function)
    else if s == "error" then Some(Error)
    else if s == "runtime" then Some(Runtime)
    else if s == "type" then Some(Type)
    else if s == "module" then Some(Module)
    else if s == "constructor" then Some(Constructor)
    else if s == "signal" then Some(Signal)
    else if s == "event" then Some(EventType)
    else None
  }

  /** Every key is read back from its spelling. */
  lemma KeyTextRoundTrip(k: Key)
    ensures KeyFromText(KeyText(k)) == Some(k)
  {
  }

  /** Two keys spelled alike are the same key. */
  lemma KeyTextInjective(k1: Key, k2: Key)
    ensures KeyText(k1) == KeyText(k2) ==> k1 == k2
  {
    KeyTextRoundTrip(k1);
    KeyTextRoundTrip(k2);
  }

  /** One key/value attribute (`slog.String(key, value)`). */
  type Attr = (Key, string)

  /** One structured log record. */
  datatype LogLine = LogLine(level: Level, msg: Message, attrs: seq<Attr>)

  /**
   * The fx events, with the fields the renderer reads. An error field is
   * `None` when Go's `Err` is nil and `Some(e.Error())` otherwise; durations
   * and signals are kept as their already rendered text. `Other` is every
   * event kind the switch does not list, carrying its `%T` type name.
   */
  datatype Event =
    | OnStartExecuting(callerName: string, functionName: string)
    | OnStartExecuted(callerName: string, functionName: string, runtime: string, err: Option<string>)
    | OnStopExecuting(callerName: string, functionName: string)
    | OnStopExecuted(callerName: string, functionName: string, runtime: string, err: Option<string>)
    | Supplied(typeName: string, moduleName: string, err: Option<string>)
    | Provided(constructorName: string, outputTypeNames: seq<string>, moduleName: string, err: Option<string>)
    | Invoking(functionName: string, moduleName: string)
    | Invoked(functionName: string, moduleName: string, err: Option<string>)
    | Stopping(signal: string)
    | Stopped(err: Option<string>)
    | RollingBack(startErr: string)
    | RolledBack(err: Option<string>)
    | Started(err: Option<string>)
    | LoggerInitialized(constructorName: string, err: Option<string>)
    | Other(eventType: string)

  /** The error an event reports, if any: its `Err`, or `StartErr` for RollingBack. */
  function Failure(e: Event): Option<string>
  {
    match e
    case OnStartExecuted(_, _, _, err) => err
    case OnStopExecuted(_, _, _, err) => err
    case Supplied(_, _, err) => err
    case Provided(_, _, _, err) => err
    case Invoked(_, _, err) => err
    case Stopped(err) => err
    case RollingBack(startErr) => Some(startErr)
    case RolledBack(err) => err
    case Started(err) => err
    case LoggerInitialized(_, err) => err
    case _ => None
  }

  /** The value of the first attribute named `key`, if the record has one. */
  function Lookup(attrs: seq<Attr>, key: Key): (r: Option<string>)
    ensures r.Some? ==> (key, r.value) in attrs
    ensures r.None? ==> forall a :: a in attrs ==> a.0 != key
  {
    if attrs == [] then None
    else if attrs[0].0 == key then Some(attrs[0].1)
    else Lookup(attrs[1..], key)
  }

  /** The record for a hook that ran: Error with an `error` attribute if it failed. */
  function HookExecutedLine(failedMsg: Message, doneMsg: Message, caller: string, fn: string,
                            runtime: string, err: Option<string>): LogLine
  {
    match err
    case Some(msg) =>
      LogLine(LevelError, failedMsg, [(Caller, caller), (Function, fn), (Error, msg), (Runtime, runtime)])
    case None =>
      LogLine(LevelInfo, doneMsg, [(Caller, caller), (Function, fn), (Runtime, runtime)])
  }

  /** The record for an event whose only payload is an optional error. */
  function OutcomeLine(failedMsg: Message, doneMsg: Message, err: Option<string>): LogLine
  {
    match err
    case Some(msg) => LogLine(LevelError, failedMsg, [(Error, msg)])
    case None => LogLine(LevelInfo, doneMsg, [])
  }

  /** One ProvidedType record for an output type of a constructor. */
  function ProvidedLine(ctor: string, mdl: string, rtype: string): LogLine
  {
    LogLine(LevelInfo, ProvidedType, [(Constructor, ctor), (Module, mdl), (Type, rtype)])
  }

  /** The ProvidedType records for `types`, in list order. */
  function ProvidedLines(ctor: string, mdl: string, types: seq<string>): seq<LogLine>
  {
    if types == [] then []
    else [ProvidedLine(ctor, mdl, types[0])] + ProvidedLines(ctor, mdl, types[1..])
  }

  /** The ProvideFailed record. */
  function ProvideFailedLine(ctor: string, mdl: string, msg: string): LogLine
  {
    LogLine(LevelError, ProvideFailed, [(Constructor, ctor), (Module, mdl), (Error, msg)])
  }

  /** The records `LogEvent` writes for one event, in order. */
  function Render(e: Event): seq<LogLine>
  {
    match e
    case OnStartExecuting(caller, fn) =>
      [LogLine(LevelInfo, OnStartHookExecuting, [(Caller, caller), (Function, fn)])]
    case OnStartExecuted(caller, fn, runtime, err) =>
      [HookExecutedLine(OnStartHookFailed, OnStartHookExecuted, caller, fn, runtime, err)]
    case OnStopExecuting(caller, fn) =>
      [LogLine(LevelInfo, OnStopHookExecuting, [(Caller, caller), (Function, fn)])]
    case OnStopExecuted(caller, fn, runtime, err) =>
      [HookExecutedLine(OnStopHookFailed, OnStopHookExecuted, caller, fn, runtime, err)]
    case Supplied(typeName, mdl, err) =>
      [match err
       case Some(msg) => LogLine(LevelError, SuppliedFailed, [(Type, typeName), (Module, mdl), (Error, msg)])
       case None => LogLine(LevelInfo, SuppliedType, [(Type, typeName), (Module, mdl)])]
    case Provided(ctor, types, mdl, err) =>
      ProvidedLines(ctor, mdl, types)
      + (match err
         case Some(msg) => [ProvideFailedLine(ctor, mdl, msg)]
         case None => [])
    case Invoking(fn, mdl) =>
      [LogLine(LevelInfo, InvokingFunction, [(Function, fn), (Module, mdl)])]
    case Invoked(fn, mdl, err) =>
      (match err
       case Some(msg) => [LogLine(LevelError, InvokedFailed, [(Function, fn), (Module, mdl), (Error, msg)])]
       case None => [])
    case Stopping(signal) =>
      [LogLine(LevelInfo, StoppingOnSignal, [(Signal, signal)])]
    case Stopped(err) =>
      [OutcomeLine(StoppedWithError, StoppedCleanly, err)]
    case RollingBack(startErr) =>
      [LogLine(LevelError, RollingBackOnStartFailure, [(Error, startErr)])]
    case RolledBack(err) =>
      [OutcomeLine(RollbackFailed, RolledBackCleanly, err)]
    case Started(err) =>
      [OutcomeLine(StartFailed, StartedCleanly, err)]
    case LoggerInitialized(ctor, err) =>
      [match err
       case Some(msg) => LogLine(LevelError, LoggerInitializationFailed, [(Function, ctor), (Error, msg)])
       case None => LogLine(LevelInfo, LoggerInitializedCleanly, [(Function, ctor)])]
    case Other(eventType) =>
      [LogLine(LevelInfo, UnhandledEvent, [(EventType, eventType)])]
  }

  // ---------------------------------------------------------------------
  // Properties of the renderer
  // ---------------------------------------------------------------------

  /** The ProvidedType records are Info, one per type, carrying that type, and no error or runtime. */
  lemma {:induction false} ProvidedLinesShape(ctor: string, mdl: string, types: seq<string>)
    ensures |ProvidedLines(ctor, mdl, types)| == |types|
    ensures forall i :: 0 <= i < |types| ==>
      ProvidedLines(ctor, mdl, types)[i] == ProvidedLine(ctor, mdl, types[i])
  {
    if types != [] {
      ProvidedLinesShape(ctor, mdl, types[1..]);
    }
  }

  /** OnStartExecuting and OnStopExecuting each give one Info record naming caller and function. */
  lemma HookExecutingRendersOneInfoLine(e: Event)
    requires e.OnStartExecuting? || e.OnStopExecuting?
    ensures |Render(e)| == 1 && Render(e)[0].level == LevelInfo
    ensures Lookup(Render(e)[0].attrs, Caller) == Some(e.callerName)
    ensures Lookup(Render(e)[0].attrs, Function) == Some(e.functionName)
    ensures Lookup(Render(e)[0].attrs, Error) == None
  {
  }

  /** The events that always give exactly one record, Error exactly when they carry an error. */
  predicate IsOutcomeEvent(e: Event)
  {
    e.OnStartExecuted? || e.OnStopExecuted? || e.Supplied? || e.Stopped?
    || e.RolledBack? || e.Started? || e.LoggerInitialized?
  }

  /**
   * An outcome event gives exactly one record; it is Error-level if and only
   * if the event's `Err` is set, and its `error` attribute is exactly that error.
   */
  lemma OutcomeEventRendersOneLine(e: Event)
    requires IsOutcomeEvent(e)
    ensures |Render(e)| == 1
    ensures Render(e)[0].level == LevelError <==> e.err.Some?
    ensures Lookup(Render(e)[0].attrs, Error) == e.err
  {
  }

  /**
   * Provided gives one Info ProvidedType record per output type, in list order,
   * then one Error ProvideFailed record if and only if `Err` is set.
   */
  lemma {:induction false} ProvidedRendersOneLinePerType(e: Event)
    requires e.Provided?
    ensures |Render(e)| == |e.outputTypeNames| + (if e.err.Some? then 1 else 0)
    ensures forall i :: 0 <= i < |e.outputTypeNames| ==>
      Render(e)[i].level == LevelInfo && Render(e)[i].msg == ProvidedType &&
      Lookup(Render(e)[i].attrs, Type) == Some(e.outputTypeNames[i])
    ensures e.err.Some? ==>
      Render(e)[|e.outputTypeNames|] == ProvideFailedLine(e.constructorName, e.moduleName, e.err.value)
  {
    ProvidedLinesShape(e.constructorName, e.moduleName, e.outputTypeNames);
  }

  /** Invoked is silent on success and gives one Error record on failure. */
  lemma InvokedRendersOnlyFailure(e: Event)
    requires e.Invoked?
    ensures e.err.None? ==> Render(e) == []
    ensures e.err.Some? ==>
      |Render(e)| == 1 && Render(e)[0].level == LevelError && Lookup(Render(e)[0].attrs, Error) == e.err
  {
  }

  /** RollingBack is always one Error record carrying `StartErr`; Stopping one Info record carrying the signal. */
  lemma RollingBackAndStoppingRenderOneLine(e: Event)
    requires e.RollingBack? || e.Stopping?
    ensures |Render(e)| == 1
    ensures e.RollingBack? ==> Render(e)[0].level == LevelError && Lookup(Render(e)[0].attrs, Error) == Some(e.startErr)
    ensures e.Stopping? ==> Render(e)[0].level == LevelInfo && Lookup(Render(e)[0].attrs, Signal) == Some(e.signal)
  {
  }

  /** An unlisted event kind is never rejected: one Info UnhandledEvent record naming its type. */
  lemma UnhandledEventRendersOneInfoLine(t: string)
    ensures Render(Other(t)) == [LogLine(LevelInfo, UnhandledEvent, [(EventType, t)])]
  {
  }

  /** The only events that produce no record at all. */
  lemma SilentEvents(e: Event)
    ensures Render(e) == [] <==>
      (e.Invoked? && e.err.None?) || (e.Provided? && e.outputTypeNames == [] && e.err.None?)
  {
  }

  /** A `runtime` attribute appears exactly on the records of OnStartExecuted and OnStopExecuted. */
  lemma {:induction false} RuntimeOnlyOnExecutedHooks(e: Event)
    ensures forall l :: l in Render(e) ==>
      (Lookup(l.attrs, Runtime).Some? <==> e.OnStartExecuted? || e.OnStopExecuted?)
    ensures e.OnStartExecuted? || e.OnStopExecuted? ==>
      |Render(e)| == 1 && Lookup(Render(e)[0].attrs, Runtime) == Some(e.runtime)
  {
    if e.Provided? {
      ProvidedLinesAreInfo(e.constructorName, e.moduleName, e.outputTypeNames);
    } else {
      RuntimeOnlyOnExecutedHooksSingle(e);
    }
  }

  /** RuntimeOnlyOnExecutedHooks for the events other than Provided, whose records are written out. */
  lemma RuntimeOnlyOnExecutedHooksSingle(e: Event)
    requires !e.Provided?
    ensures forall l :: l in Render(e) ==>
      (Lookup(l.attrs, Runtime).Some? <==> e.OnStartExecuted? || e.OnStopExecuted?)
  {
  }

  /** Every ProvidedType record is Info and has neither an `error` nor a `runtime` attribute. */
  lemma {:induction false} ProvidedLinesAreInfo(ctor: string, mdl: string, types: seq<string>)
    ensures forall l :: l in ProvidedLines(ctor, mdl, types) ==>
      l.level == LevelInfo && Lookup(l.attrs, Error) == None && Lookup(l.attrs, Runtime) == None
  {
    if types != [] {
      ProvidedLinesAreInfo(ctor, mdl, types[1..]);
    }
  }

  /**
   * A record is Error-level exactly when it has an `error` attribute, and
   * that attribute is then `failure`.
   */
  predicate ErrorConsistent(l: LogLine, failure: Option<string>)
  {
    (l.level == LevelError <==> Lookup(l.attrs, Error).Some?)
    && (l.level == LevelError ==> Lookup(l.attrs, Error) == failure)
  }

  /**
   * Across every event: a record is Error-level exactly when it has an
   * `error` attribute, that attribute is the event's own error, and some
   * record is Error-level exactly when the event reports an error.
   */
  lemma {:induction false} ErrorLevelMatchesErrorAttribute(e: Event)
    ensures forall l :: l in Render(e) ==> ErrorConsistent(l, Failure(e))
    ensures (exists l :: l in Render(e) && l.level == LevelError) <==> Failure(e).Some?
  {
    if e.Provided? {
      ProvidedLinesAreInfo(e.constructorName, e.moduleName, e.outputTypeNames);
      ProvidedLinesShape(e.constructorName, e.moduleName, e.outputTypeNames);
      if e.err.Some? {
        assert Render(e)[|e.outputTypeNames|] in Render(e);
      }
    } else if IsOutcomeEvent(e) {
      ErrorConsistentOutcome(e);
    } else if e.Invoked? {
      if e.err.Some? {
        assert Render(e)[0] in Render(e);
      }
    } else if e.RollingBack? {
      assert Render(e)[0] in Render(e);
    } else {
      ErrorConsistentInfoOnly(e);
    }
  }

  /** ErrorLevelMatchesErrorAttribute for the outcome events. */
  lemma ErrorConsistentOutcome(e: Event)
    requires IsOutcomeEvent(e)
    ensures forall l :: l in Render(e) ==> ErrorConsistent(l, Failure(e))
    ensures (exists l :: l in Render(e) && l.level == LevelError) <==> Failure(e).Some?
  {
    OutcomeEventRendersOneLine(e);
    assert Render(e) == [Render(e)[0]];
    assert Render(e)[0] in Render(e);
  }

  /** ErrorLevelMatchesErrorAttribute for the events that carry no error. */
  lemma ErrorConsistentInfoOnly(e: Event)
    requires e.OnStartExecuting? || e.OnStopExecuting? || e.Invoking? || e.Stopping? || e.Other?
    ensures forall l :: l in Render(e) ==> ErrorConsistent(l, Failure(e))
    ensures (exists l :: l in Render(e) && l.level == LevelError) <==> Failure(e).Some?
  {
  }

  // ---------------------------------------------------------------------
  // Reading the records back: the renderer loses nothing but silence
  // ---------------------------------------------------------------------

  /**
   * The value of the `i`-th attribute of a record, or "" past its end. The
   * renderer writes every message's attributes in a fixed order, so reading
   * them back by position is enough.
   */
  function ValueAt(l: LogLine, i: nat): string
  {
    if i < |l.attrs| then l.attrs[i].1 else ""
  }

  /** The event a single record was written for, read from its message and attribute values. */
  function DecodeLine(l: LogLine): Option<Event>
  {
    match l.msg
    case OnStartHookExecuting => Some(OnStartExecuting(ValueAt(l, 0), ValueAt(l, 1)))
    case OnStartHookFailed => Some(OnStartExecuted(ValueAt(l, 0), ValueAt(l, 1), ValueAt(l, 3), Some(ValueAt(l, 2))))
    case OnStartHookExecuted => Some(OnStartExecuted(ValueAt(l, 0), ValueAt(l, 1), ValueAt(l, 2), None))
    case OnStopHookExecuting => Some(OnStopExecuting(ValueAt(l, 0), ValueAt(l, 1)))
    case OnStopHookFailed => Some(OnStopExecuted(ValueAt(l, 0), ValueAt(l, 1), ValueAt(l, 3), Some(ValueAt(l, 2))))
    case OnStopHookExecuted => Some(OnStopExecuted(ValueAt(l, 0), ValueAt(l, 1), ValueAt(l, 2), None))
    case SuppliedFailed => Some(Supplied(ValueAt(l, 0), ValueAt(l, 1), Some(ValueAt(l, 2))))
    case SuppliedType => Some(Supplied(ValueAt(l, 0), ValueAt(l, 1), None))
    case InvokingFunction => Some(Invoking(ValueAt(l, 0), ValueAt(l, 1)))
    case InvokedFailed => Some(Invoked(ValueAt(l, 0), ValueAt(l, 1), Some(ValueAt(l, 2))))
    case StoppingOnSignal => Some(Stopping(ValueAt(l, 0)))
    case StoppedWithError => Some(Stopped(Some(ValueAt(l, 0))))
    case StoppedCleanly => Some(Stopped(None))
    case RollingBackOnStartFailure => Some(RollingBack(ValueAt(l, 0)))
    case RollbackFailed => Some(RolledBack(Some(ValueAt(l, 0))))
    case RolledBackCleanly => Some(RolledBack(None))
    case StartFailed => Some(Started(Some(ValueAt(l, 0))))
    case StartedCleanly => Some(Started(None))
    case LoggerInitializationFailed => Some(LoggerInitialized(ValueAt(l, 0), Some(ValueAt(l, 1))))
    case LoggerInitializedCleanly => Some(LoggerInitialized(ValueAt(l, 0), None))
    case UnhandledEvent => Some(Other(ValueAt(l, 0)))
    case ProvidedType | ProvideFailed => None  // read as a run by DecodeProvided
  }

  /** Splits off the leading "Provided" records, returning their types and what follows. */
  function SplitProvided(lines: seq<LogLine>): (seq<string>, seq<LogLine>)
  {
    if lines == [] || lines[0].msg != ProvidedType then ([], lines)
    else
      var (types, rest) := SplitProvided(lines[1..]);
      ([ValueAt(lines[0], 2)] + types, rest)
  }

  /** The Provided event behind a run of ProvidedType records and an optional ProvideFailed. */
  function DecodeProvided(lines: seq<LogLine>): Option<Event>
    requires lines != []
  {
    var (types, rest) := SplitProvided(lines);
    var ctor, mdl := ValueAt(lines[0], 0), ValueAt(lines[0], 1);
    if rest == [] then Some(Provided(ctor, types, mdl, None))
    else if rest == [rest[0]] && rest[0].msg == ProvideFailed then
      Some(Provided(ctor, types, mdl, Some(ValueAt(rest[0], 2))))
    else None
  }

  /** The event a whole `Render` output was written for; None if no event renders to it. */
  function Decode(lines: seq<LogLine>): Option<Event>
  {
    if lines == [] then None
    else if lines[0].msg == ProvidedType || lines[0].msg == ProvideFailed then DecodeProvided(lines)
    else if lines == [lines[0]] then DecodeLine(lines[0])
    else None
  }

  /** Splitting the records of a Provided event gives back its types and leaves the rest alone. */
  lemma {:induction false} SplitProvidedLines(ctor: string, mdl: string, types: seq<string>, tail: seq<LogLine>)
    requires tail == [] || tail[0].msg != ProvidedType
    ensures SplitProvided(ProvidedLines(ctor, mdl, types) + tail) == (types, tail)
  {
    var lines := ProvidedLines(ctor, mdl, types) + tail;
    if types == [] {
      assert lines == tail;
    } else {
      assert lines[0] == ProvidedLine(ctor, mdl, types[0]);
      assert ValueAt(lines[0], 2) == types[0];
      assert lines[1..] == ProvidedLines(ctor, mdl, types[1..]) + tail;
      SplitProvidedLines(ctor, mdl, types[1..], tail);
      assert SplitProvided(lines) == ([types[0]] + types[1..], tail);
      assert [types[0]] + types[1..] == types;
    }
  }

  /** Decoding the records of a Provided event gives back the event. */
  lemma ProvidedRoundTrip(e: Event)
    requires e.Provided? && Render(e) != []
    ensures Decode(Render(e)) == Some(e)
  {
    var ctor, mdl, types := e.constructorName, e.moduleName, e.outputTypeNames;
    var tail := if e.err.Some? then [ProvideFailedLine(ctor, mdl, e.err.value)] else [];
    assert Render(e) == ProvidedLines(ctor, mdl, types) + tail;
    SplitProvidedLines(ctor, mdl, types, tail);
    ProvidedLinesShape(ctor, mdl, types);
  }

  /**
   * Every event that writes at least one record can be read back from its
   * records: the renderer loses no field it is given.
   */
  lemma RoundTrip(e: Event)
    requires Render(e) != []
    ensures Decode(Render(e)) == Some(e)
  {
    if e.Provided? {
      ProvidedRoundTrip(e);
    } else {
      assert Render(e) == [Render(e)[0]];
      LineRoundTrip(e);
    }
  }

  /** The one record of every other event that writes one reads back as the event. */
  lemma LineRoundTrip(e: Event)
    requires !e.Provided? && Render(e) != []
    ensures DecodeLine(Render(e)[0]) == Some(e)
  {
  }

  /** Two events that write the same non-empty records are the same event. */
  lemma RenderInjective(e1: Event, e2: Event)
    requires Render(e1) == Render(e2) != []
    ensures e1 == e2
  {
    RoundTrip(e1);
    RoundTrip(e2);
  }

  // ---------------------------------------------------------------------
  // The package-level logger
  // ---------------------------------------------------------------------

  /** Appending one type to a Provided event's list appends its one record. */
  lemma {:induction false} ProvidedLinesSnoc(ctor: string, mdl: string, types: seq<string>, t: string)
    ensures ProvidedLines(ctor, mdl, types + [t]) == ProvidedLines(ctor, mdl, types) + [ProvidedLine(ctor, mdl, t)]
  {
    if types != [] {
      assert (types + [t])[1..] == types[1..] + [t];
      ProvidedLinesSnoc(ctor, mdl, types[1..], t);
    } else {
      assert types + [t] == [t];
    }
  }

  /**
   * The package variable `Logger` and everything written through it.
   * `initialized` is false while the variable is still nil; `lines` holds
   * the records in the order they were written.
   */
  class Logger {
    var initialized: bool
    var lines: seq<LogLine>

    /** Program start: the variable is nil and nothing has been written. */
    constructor ()
      ensures !initialized && lines == []
    {
      initialized := false;
      lines := [];
    }

    /** `Initialize` installs the JSON logger; records already written stay as they are. */
    method Initialize()
      modifies this
      ensures initialized && lines == old(lines)
    {
      initialized := true;
    }

    /** One `Logger.Info` or `Logger.Error` call: appends one record. */
    method Write(level: Level, msg: Message, attrs: seq<Attr>)
      requires initialized
      modifies this
      ensures initialized && lines == old(lines) + [LogLine(level, msg, attrs)]
    {
      lines := lines + [LogLine(level, msg, attrs)];
    }

    /**
     * `JSONLogger.LogEvent`: writes the records for `e` after everything
     * already written. The logger must have been initialized.
     */
    method LogEvent(e: Event)
      requires initialized
      modifies this
      ensures initialized && lines == old(lines) + Render(e)
    {
      match e {
        case OnStartExecuting(caller, fn) =>
          Write(LevelInfo, OnStartHookExecuting, [(Caller, caller), (Function, fn)]);
        case OnStartExecuted(caller, fn, runtime, err) =>
          if err.Some? {
            Write(LevelError, OnStartHookFailed, [(Caller, caller), (Function, fn), (Error, err.value), (Runtime, runtime)]);
          } else {
            Write(LevelInfo, OnStartHookExecuted, [(Caller, caller), (Function, fn), (Runtime, runtime)]);
          }
        case OnStopExecuting(caller, fn) =>
          Write(LevelInfo, OnStopHookExecuting, [(Caller, caller), (Function, fn)]);
        case OnStopExecuted(caller, fn, runtime, err) =>
          if err.Some? {
            Write(LevelError, OnStopHookFailed, [(Caller, caller), (Function, fn), (Error, err.value), (Runtime, runtime)]);
          } else {
            Write(LevelInfo, OnStopHookExecuted, [(Caller, caller), (Function, fn), (Runtime, runtime)]);
          }
        case Supplied(typeName, mdl, err) =>
          if err.Some? {
            Write(LevelError, SuppliedFailed, [(Type, typeName), (Module, mdl), (Error, err.value)]);
          } else {
            Write(LevelInfo, SuppliedType, [(Type, typeName), (Module, mdl)]);
          }
        case Provided(ctor, types, mdl, err) =>
          for i := 0 to |types|
            invariant initialized
            invariant lines == old(lines) + ProvidedLines(ctor, mdl, types[..i])
          {
            Write(LevelInfo, ProvidedType, [(Constructor, ctor), (Module, mdl), (Type, types[i])]);
            ProvidedLinesSnoc(ctor, mdl, types[..i], types[i]);
            assert types[..i + 1] == types[..i] + [types[i]];
          }
          assert types[..|types|] == types;
          if err.Some? {
            Write(LevelError, ProvideFailed, [(Constructor, ctor), (Module, mdl), (Error, err.value)]);
          }
        case Invoking(fn, mdl) =>
          Write(LevelInfo, InvokingFunction, [(Function, fn), (Module, mdl)]);
        case Invoked(fn, mdl, err) =>
          if err.Some? {
            Write(LevelError, InvokedFailed, [(Function, fn), (Module, mdl), (Error, err.value)]);
          }
        case Stopping(signal) =>
          Write(LevelInfo, StoppingOnSignal, [(Signal, signal)]);
        case Stopped(err) =>
          if err.Some? {
            Write(LevelError, StoppedWithError, [(Error, err.value)]);
          } else {
            Write(LevelInfo, StoppedCleanly, []);
          }
        case RollingBack(startErr) =>
          Write(LevelError, RollingBackOnStartFailure, [(Error, startErr)]);
        case RolledBack(err) =>
          if err.Some? {
            Write(LevelError, RollbackFailed, [(Error, err.value)]);
          } else {
            Write(LevelInfo, RolledBackCleanly, []);
          }
        case Started(err) =>
          if err.Some? {
            Write(LevelError, StartFailed, [(Error, err.value)]);
          } else {
            Write(LevelInfo, StartedCleanly, []);
          }
        case LoggerInitialized(ctor, err) =>
          if err.Some? {
            Write(LevelError, LoggerInitializationFailed, [(Function, ctor), (Error, err.value)]);
          } else {
            Write(LevelInfo, LoggerInitializedCleanly, [(Function, ctor)]);
          }
        case Other(eventType) =>
          Write(LevelInfo, UnhandledEvent, [(EventType, eventType)]);
      }
    }
  }
}
