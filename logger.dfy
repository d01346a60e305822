/**
 * The structured logger shared by the services: console methods replaced by functions that
 * filter by level and write one JSON entry, and loggers with fixed context fields.
 */
module Logger {
  import opened Wrappers
  import opened Text

  datatype Level = Error | Warn | Info | Debug

  function LevelName(l: Level): string {
    match l
    case Error => "error"
    case Warn => "warn"
    case Info => "info"
    case Debug => "debug"
  }

  /** LEVEL_PRIORITY: a lower number is more severe. */
  function Priority(l: Level): (p: nat)
    ensures p <= 3
  {
    match l
    case Error => 0
    case Warn => 1
    case Info => 2
    case Debug => 3
  }

  /** The priorities order the levels strictly, most severe first. */
  lemma PrioritiesOrdered(a: Level, b: Level)
    ensures Priority(a) == Priority(b) <==> a == b
    ensures Priority(Error) < Priority(Warn) < Priority(Info) < Priority(Debug)
  {
  }

  /** LEVEL_PRIORITY[name] as a level: only the four lower-case names are known. */
  function LevelNamed(name: string): (r: Option<Level>)
    ensures r.Some? ==> LevelName(r.value) == name
    ensures r.None? <==> forall l: Level :: LevelName(l) != name
  {
    if name == "error" then Some(Error)
    else if name == "warn" then Some(Warn)
    else if name == "info" then Some(Info)
    else if name == "debug" then Some(Debug)
    else None
  }

  /** The console methods that get replaced, in the order of METHOD_LEVEL. */
  datatype ConsoleMethod = LogMethod | InfoMethod | WarnMethod | ErrorMethod | DebugMethod

  const MethodOrder: seq<ConsoleMethod> := [LogMethod, InfoMethod, WarnMethod, ErrorMethod, DebugMethod]

  /** METHOD_LEVEL: console.log writes at info level like console.info. */
  function MethodLevel(m: ConsoleMethod): (l: Level)
    ensures m == LogMethod || m == InfoMethod <==> l == Info
  {
    match m
    case LogMethod => Info
    case InfoMethod => Info
    case WarnMethod => Warn
    case ErrorMethod => Error
    case DebugMethod => Debug
  }

  lemma MethodOrderComplete(m: ConsoleMethod)
    ensures m in MethodOrder
  {
  }

  // ---------------------------------------------------------------- options

  /** A logged JavaScript value: the cases safeSerialize tells apart, arrays for `context`,
      and every other value by its printed form. */
  datatype Value = Null | Undefined | Str(s: string) | Arr(items: seq<Value>) | Other(repr: string)

  type Fields = map<string, Value>

  datatype Options = Options(serviceName: string, logLevel: string, defaultFields: Fields)

  /** The argument of patchConsole: each field may be left out. */
  datatype CustomOptions = CustomOptions(serviceName: Option<string>, logLevel: Option<string>, defaultFields: Option<Fields>)

  /** SERVICE_NAME, APP_NAME and LOG_LEVEL from the environment. */
  datatype ProcessEnv = ProcessEnv(serviceName: Option<string>, appName: Option<string>, logLevel: Option<string>)

  const FallbackService := "pixcelbob-service"

  /** DEFAULT_OPTIONS: the first truthy service name, the lower-cased level (info when unset). */
  function DefaultOptions(env: ProcessEnv): (o: Options)
    ensures Present(env.serviceName) ==> o.serviceName == env.serviceName.value
    ensures !Present(env.serviceName) && Present(env.appName) ==> o.serviceName == env.appName.value
    ensures !Present(env.serviceName) && !Present(env.appName) ==> o.serviceName == FallbackService
    ensures o.logLevel == ToLower(if Present(env.logLevel) then env.logLevel.value else "info")
    ensures o.defaultFields == map[]
  {
    Options(
      if Present(env.serviceName) then env.serviceName.value else if Present(env.appName) then env.appName.value else FallbackService,
      ToLower(if Present(env.logLevel) then env.logLevel.value else "info"),
      map[])
  }

  /** { ...DEFAULT_OPTIONS, ...customOptions }: every field given replaces the default one. */
  function Merge(d: Options, c: CustomOptions): (o: Options)
    ensures o.serviceName == c.serviceName.GetOr(d.serviceName)
    ensures o.logLevel == c.logLevel.GetOr(d.logLevel)
    ensures o.defaultFields == c.defaultFields.GetOr(d.defaultFields)
  {
    Options(c.serviceName.GetOr(d.serviceName), c.logLevel.GetOr(d.logLevel), c.defaultFields.GetOr(d.defaultFields))
  }

  /** Leaving every field out keeps the defaults. */
  lemma MergeEmpty(d: Options)
    ensures Merge(d, CustomOptions(None, None, None)) == d
  {
  }

  /** The properties every object literal inherits from Object.prototype. LEVEL_PRIORITY[name]
      is a function or an object for these, not undefined, so `??` keeps it. */
  const InheritedNames: set<string> := {
    "constructor", "__proto__", "hasOwnProperty", "isPrototypeOf", "propertyIsEnumerable",
    "toString", "valueOf", "toLocaleString",
    "__defineGetter__", "__defineSetter__", "__lookupGetter__", "__lookupSetter__"}

  /** LEVEL_PRIORITY[options.logLevel] ?? LEVEL_PRIORITY.info: a priority, or `None` when the
      lookup hits an inherited member, which compares as NaN. */
  function Threshold(logLevel: string): (t: Option<nat>)
    ensures LevelNamed(logLevel).Some? ==> t == Some(Priority(LevelNamed(logLevel).value))
    ensures LevelNamed(logLevel).None? && logLevel in InheritedNames ==> t == None
    ensures LevelNamed(logLevel).None? && logLevel !in InheritedNames ==> t == Some(Priority(Info))
  {
    match LevelNamed(logLevel)
    case Some(l) => Some(Priority(l))
    case None => if logLevel in InheritedNames then None else Some(Priority(Info))
  }

  /** LEVEL_PRIORITY[level] > minLevelPriority: never true against NaN. */
  predicate Dropped(level: Level, threshold: Option<nat>) {
    threshold.Some? && Priority(level) > threshold.value
  }

  /** Errors always get through. Debug output is written only at the debug level or when the
      level names an inherited member, which filters nothing. Any other unknown or upper-case
      level behaves like info. */
  lemma FilterFacts(logLevel: string)
    ensures !Dropped(Error, Threshold(logLevel))
    ensures Dropped(Debug, Threshold(logLevel)) <==> LevelNamed(logLevel) != Some(Debug) && logLevel !in InheritedNames
    ensures LevelNamed(logLevel).None? && logLevel !in InheritedNames ==>
              forall l: Level :: Dropped(l, Threshold(logLevel)) <==> l == Debug
    ensures logLevel in InheritedNames ==> forall l: Level :: !Dropped(l, Threshold(logLevel))
    ensures Threshold("DEBUG") == Threshold("info")
  {
  }

  /** The lower-casing of LOG_LEVEL keeps two inherited names, so an environment can switch the
      filter off entirely. */
  lemma InheritedLevelFromEnvironment(env: ProcessEnv)
    requires env.logLevel == Some("constructor") || env.logLevel == Some("__proto__")
    ensures forall l: Level :: !Dropped(l, Threshold(DefaultOptions(env).logLevel))
  {
    var x := env.logLevel.value;
    assert ToLower(x) == x by {
      forall i | 0 <= i < |x| ensures ToLower(x)[i] == x[i] {
      }
    }
    FilterFacts(x);
  }

  // ---------------------------------------------------------------- entries

  /** safeSerialize: null, undefined and strings as they are, anything else through its JSON
      round trip (or util.inspect), given here as `roundTrip`. */
  function SafeSerialize(v: Value, roundTrip: Value -> Value): (r: Value)
    ensures v.Null? || v.Undefined? || v.Str? ==> r == v
    ensures !(v.Null? || v.Undefined? || v.Str?) ==> r == roundTrip(v)
  {
    if v.Null? || v.Undefined? || v.Str? then v else roundTrip(v)
  }

  function SerializeAll(args: seq<Value>, roundTrip: Value -> Value): (r: seq<Value>)
    ensures |r| == |args|
    ensures forall i :: 0 <= i < |args| ==> r[i] == SafeSerialize(args[i], roundTrip)
  {
    if args == [] then [] else [SafeSerialize(args[0], roundTrip)] + SerializeAll(args[1..], roundTrip)
  }

  const ObjectMessage := "[object]"

  /** The fields every entry starts with, then the default fields spread over them. */
  function BaseEntry(level: Level, options: Options, timestamp: string): Fields {
    map["timestamp" := Str(timestamp), "level" := Str(LevelName(level)), "service" := Str(options.serviceName)]
    + options.defaultFields
  }

  /** buildEntry */
  function BuildEntry(level: Level, args: seq<Value>, options: Options, timestamp: string, roundTrip: Value -> Value): (e: Fields)
    ensures "message" in e && "timestamp" in e && "level" in e && "service" in e
    ensures forall k :: k in options.defaultFields && k != "message" && k != "context" ==> k in e && e[k] == options.defaultFields[k]
    ensures "level" !in options.defaultFields ==> e["level"] == Str(LevelName(level))
    ensures "service" !in options.defaultFields ==> e["service"] == Str(options.serviceName)
    ensures "timestamp" !in options.defaultFields ==> e["timestamp"] == Str(timestamp)
    ensures args == [] ==> e["message"] == Str("")
    ensures (args == [] || (args[0].Str? && |args| == 1)) ==>
              ("context" in e <==> "context" in options.defaultFields)
              && ("context" in e ==> e["context"] == options.defaultFields["context"])
    ensures args != [] && args[0].Str? ==> e["message"] == args[0]
    ensures args != [] && args[0].Str? && |args| > 1 ==>
              "context" in e && e["context"] == Arr(SerializeAll(args[1..], roundTrip))
    ensures args != [] && !args[0].Str? ==>
              e["message"] == Str(ObjectMessage) && "context" in e && e["context"] == Arr(SerializeAll(args, roundTrip))
  {
    var base := BaseEntry(level, options, timestamp);
    if args == [] then base["message" := Str("")]
    else if args[0].Str? then
      var withMessage := base["message" := args[0]];
      if |args| > 1 then withMessage["context" := Arr(SerializeAll(args[1..], roundTrip))] else withMessage
    else
      assert SerializeAll(args, roundTrip) == [SafeSerialize(args[0], roundTrip)] + SerializeAll(args[1..], roundTrip);
      base["message" := Str(ObjectMessage)]["context" := Arr(SerializeAll(args, roundTrip))]
  }

  /** The context holds one element per argument after the message, in order. */
  lemma ContextElements(level: Level, args: seq<Value>, options: Options, timestamp: string, roundTrip: Value -> Value)
    requires |args| > 1 || (args != [] && !args[0].Str?)
    ensures var e := BuildEntry(level, args, options, timestamp, roundTrip);
            var skip := if args[0].Str? then 1 else 0;
            && e["context"].Arr?
            && |e["context"].items| == |args| - skip
            && forall i :: skip <= i < |args| ==> e["context"].items[i - skip] == SafeSerialize(args[i], roundTrip)
  {
  }

  /** The stream emitLog writes to. */
  datatype Sink = ErrorStream | WarnStream | LogStream

  function Route(level: Level): (s: Sink)
    ensures s == ErrorStream <==> level == Error
    ensures s == WarnStream <==> level == Warn
    ensures s == LogStream <==> level == Info || level == Debug
  {
    match level
    case Error => ErrorStream
    case Warn => WarnStream
    case _ => LogStream
  }

  /** One line written: the stream and the entry JSON.stringify turns into that line. */
  datatype Emitted = Emitted(sink: Sink, entry: Fields)

  // ---------------------------------------------------------------- patched console

  /** What a console method does: the original one, or the replacement with its level and the
      options (and threshold) patchConsole captured. */
  datatype Handler = Original | Patched(level: Level, options: Options, threshold: Option<nat>)

  /** A call of a replaced method: nothing when the level is filtered out, else one entry. */
  function PatchedCall(level: Level, options: Options, threshold: Option<nat>, args: seq<Value>, timestamp: string,
                       roundTrip: Value -> Value): (r: Option<Emitted>)
    ensures r.None? <==> Dropped(level, threshold)
    ensures r.Some? ==> r.value.sink == Route(level) && r.value.entry == BuildEntry(level, args, options, timestamp, roundTrip)
  {
    if Dropped(level, threshold) then None else Some(Emitted(Route(level), BuildEntry(level, args, options, timestamp, roundTrip)))
  }

  /** The global console object, one handler per method. */
  class Console {
    var handlers: map<ConsoleMethod, Handler>

    constructor()
      ensures forall m :: m in MethodOrder ==> m in handlers && handlers[m] == Original
    {
      handlers := map m | m in MethodOrder :: Original;
    }

    /** patchConsole(customOptions): every method in METHOD_LEVEL is replaced. */
    method PatchConsole(custom: CustomOptions, env: ProcessEnv)
      modifies this
      ensures var options := Merge(DefaultOptions(env), custom);
              forall m :: m in MethodOrder ==>
                m in handlers && handlers[m] == Patched(MethodLevel(m), options, Threshold(options.logLevel))
      ensures forall m :: m in old(handlers) ==> m in handlers
    {
      var options := Merge(DefaultOptions(env), custom);
      var threshold := Threshold(options.logLevel);
      var i := 0;
      while i < |MethodOrder|
        invariant 0 <= i <= |MethodOrder|
        invariant forall j :: 0 <= j < i ==>
                    MethodOrder[j] in handlers && handlers[MethodOrder[j]] == Patched(MethodLevel(MethodOrder[j]), options, threshold)
        invariant forall m :: m in old(handlers) ==> m in handlers
      {
        var m := MethodOrder[i];
        handlers := handlers[m := Patched(MethodLevel(m), options, threshold)];
        i := i + 1;
      }
    }

    /** console.<m>(...args): `None` for a patched call that is filtered out, the original
        method's output is not modelled. */
    function Call(m: ConsoleMethod, args: seq<Value>, timestamp: string, roundTrip: Value -> Value): (r: Option<Emitted>)
      reads this
      requires m in handlers && handlers[m].Patched?
      ensures r.None? <==> Dropped(handlers[m].level, handlers[m].threshold)
      ensures r.Some? ==> r.value.sink == Route(handlers[m].level)
                          && r.value.entry == BuildEntry(handlers[m].level, args, handlers[m].options, timestamp, roundTrip)
    {
      var h := handlers[m];
      PatchedCall(h.level, h.options, h.threshold, args, timestamp, roundTrip)
    }
  }

  /** After patching with the defaults, console.debug is silent unless LOG_LEVEL is debug or an
      inherited name, and console.error always writes to the error stream. */
  method PatchedDefaults(env: ProcessEnv, args: seq<Value>, timestamp: string, roundTrip: Value -> Value)
    returns (debugOut: Option<Emitted>, errorOut: Option<Emitted>)
    ensures debugOut.Some? <==> LevelNamed(DefaultOptions(env).logLevel) == Some(Debug) || DefaultOptions(env).logLevel in InheritedNames
    ensures errorOut.Some? && errorOut.value.sink == ErrorStream
  {
    var console := new Console();
    console.PatchConsole(CustomOptions(None, None, None), env);
    MergeEmpty(DefaultOptions(env));
    FilterFacts(DefaultOptions(env).logLevel);
    debugOut := console.Call(DebugMethod, args, timestamp, roundTrip);
    errorOut := console.Call(ErrorMethod, args, timestamp, roundTrip);
  }

  // ---------------------------------------------------------------- createLogger

  /** A logger made by createLogger: its default fields are the context. */
  datatype ContextLogger = ContextLogger(baseFields: Fields)

  function CreateLogger(context: Fields): (l: ContextLogger)
    ensures l.baseFields == context
  {
    ContextLogger(map[] + context)
  }

  /** logWithLevel: no level filter, the default options with the logger's fields. */
  function LogWith(logger: ContextLogger, env: ProcessEnv, level: Level, args: seq<Value>, timestamp: string,
                   roundTrip: Value -> Value): (r: Emitted)
    ensures r.sink == Route(level)
    ensures r.entry == BuildEntry(level, args, DefaultOptions(env).(defaultFields := logger.baseFields), timestamp, roundTrip)
    ensures forall k :: k in logger.baseFields && k != "message" && k != "context" ==> k in r.entry && r.entry[k] == logger.baseFields[k]
  {
    Emitted(Route(level), BuildEntry(level, args, DefaultOptions(env).(defaultFields := logger.baseFields), timestamp, roundTrip))
  }

  /** A context logger always writes debug entries; the patched console with the same defaults
      drops them exactly when the level is neither debug nor an inherited name. */
  lemma LoggerIgnoresLevel(context: Fields, env: ProcessEnv, args: seq<Value>, timestamp: string, roundTrip: Value -> Value)
    ensures LogWith(CreateLogger(context), env, Debug, args, timestamp, roundTrip).sink == LogStream
    ensures PatchedCall(Debug, DefaultOptions(env), Threshold(DefaultOptions(env).logLevel), args, timestamp, roundTrip).None?
            <==> LevelNamed(DefaultOptions(env).logLevel) != Some(Debug) && DefaultOptions(env).logLevel !in InheritedNames
  {
    FilterFacts(DefaultOptions(env).logLevel);
  }
}
