/** The zap adapter: a go-kit logger that hands each event to a zap sugared
    logger, choosing the sugared method by the event's level pair. The zap
    library is outside the model; its methods are recorded as calls. */
module ZapSugar {
  import opened KitValues

  /** `zapcore.Level`, an `int8`. */
  newtype ZapLevel = x: int | -128 <= x < 128

  const DebugLevel: ZapLevel := -1
  const InfoLevel: ZapLevel := 0
  const WarnLevel: ZapLevel := 1
  const ErrorLevel: ZapLevel := 2
  const DPanicLevel: ZapLevel := 3
  const PanicLevel: ZapLevel := 4
  const FatalLevel: ZapLevel := 5

  /** The keyed methods of `zap.SugaredLogger`. */
  datatype SugarMethod = Debugw | Infow | Warnw | Errorw | DPanicw | Panicw | Fatalw

  /** The level at which zap writes an entry made by each keyed method. */
  function MethodLevel(m: SugarMethod): ZapLevel {
    match m
    case Debugw => DebugLevel
    case Infow => InfoLevel
    case Warnw => WarnLevel
    case Errorw => ErrorLevel
    case DPanicw => DPanicLevel
    case Panicw => PanicLevel
    case Fatalw => FatalLevel
  }

  /** The zap level that a go-kit level value names. */
  function KitToZap(level: KitLevel): ZapLevel {
    match level
    case Debug => DebugLevel
    case Info => InfoLevel
    case Warn => WarnLevel
    case Error => ErrorLevel
  }

  /** One call made on the sugared logger: the plain `Info(args...)` (PlainInfo), or a
      keyed method with its message and key/value list. */
  datatype ZapCall =
    | PlainInfo(args: seq<Value>)
    | Keyed(sugarMethod: SugarMethod, msg: string, keysAndValues: seq<Value>)

  /** `zapSugarLogger`: the sugared logger is external; what the adapter
      decides is the keyed method its default path calls. */
  datatype ZapSugarLogger = ZapSugarLogger(defaultMethod: SugarMethod)

  predicate IsNamedLevel(level: ZapLevel) {
    DebugLevel <= level <= FatalLevel
  }

  /** `NewZapSugarLogger`: the default path logs at the configured level
      when zap names it, and at Info for any other level. */
  function NewZapSugarLogger(level: ZapLevel): (l: ZapSugarLogger)
    ensures IsNamedLevel(level) ==> MethodLevel(l.defaultMethod) == level
    ensures !IsNamedLevel(level) ==> l.defaultMethod == Infow
  {
    if level == DebugLevel then ZapSugarLogger(Debugw)
    else if level == InfoLevel then ZapSugarLogger(Infow)
    else if level == WarnLevel then ZapSugarLogger(Warnw)
    else if level == ErrorLevel then ZapSugarLogger(Errorw)
    else if level == DPanicLevel then ZapSugarLogger(DPanicw)
    else if level == PanicLevel then ZapSugarLogger(Panicw)
    else if level == FatalLevel then ZapSugarLogger(Fatalw)
    else ZapSugarLogger(Infow)
  }

  /** Every keyed method is the default of exactly the level it logs at. */
  lemma NewZapSugarLoggerRoundTrip(m: SugarMethod, level: ZapLevel)
    ensures NewZapSugarLogger(MethodLevel(m)).defaultMethod == m
    ensures IsNamedLevel(level) ==> MethodLevel(NewZapSugarLogger(level).defaultMethod) == level
  {
  }

  /** The level pair at the head of an event, if it is there and names one
      of the four go-kit levels. */
  function ExplicitLevel(kv: seq<Value>): Option<KitLevel> {
    if |kv| >= 2 && kv[0] == LevelKey && kv[1].LevelValue? then Some(kv[1].level) else None
  }

  /** The outcome of one `Log` call: the calls made on zap, and the error
      returned (Go's nil is `None`). */
  datatype LogResult = LogResult(calls: seq<ZapCall>, err: Option<string>)

  /** `zapSugarLogger.Log`. */
  function Log(l: ZapSugarLogger, kv: seq<Value>): (r: LogResult)
    ensures r.err == None
    ensures |r.calls| == 1
    ensures |kv| <= 1 ==> r.calls == [PlainInfo(kv)]
    ensures |kv| >= 2 && ExplicitLevel(kv).Some? ==>
      r.calls[0].Keyed? && MethodLevel(r.calls[0].sugarMethod) == KitToZap(ExplicitLevel(kv).value)
      && r.calls[0].msg == "" && r.calls[0].keysAndValues == kv[2..]
    ensures |kv| >= 2 && ExplicitLevel(kv).None? ==>
      r.calls == [Keyed(l.defaultMethod, "", kv)]
  {
    if |kv| <= 1 then LogResult([PlainInfo(kv)], None)
    else if kv[0] == LevelKey then
      match kv[1]
      case LevelValue(Error) => LogResult([Keyed(Errorw, "", kv[2..])], None)
      case LevelValue(Warn) => LogResult([Keyed(Warnw, "", kv[2..])], None)
      case LevelValue(Info) => LogResult([Keyed(Infow, "", kv[2..])], None)
      case LevelValue(Debug) => LogResult([Keyed(Debugw, "", kv[2..])], None)
      case _ => DefaultLog(l, kv)
    else DefaultLog(l, kv)
  }

  /** The `defaultLog` closure built by `NewZapSugarLogger`: the configured
      keyed method with an empty message, and a nil error. */
  function DefaultLog(l: ZapSugarLogger, kv: seq<Value>): LogResult {
    LogResult([Keyed(l.defaultMethod, "", kv)], None)
  }

  /** The default path of an adapter made by `NewZapSugarLogger` makes one
      keyed call at the configured level (Info for an unnamed one), with an
      empty message and the event whole, and never reports an error. */
  lemma DefaultLogAtConfiguredLevel(level: ZapLevel, kv: seq<Value>)
    ensures var r := DefaultLog(NewZapSugarLogger(level), kv);
      && r.err == None
      && |r.calls| == 1
      && r.calls[0].Keyed?
      && MethodLevel(r.calls[0].sugarMethod) == (if IsNamedLevel(level) then level else InfoLevel)
      && r.calls[0].msg == ""
      && r.calls[0].keysAndValues == kv
  {
  }

  /** Nothing is invented or reordered: the values zap receives are the
      event itself, or the event with its leading level pair dropped. */
  lemma LogForwardsSuffix(l: ZapSugarLogger, kv: seq<Value>)
    ensures var c := Log(l, kv).calls[0];
      var args := if c.PlainInfo? then c.args else c.keysAndValues;
      kv == args || (|kv| >= 2 && kv[0] == LevelKey && kv[1].LevelValue? && kv == kv[..2] + args)
  {
  }

  /** An explicit level in the event overrides the configured default: two
      adapters configured at any levels log the event the same way. */
  lemma ExplicitLevelOverridesDefault(l1: ZapSugarLogger, l2: ZapSugarLogger, level: KitLevel, rest: seq<Value>)
    ensures Log(l1, [LevelKey, LevelValue(level)] + rest) == Log(l2, [LevelKey, LevelValue(level)] + rest)
  {
  }

  /** The level an event is logged at: its own level pair's when it has
      one, otherwise the configured level (Info for an unnamed one). The
      level pair itself is dropped, nothing else is. */
  lemma {:induction false} EffectiveLevel(configured: ZapLevel, kv: seq<Value>)
    requires |kv| >= 2
    ensures var c := Log(NewZapSugarLogger(configured), kv).calls[0];
      && c.Keyed?
      && MethodLevel(c.sugarMethod) == (
        if ExplicitLevel(kv).Some? then KitToZap(ExplicitLevel(kv).value)
        else if IsNamedLevel(configured) then configured
        else InfoLevel)
      && c.keysAndValues == (if ExplicitLevel(kv).Some? then kv[2..] else kv)
  {
  }

  /** An event tagged with a level string rather than a level value is not
      a level pair: it goes to the default path whole, level key included. */
  lemma LevelStringIsNotLevelValue(l: ZapSugarLogger, rest: seq<Value>)
    ensures Log(l, [LevelKey, Str("error")] + rest).calls == [Keyed(l.defaultMethod, "", [LevelKey, Str("error")] + rest)]
  {
  }
}
