/**
  The go-kit logger adapter of integration/kit/logger.go: a go-kit `Log(kvs...)`
  call becomes one call of a leveled logger method, the level and the message
  being taken out of the key/value pairs.
 */
module KitLogger {
  import opened Wrappers
  import opened Levels
  import opened Fields
  import opened KeyVals
  import opened TestLogging

  /**
    The adapter: the level method each lower-case level name selects, and the
    method used when none is selected. A method is identified by its level.
   */
  datatype Logger = Logger(logFuncs: map<string, Level>, defaultLogFunc: Level)

  /** New: the six names, "warning" an alias of "warn", and Info by default. */
  function New(): (l: Logger)
    ensures l.logFuncs.Keys == LevelNames
    ensures forall name :: name in l.logFuncs ==> String(l.logFuncs[name]) == (if name == "warning" then "warn" else name)
    ensures l.defaultLogFunc == Info
  {
    Logger(map["trace" := Trace, "debug" := Debug, "info" := Info, "warn" := Warn, "warning" := Warn, "error" := Error], Info)
  }

  /** The table of New selects the level ParseLevel gives its name. */
  lemma TableAgreesWithParseLevel(name: string)
    requires name in New().logFuncs
    ensures ParseLevel(name) == (New().logFuncs[name], true)
  {
    LowerOfLower(name);
  }

  /** The value a dangling key gets. */
  const Missing: Value := Str("(MISSING)")

  /** fmt.Sprintf("%s", v): a string as it is; anything else with the %!s marker of a wrong verb. */
  function FormatS(v: Value): (r: string)
    ensures v.Str? ==> r == v.s
    ensures !v.Str? ==> |r| > 3 && r[..3] == "%!s"
  {
    match v
    case Str(s) => s
    case Nil => "%!s(<nil>)"
    case Int(i) => "%!s(int=" + IntString(i) + ")"
    case Bool(b) => "%!s(bool=" + (if b then "true" else "false") + ")"
  }

  /** The fields a pair list denotes after padding: keyvals.ToMap. */
  function ToMap(kvs: seq<Value>): Fields {
    PairsMap(Padded(kvs, Missing))
  }

  /** The call Log makes on the wrapped logger for `kvs`. */
  function Forwarded(l: Logger, kvs: seq<Value>): Call {
    var fields := ToMap(kvs);
    var name := ToLower(FormatS(Lookup(fields, "level")));
    var level := if name in l.logFuncs then l.logFuncs[name] else l.defaultLogFunc;
    var rest := if name in l.logFuncs then fields - {"level"} else fields;
    var msg := if "msg" in rest then FormatS(rest["msg"]) else "";
    Call(level, msg, [rest - {"msg"}], None)
  }

  /**
    Log: pads an odd list with "(MISSING)", selects the method by the "level"
    entry (removing it when it names a level), takes the message out of the "msg"
    entry, calls the method once with the remaining fields and returns nil.
   */
  method Log(l: Logger, sink: TestLoggerFacade, kvs: seq<Value>) returns (err: Option<string>)
    modifies sink
    ensures sink.events == old(sink.events) + [EventOf(Forwarded(l, kvs))]
    ensures err == None
  {
    var padded := kvs;
    if |padded| % 2 == 1 {
      padded := padded + [Missing];
    }
    assert padded == Padded(kvs, Missing);
    var fields := PairsMap(padded);
    var logFunc := l.defaultLogFunc;
    var name := ToLower(FormatS(Lookup(fields, "level")));
    if name in l.logFuncs {
      fields := fields - {"level"};
      logFunc := l.logFuncs[name];
    }
    var msg := "";
    if "msg" in fields {
      var m := fields["msg"];
      fields := fields - {"msg"};
      msg := FormatS(m);
    } else {
      assert fields - {"msg"} == fields;
    }
    sink.Receive(Call(logFunc, msg, [fields], None));
    return None;
  }

  /**
    The level of the forwarded call is the level ParseLevel finds in the "level"
    entry's text, and Info when there is no such entry or it names no level.
   */
  lemma ForwardedLevel(kvs: seq<Value>)
    ensures var text := FormatS(Lookup(ToMap(kvs), "level"));
      Forwarded(New(), kvs).level == if ParseLevel(text).1 then ParseLevel(text).0 else Info
  {
    var name := ToLower(FormatS(Lookup(ToMap(kvs), "level")));
    if name in New().logFuncs {
      TableAgreesWithParseLevel(name);
      ToLowerIdempotent(FormatS(Lookup(ToMap(kvs), "level")));
    }
  }

  /**
    The forwarded fields are the pairs' fields without "msg", and without "level"
    exactly when it named a level; every other entry is kept with its value.
   */
  lemma ForwardedFields(kvs: seq<Value>)
    ensures var fields, sent := ToMap(kvs), Forwarded(New(), kvs).fields[0];
      && "msg" !in sent
      && ("level" in sent <==> "level" in fields && !ParseLevel(FormatS(fields["level"])).1)
      && (forall k :: k != "msg" && k != "level" ==> (k in sent <==> k in fields))
      && (forall k :: k in sent ==> sent[k] == fields[k])
  {
    var fields := ToMap(kvs);
    var name := ToLower(FormatS(Lookup(fields, "level")));
    assert "level" !in fields ==> name !in LevelNames;
  }

  /** The message is the "msg" entry's text, or empty without one. */
  lemma ForwardedMessage(kvs: seq<Value>)
    ensures var fields := ToMap(kvs);
      Forwarded(New(), kvs).msg == if "msg" in fields then FormatS(fields["msg"]) else ""
  {
  }

  /** `Log("msg", "message", "key", "value")` logs "message" at Info with {"key": "value"}. */
  lemma MessageScenario()
    ensures Forwarded(New(), [Str("msg"), Str("message"), Str("key"), Str("value")])
            == Call(Info, "message", [map["key" := Str("value")]], None)
  {
    var kvs := [Str("msg"), Str("message"), Str("key"), Str("value")];
    assert [] + [Str("msg"), Str("message")] + [Str("key"), Str("value")] == kvs;
    PairsMapSnoc([], Str("msg"), Str("message"));
    PairsMapSnoc([Str("msg"), Str("message")], Str("key"), Str("value"));
    assert ToMap(kvs) == map["msg" := Str("message"), "key" := Str("value")];
    assert ToLower(FormatS(Nil)) !in LevelNames;
    assert ToMap(kvs) - {"msg"} == map["key" := Str("value")];
  }

  /** `Log("key")` logs at Info with {"key": "(MISSING)"}. */
  lemma MissingValueScenario()
    ensures Forwarded(New(), [Str("key")]) == Call(Info, "", [map["key" := Missing]], None)
  {
    assert [] + [Str("key"), Missing] == Padded([Str("key")], Missing);
    PairsMapSnoc([], Str("key"), Missing);
    assert ToMap([Str("key")]) == map["key" := Missing];
    assert ToLower(FormatS(Nil)) !in LevelNames;
    assert map["key" := Missing] - {"msg"} == map["key" := Missing];
  }

  /** `Log("level", name)` for each name of the table logs at that level with no fields. */
  lemma LevelScenario(name: string)
    requires name in New().logFuncs
    ensures Forwarded(New(), [Str("level"), Str(name)]) == Call(New().logFuncs[name], "", [map[]], None)
  {
    var kvs := [Str("level"), Str(name)];
    assert [] + kvs == kvs;
    PairsMapSnoc([], Str("level"), Str(name));
    assert ToMap(kvs) == map["level" := Str(name)];
    LowerOfLower(name);
    assert map["level" := Str(name)] - {"level"} == map[];
  }
}
