/**
  The older field-composition wrapper of logger_context.go: WithFields, which
  flattens onto the original inner logger, and the ContextualLogger level methods
  with their own mergeFields.
 */
module ContextualLogger {
  import opened Wrappers
  import opened Levels
  import opened Fields
  import opened TestLogging

  /**
    A logger as seen by this file: a logger that is not a ContextualLogger (a
    Sink, which may implement LevelEnabler), or a ContextualLogger with its inner
    logger, its fields and the LevelEnabler it captured.
   */
  datatype Logger =
    | Sink(levelEnabler: Option<Enabler>)
    | ContextualLogger(logger: Logger, fields: Fields, levelEnabler: Option<Enabler>)

  /** The `logger.(LevelEnabler)` type assertion: a ContextualLogger has no LevelEnabled method. */
  function AsLevelEnabler(l: Logger): Option<Enabler> {
    match l
    case Sink(e) => e
    case ContextualLogger(_, _, _) => None
  }

  function Depth(l: Logger): nat {
    match l
    case Sink(_) => 0
    case ContextualLogger(inner, _, _) => Depth(inner) + 1
  }

  /**
    The logger WithFields returns: the input itself for an empty map; for a
    ContextualLogger with fields, one new wrapper directly over its inner logger
    holding old fields overridden by new ones; otherwise a wrapper over the input.
   */
  function Enriched(logger: Logger, fields: Fields): (r: Logger)
    ensures |fields| == 0 ==> r == logger
    ensures |fields| > 0 && logger.ContextualLogger? && |logger.fields| > 0
            ==> r.ContextualLogger? && r.logger == logger.logger && Depth(r) == Depth(logger)
    ensures |fields| > 0 ==> r.ContextualLogger? && r.levelEnabler == AsLevelEnabler(r.logger)
    ensures |fields| > 0 ==> r.fields == (if logger.ContextualLogger? && |logger.fields| > 0 then logger.fields + fields else fields)
  {
    if |fields| == 0 then logger
    else if logger.ContextualLogger? && |logger.fields| > 0 then
      ContextualLogger(logger.logger, logger.fields + fields, AsLevelEnabler(logger.logger))
    else
      ContextualLogger(logger, fields, AsLevelEnabler(logger))
  }

  /** WithFields (logger_context.go), with its two copy loops. */
  method WithFields(logger: Logger, fields: Fields) returns (r: Logger)
    ensures r == Enriched(logger, fields)
  {
    if |fields| == 0 {
      return logger;
    }
    var accumulated := fields;
    var inner := logger;
    if logger.ContextualLogger? && |logger.fields| > 0 {
      var merged := CopyFields(map[], logger.fields);
      merged := CopyFields(merged, fields);
      accumulated := merged;
      inner := logger.logger;
    }
    r := ContextualLogger(inner, accumulated, AsLevelEnabler(inner));
  }

  /**
    ContextualLogger.mergeFields, given the wrapper's fields `current`: it returns
    what the newer mergeFields of utils.go returns for the one per-call map.
   */
  method MergeFields(current: Fields, fields: Fields) returns (r: Fields)
    ensures r == Merged(current, [fields])
  {
    if |fields| == 0 {
      return current;
    }
    if |current| == 0 {
      return fields;
    }
    var copy := CopyFields(map[], current);
    CopyIsUnion(map[], current, copy);
    r := CopyFields(copy, fields);
    CopyIsUnion(copy, fields, r);
    assert map[] + current == current;
  }

  /**
    The call that reaches the sink when a level method is called: a disabled level
    returns at once; otherwise the wrapper's fields, merged with the first per-call
    map when there is one, go to the inner method of the same level.
   */
  function Log(l: Logger, level: Level, msg: string, fields: seq<Fields>): (r: Option<Call>)
    ensures r.Some? ==> r.value.level == level && r.value.msg == msg && r.value.ctx.None?
    ensures l.ContextualLogger? && r.Some? ==> |r.value.fields| == 1
    ensures l.ContextualLogger? && !LevelEnabled(l.levelEnabler, level) ==> r.None?
    ensures l.ContextualLogger? && l.logger.Sink? && LevelEnabled(l.levelEnabler, level)
            ==> r == Some(Call(level, msg, [Merged(l.fields, fields)], None))
    ensures l.Sink? ==> r == Some(Call(level, msg, fields, None))
    decreases l
  {
    match l
    case Sink(_) => Some(Call(level, msg, fields, None))
    case ContextualLogger(inner, current, enabler) =>
      if !LevelEnabled(enabler, level) then None
      else
        var f := if |fields| > 0 then Merged(current, [fields[0]]) else current;
        Log(inner, level, msg, [f])
  }

  /** Without per-call fields the wrapper's own map is forwarded unchanged. */
  lemma NoPerCallFieldsForwardsOwn(inner: Logger, current: Fields, enabler: Option<Enabler>, level: Level, msg: string)
    requires inner.Sink? && LevelEnabled(enabler, level)
    ensures Log(ContextualLogger(inner, current, enabler), level, msg, []) == Some(Call(level, msg, [current], None))
  {
  }

  /** A disabled level never reaches the inner logger, whatever the fields are. */
  lemma DisabledShortCircuits(inner: Logger, current: Fields, e: Enabler, level: Level, msg: string, fields: seq<Fields>)
    requires !e(level)
    ensures Log(ContextualLogger(inner, current, Some(e)), level, msg, fields) == None
  {
  }

  /** A sink, or one wrapper directly over a sink holding non-empty fields and the sink's LevelEnabler. */
  ghost predicate Flat(l: Logger, sink: Logger) {
    || l == sink
    || (l.ContextualLogger? && l.logger == sink && |l.fields| > 0 && l.levelEnabler == AsLevelEnabler(sink))
  }

  /** Enriching a flat logger keeps it flat: no wrapper chain ever forms. */
  lemma EnrichedStaysFlat(l: Logger, sink: Logger, n: Fields)
    requires sink.Sink? && Flat(l, sink)
    ensures Flat(Enriched(l, n), sink) && Depth(Enriched(l, n)) <= 1
  {
    if |n| > 0 && l.ContextualLogger? {
      assert n.Keys <= (l.fields + n).Keys;
      NonEmptyUnion(l.fields, n);
    }
  }

  lemma NonEmptyUnion(a: Fields, b: Fields)
    requires |a| > 0
    ensures |a + b| > 0
  {
    var k :| k in a.Keys;
    assert k in (a + b).Keys;
  }

  function EnrichAll(l: Logger, ns: seq<Fields>): Logger
    decreases |ns|
  {
    if ns == [] then l else Enriched(EnrichAll(l, ns[..|ns| - 1]), ns[|ns| - 1])
  }

  /**
    Flattening: enriching a sink with each map of `ns` in turn gives the sink
    itself while nothing has accumulated, and otherwise exactly one wrapper over
    the sink holding the accumulated fields (later maps winning) and the sink's
    LevelEnabler.
   */
  lemma {:induction false} EnrichAllIsOneLayer(sink: Logger, ns: seq<Fields>)
    requires sink.Sink?
    ensures EnrichAll(sink, ns)
            == if Accumulated(ns) == map[] then sink
               else ContextualLogger(sink, Accumulated(ns), sink.levelEnabler)
    decreases |ns|
  {
    if ns != [] {
      var prefix, n := ns[..|ns| - 1], ns[|ns| - 1];
      EnrichAllIsOneLayer(sink, prefix);
      assert Accumulated(ns) == Accumulated(prefix) + n;
      if |n| == 0 {
        assert Accumulated(prefix) + n == Accumulated(prefix);
      } else if Accumulated(prefix) == map[] {
        assert Accumulated(prefix) + n == n;
      } else {
        NonEmptyUnion(Accumulated(prefix), n);
      }
    }
  }

  /**
    Merge precedence through any number of enrichments: the sink receives the
    accumulated fields overridden by the first per-call map, gated by its
    LevelEnabler.
   */
  lemma EnrichAllDelivers(sink: Logger, ns: seq<Fields>, level: Level, msg: string, fields: seq<Fields>)
    requires sink.Sink? && Accumulated(ns) != map[]
    ensures Log(EnrichAll(sink, ns), level, msg, fields)
            == if LevelEnabled(sink.levelEnabler, level)
               then Some(Call(level, msg, [Merged(Accumulated(ns), fields)], None))
               else None
  {
    EnrichAllIsOneLayer(sink, ns);
    if |fields| > 0 {
      assert Merged(Accumulated(ns), [fields[0]]) == Merged(Accumulated(ns), fields);
    }
  }

  /** A wrapper over a recording sink: the sink receives whatever the wrapper forwards. */
  method LogTo(l: Logger, sink: TestLoggerFacade, level: Level, msg: string, fields: seq<Fields>)
    modifies sink
    ensures sink.events == old(sink.events) + EventsOf(Log(l, level, msg, fields))
  {
    var delivered := Log(l, level, msg, fields);
    if delivered.Some? {
      sink.Receive(delivered.value);
    }
  }

  /**
    Enrichment leaves the previous wrapper as it was: logging through W1 after
    building W2 = WithFields(W1, {"a": "2"}) still records {"a": "1"}.
   */
  method ImmutabilityScenario() returns (first: seq<LogEvent>, second: seq<LogEvent>)
    ensures first == [LogEvent("m", Info, map["a" := Str("1")])]
    ensures second == [LogEvent("m", Info, map["a" := Str("2")])]
  {
    var w1 := WithFields(Sink(None), map["a" := Str("1")]);
    var w2 := WithFields(w1, map["a" := Str("2")]);
    assert map["a" := Str("1")] + map["a" := Str("2")] == map["a" := Str("2")];
    var s1 := new TestLoggerFacade();
    var s2 := new TestLoggerFacade();
    LogTo(w1, s1, Info, "m", []);
    LogTo(w2, s2, Info, "m", []);
    first := s1.Events();
    second := s2.Events();
  }
}
