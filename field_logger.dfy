/**
  The field-composition wrapper of logger_fields.go: WithFields / WithField and
  the fieldLogger level methods, which gate on a captured LevelEnabler, merge the
  accumulated fields with the per-call ones and forward to the wrapped logger.

  Loggers are values: a wrapper is never changed after it is built, so no
  enrichment can alter an earlier wrapper's fields.
 */
module FieldLogger {
  import opened Wrappers
  import opened Levels
  import opened Fields
  import opened TestLogging

  /**
    A logger as seen by this file: either a logger that is not a fieldLogger
    (a Sink, which may implement LevelEnabler), or a fieldLogger over another
    logger with its accumulated fields and the LevelEnabler it captured.
   */
  datatype Logger =
    | Sink(levelEnabler: Option<Enabler>)
    | FieldLogger(logger: Logger, fields: Fields, levelEnabler: Option<Enabler>)

  /** The `logger.(LevelEnabler)` type assertion: a fieldLogger has no LevelEnabled method. */
  function AsLevelEnabler(l: Logger): Option<Enabler> {
    match l
    case Sink(e) => e
    case FieldLogger(_, _, _) => None
  }

  /** The number of fieldLogger layers above the sink. */
  function Depth(l: Logger): nat {
    match l
    case Sink(_) => 0
    case FieldLogger(inner, _, _) => Depth(inner) + 1
  }

  /**
    The logger WithFields returns, as written: an empty map returns the input;
    enriching a fieldLogger that has fields accumulates old and new fields in a
    fresh map and takes the LevelEnabler of the old wrapper's inner logger, but the
    new wrapper is still built over the old wrapper itself.
   */
  function Enriched(logger: Logger, fields: Fields): (r: Logger)
    ensures |fields| == 0 ==> r == logger
    ensures |fields| > 0 ==> r.FieldLogger? && r.logger == logger && Depth(r) == Depth(logger) + 1
    ensures |fields| > 0 ==> r.fields == (if logger.FieldLogger? && |logger.fields| > 0 then logger.fields + fields else fields)
  {
    if |fields| == 0 then logger
    else if logger.FieldLogger? && |logger.fields| > 0 then
      FieldLogger(logger, logger.fields + fields, AsLevelEnabler(logger.logger))
    else
      FieldLogger(logger, fields, AsLevelEnabler(logger))
  }

  /** WithFields (logger_fields.go), with its two copy loops. */
  method WithFields(logger: Logger, fields: Fields) returns (r: Logger)
    ensures r == Enriched(logger, fields)
  {
    var loggerFacade := logger;
    if |fields| == 0 {
      return loggerFacade;
    }
    var accumulated := fields;
    var inner := logger;
    if loggerFacade.FieldLogger? && |loggerFacade.fields| > 0 {
      var merged := CopyFields(map[], loggerFacade.fields);
      merged := CopyFields(merged, fields);
      accumulated := merged;
      inner := loggerFacade.logger;
    }
    r := FieldLogger(loggerFacade, accumulated, AsLevelEnabler(inner));
  }

  /** WithField: WithFields with the one-entry map {key: value}. */
  method WithField(logger: Logger, key: string, value: Value) returns (r: Logger)
    ensures r == Enriched(logger, map[key := value])
    ensures r.FieldLogger? && key in r.fields && r.fields[key] == value
  {
    r := WithFields(logger, map[key := value]);
  }

  /**
    log and logContext: the call that reaches the sink when the level method
    `level` is called with `msg`, the per-call maps `fields` and, for the Context
    variants, `ctx`; None when some layer's LevelEnabler reports the level disabled.
    Every layer forwards the same level, message and context.
   */
  function Log(l: Logger, level: Level, msg: string, fields: seq<Fields>, ctx: Option<Context>): (r: Option<Call>)
    ensures r.Some? ==> r.value.level == level && r.value.msg == msg && r.value.ctx == ctx
    ensures l.FieldLogger? && r.Some? ==> |r.value.fields| == 1
    ensures l.FieldLogger? && !LevelEnabled(l.levelEnabler, level) ==> r.None?
    ensures l.FieldLogger? && l.logger.Sink? && LevelEnabled(l.levelEnabler, level)
            ==> r == Some(Call(level, msg, [Merged(l.fields, fields)], ctx))
    ensures l.Sink? ==> r == Some(Call(level, msg, fields, ctx))
    decreases l
  {
    match l
    case Sink(_) => Some(Call(level, msg, fields, ctx))
    case FieldLogger(inner, accumulated, enabler) =>
      if !LevelEnabled(enabler, level) then None
      else Log(inner, level, msg, [Merged(accumulated, fields)], ctx)
  }

  /**
    A layer whose captured LevelEnabler reports the level disabled forwards
    nothing, whatever its fields and the per-call fields are.
   */
  lemma DisabledShortCircuits(inner: Logger, accumulated: Fields, e: Enabler, level: Level,
                              msg: string, fields: seq<Fields>, ctx: Option<Context>)
    requires !e(level)
    ensures Log(FieldLogger(inner, accumulated, Some(e)), level, msg, fields, ctx) == None
  {
  }

  /** Without a captured LevelEnabler a single layer forwards every level, merged. */
  lemma NoEnablerForwardsAll(sink: Logger, accumulated: Fields, level: Level, msg: string,
                             fields: seq<Fields>, ctx: Option<Context>)
    requires sink.Sink?
    ensures Log(FieldLogger(sink, accumulated, None), level, msg, fields, ctx)
            == Some(Call(level, msg, [Merged(accumulated, fields)], ctx))
  {
  }

  /**
    The shape WithFields builds over `sink` once the accumulated fields are `acc`:
    a chain of fieldLoggers whose outer layer holds `acc`, each inner layer holding
    a subset of the keys, and each layer's LevelEnabler either the sink's or none.
   */
  ghost predicate Chain(l: Logger, sink: Logger, acc: Fields)
    decreases l
  {
    && l.FieldLogger?
    && l.fields == acc
    && |acc| > 0
    && (|| (l.logger == sink && l.levelEnabler == AsLevelEnabler(sink))
        || (&& l.logger.FieldLogger?
            && l.logger.fields.Keys <= acc.Keys
            && (l.levelEnabler.None? || l.levelEnabler == AsLevelEnabler(sink))
            && Chain(l.logger, sink, l.logger.fields)))
  }

  /**
    Whatever its depth, a chain delivers what one flat layer over the sink with the
    accumulated fields delivers: gate on the sink's LevelEnabler, then forward
    the accumulated fields overridden by the per-call ones.
   */
  lemma {:induction false} ChainDelivers(l: Logger, sink: Logger, acc: Fields, level: Level,
                                         msg: string, fields: seq<Fields>, ctx: Option<Context>)
    requires sink.Sink? && Chain(l, sink, acc)
    ensures Log(l, level, msg, fields, ctx)
            == Log(FieldLogger(sink, acc, AsLevelEnabler(sink)), level, msg, fields, ctx)
    decreases l
  {
    var m := Merged(acc, fields);
    if l.logger != sink || l.levelEnabler != AsLevelEnabler(sink) {
      var inner := l.logger;
      ChainDelivers(inner, sink, inner.fields, level, msg, [m], ctx);
      MergedAbsorbed(inner.fields, m);
    }
  }

  /** Enriching a chain with a non-empty map gives a chain with the fields accumulated. */
  lemma EnrichedKeepsChain(l: Logger, sink: Logger, acc: Fields, n: Fields)
    requires sink.Sink? && Chain(l, sink, acc) && |n| > 0
    ensures Chain(Enriched(l, n), sink, acc + n)
  {
  }

  /** WithFields applied with each map of `ns` in turn. */
  function EnrichAll(l: Logger, ns: seq<Fields>): Logger
    decreases |ns|
  {
    if ns == [] then l else Enriched(EnrichAll(l, ns[..|ns| - 1]), ns[|ns| - 1])
  }

  /** Enriching a sink step by step builds a chain, or nothing while every map is empty. */
  lemma {:induction false} EnrichAllChain(sink: Logger, ns: seq<Fields>)
    requires sink.Sink?
    ensures Accumulated(ns) == map[] ==> EnrichAll(sink, ns) == sink
    ensures Accumulated(ns) != map[] ==> Chain(EnrichAll(sink, ns), sink, Accumulated(ns))
    decreases |ns|
  {
    if ns != [] {
      var prefix, n := ns[..|ns| - 1], ns[|ns| - 1];
      EnrichAllChain(sink, prefix);
      if Accumulated(prefix) != map[] && |n| > 0 {
        EnrichedKeepsChain(EnrichAll(sink, prefix), sink, Accumulated(prefix), n);
      } else if |n| == 0 {
        assert Accumulated(ns) == Accumulated(prefix) + n;
        assert Accumulated(prefix) + n == Accumulated(prefix);
      } else {
        assert Accumulated(prefix) == map[];
        assert Accumulated(ns) == n;
      }
    }
  }

  /**
    Merge precedence through any number of enrichments: a call on the enriched
    sink delivers the fields accumulated from all maps (later maps winning),
    overridden by the per-call fields, gated by the sink's LevelEnabler; with
    nothing accumulated the call reaches the sink unchanged.
   */
  lemma EnrichAllDelivers(sink: Logger, ns: seq<Fields>, level: Level, msg: string,
                          fields: seq<Fields>, ctx: Option<Context>)
    requires sink.Sink?
    ensures Log(EnrichAll(sink, ns), level, msg, fields, ctx)
            == if Accumulated(ns) == map[] then Some(Call(level, msg, fields, ctx))
               else if LevelEnabled(sink.levelEnabler, level)
               then Some(Call(level, msg, [Merged(Accumulated(ns), fields)], ctx))
               else None
  {
    EnrichAllChain(sink, ns);
    if Accumulated(ns) != map[] {
      ChainDelivers(EnrichAll(sink, ns), sink, Accumulated(ns), level, msg, fields, ctx);
    }
  }

  /** The number of non-empty maps in `ns`. */
  function NonEmptyCount(ns: seq<Fields>): nat
    decreases |ns|
  {
    if ns == [] then 0 else NonEmptyCount(ns[..|ns| - 1]) + (if |ns[|ns| - 1]| > 0 then 1 else 0)
  }

  /** As written, every non-empty enrichment adds a layer. */
  lemma {:induction false} EnrichAllDepth(sink: Logger, ns: seq<Fields>)
    requires sink.Sink?
    ensures Depth(EnrichAll(sink, ns)) == NonEmptyCount(ns)
    decreases |ns|
  {
    if ns != [] {
      EnrichAllDepth(sink, ns[..|ns| - 1]);
    }
  }

  /**
    The input that shows the extra layer: three non-empty enrichments of a sink
    that implements LevelEnabler give three layers, and the outermost captured
    no LevelEnabler, so it merges before any layer gates.
   */
  lemma ThirdEnrichmentCapturesNoEnabler(e: Enabler)
    ensures var l := EnrichAll(Sink(Some(e)), [map["a" := Int(1)], map["b" := Int(2)], map["c" := Int(3)]]);
            Depth(l) == 3 && l.levelEnabler.None?
  {
    var a, b, c := map["a" := Int(1)], map["b" := Int(2)], map["c" := Int(3)];
    var ns := [a, b, c];
    var s := Sink(Some(e));
    var l1 := FieldLogger(s, a, Some(e));
    var l2 := FieldLogger(l1, a + b, Some(e));
    var l3 := FieldLogger(l2, a + b + c, None);
    assert ns[..2][..1] == ns[..1] == [a] && ns[..1][..0] == [] && ns[..2] == [a, b];
    assert EnrichAll(s, [a]) == l1 by {
      assert |a| == 1;
    }
    assert EnrichAll(s, [a, b]) == l2 by {
      assert "a" in a + b;
      NonEmptyHasSize(a + b, "a");
    }
    NonEmptyHasSize(c, "c");
    assert Enriched(l2, c) == l3;
  }

  lemma NonEmptyHasSize(m: Fields, k: string)
    requires k in m
    ensures |m| > 0
  {
    assert k in m.Keys;
  }

  /**
    WithFields as its comment intends ("do not add a new layer"): the enriched
    wrapper is built over the old wrapper's inner logger.
   */
  function EnrichedFlat(logger: Logger, fields: Fields): (r: Logger)
    ensures |fields| == 0 ==> r == logger
    ensures |fields| > 0 && logger.FieldLogger? && |logger.fields| > 0
            ==> r == FieldLogger(logger.logger, logger.fields + fields, AsLevelEnabler(logger.logger))
    ensures |fields| > 0 && !(logger.FieldLogger? && |logger.fields| > 0) ==> Depth(r) == Depth(logger) + 1
  {
    if |fields| == 0 then logger
    else if logger.FieldLogger? && |logger.fields| > 0 then
      FieldLogger(logger.logger, logger.fields + fields, AsLevelEnabler(logger.logger))
    else
      FieldLogger(logger, fields, AsLevelEnabler(logger))
  }

  function EnrichAllFlat(l: Logger, ns: seq<Fields>): Logger
    decreases |ns|
  {
    if ns == [] then l else EnrichedFlat(EnrichAllFlat(l, ns[..|ns| - 1]), ns[|ns| - 1])
  }

  /**
    The intended WithFields keeps one layer directly over the sink, holding the
    accumulated fields and the sink's LevelEnabler.
   */
  lemma {:induction false} EnrichAllFlatIsOneLayer(sink: Logger, ns: seq<Fields>)
    requires sink.Sink?
    ensures EnrichAllFlat(sink, ns)
            == if Accumulated(ns) == map[] then sink
               else FieldLogger(sink, Accumulated(ns), sink.levelEnabler)
    decreases |ns|
  {
    if ns != [] {
      var prefix, n := ns[..|ns| - 1], ns[|ns| - 1];
      EnrichAllFlatIsOneLayer(sink, prefix);
      assert Accumulated(ns) == Accumulated(prefix) + n;
      if |n| == 0 {
        assert Accumulated(prefix) + n == Accumulated(prefix);
      } else if Accumulated(prefix) == map[] {
        assert Accumulated(prefix) + n == n;
      }
    }
  }

  /**
    The extra layers change nothing a sink can observe: as written and as
    intended, every call delivers the same thing.
   */
  lemma FlatDeliversAsWritten(sink: Logger, ns: seq<Fields>, level: Level, msg: string,
                              fields: seq<Fields>, ctx: Option<Context>)
    requires sink.Sink?
    ensures Log(EnrichAllFlat(sink, ns), level, msg, fields, ctx)
            == Log(EnrichAll(sink, ns), level, msg, fields, ctx)
  {
    EnrichAllFlatIsOneLayer(sink, ns);
    EnrichAllDelivers(sink, ns, level, msg, fields, ctx);
  }

  /** A logger over a recording sink: the sink receives whatever the chain delivers. */
  method LogTo(l: Logger, sink: TestLoggerFacade, level: Level, msg: string, fields: seq<Fields>, ctx: Option<Context>)
    modifies sink
    ensures sink.events == old(sink.events) + EventsOf(Log(l, level, msg, fields, ctx))
  {
    var delivered := Log(l, level, msg, fields, ctx);
    if delivered.Some? {
      sink.Receive(delivered.value);
    }
  }

  /**
    The WithField test: three enrichments of "key" and a call with {"key2": "value"}
    record one Info event with {"key": "value3", "key2": "value"}.
   */
  method WithFieldScenario() returns (events: seq<LogEvent>)
    ensures events == [LogEvent("message", Info, map["key" := Str("value3"), "key2" := Str("value")])]
  {
    var n1, n2, n3 := map["key" := Str("value")], map["key" := Str("value2")], map["key" := Str("value3")];
    var p := map["key2" := Str("value")];
    var sink := new TestLoggerFacade();
    var l := WithField(Sink(None), "key", Str("value"));
    l := WithField(l, "key", Str("value2"));
    l := WithField(l, "key", Str("value3"));
    ScenarioDelivers(n1, n2, n3, p);
    LogTo(l, sink, Info, "message", [p], None);
    events := sink.Events();
  }

  /** What the scenario's logger delivers for `Info("message", {"key2": "value"})`. */
  lemma ScenarioDelivers(n1: Fields, n2: Fields, n3: Fields, p: Fields)
    requires n1 == map["key" := Str("value")] && n2 == map["key" := Str("value2")] && n3 == map["key" := Str("value3")]
    requires p == map["key2" := Str("value")]
    ensures Log(Enriched(Enriched(Enriched(Sink(None), n1), n2), n3), Info, "message", [p], None)
            == Some(Call(Info, "message", [map["key" := Str("value3"), "key2" := Str("value")]], None))
  {
    ScenarioEnrichment(n1, n2, n3);
    ScenarioAccumulated(n1, n2, n3);
    EnrichAllDelivers(Sink(None), [n1, n2, n3], Info, "message", [p], None);
    MergedOne(n3, p);
    UnionSingleton(n3, "key2", Str("value"));
  }

  lemma UnionSingleton(m: Fields, k: string, v: Value)
    ensures m + map[k := v] == m[k := v]
  {
  }

  lemma ScenarioEnrichment(n1: Fields, n2: Fields, n3: Fields)
    ensures EnrichAll(Sink(None), [n1, n2, n3]) == Enriched(Enriched(Enriched(Sink(None), n1), n2), n3)
  {
    var ns := [n1, n2, n3];
    assert ns[..2] == [n1, n2] && [n1, n2][..1] == [n1] && [n1][..0] == [];
    assert EnrichAll(Sink(None), [n1]) == Enriched(Sink(None), n1);
    assert EnrichAll(Sink(None), [n1, n2]) == Enriched(EnrichAll(Sink(None), [n1]), n2);
    assert EnrichAll(Sink(None), ns) == Enriched(EnrichAll(Sink(None), [n1, n2]), n3);
  }

  lemma ScenarioAccumulated(n1: Fields, n2: Fields, n3: Fields)
    requires n1 == map["key" := Str("value")] && n2 == map["key" := Str("value2")] && n3 == map["key" := Str("value3")]
    ensures Accumulated([n1, n2, n3]) == n3
  {
    var ns := [n1, n2, n3];
    assert ns[..2] == [n1, n2] && [n1, n2][..1] == [n1] && [n1][..0] == [];
    assert Accumulated([n1]) == n1 by {
      assert map[] + n1 == n1;
    }
    assert n1 + n2 == n2;
    assert n2 + n3 == n3;
  }

  /**
    The conformance suite on WithFields(recorder, {"key": "value"}): a call at any
    level with {"key": "value"} records exactly one event equal to the expected one.
   */
  lemma ConformanceLevel(level: Level, ctx: Option<Context>)
    ensures var l := Enriched(Sink(None), map["key" := Str("value")]);
            var expected := LogEvent("message", level, map["key" := Str("value")]);
            var recorded := EventsOf(Log(l, level, "message", [map["key" := Str("value")]], ctx));
            |recorded| == 1 && EventEquals(recorded[0], expected)
  {
    var m := map["key" := Str("value")];
    assert Merged(m, [m]) == m + m == m;
  }

  /**
    Level gating end to end: over a sink whose minimum level is Warn, an Info call
    records nothing and an Error call records one event.
   */
  method GatingScenario() returns (afterInfo: int, afterError: int)
    ensures afterInfo == 0 && afterError == 1
  {
    var sink := new TestLoggerFacade();
    var l := WithFields(Sink(Some(MinimumEnabler(Warn))), map["key" := Str("value")]);
    LogTo(l, sink, Info, "suppressed", [], None);
    afterInfo := sink.Count();
    LogTo(l, sink, Error, "kept", [], None);
    afterError := sink.Count();
  }
}
