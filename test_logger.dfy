/**
  The recording test logger and log-event equality (logger_testing.go).
 */
module TestLogging {
  import opened Wrappers
  import opened Levels
  import opened Fields

  /** A recorded log event; a nil field map is the empty map. */
  datatype LogEvent = LogEvent(line: string, level: Level, fields: Fields)

  /**
    What LogEvent.Equals decides: same level, same line, same number of fields,
    and every field of the receiver equal to the other's value for that key,
    an absent key reading as nil.
   */
  predicate EventEquals(e: LogEvent, other: LogEvent) {
    && e.level == other.level
    && e.line == other.line
    && |e.fields| == |other.fields|
    && forall k :: k in e.fields ==> Lookup(other.fields, k) == e.fields[k]
  }

  /** LogEvent.Equals: the field comparison is a loop over the receiver's keys. */
  method Equals(e: LogEvent, other: LogEvent) returns (eq: bool)
    ensures eq == EventEquals(e, other)
  {
    if e.level != other.level {
      return false;
    }
    if e.line != other.line {
      return false;
    }
    if |e.fields| != |other.fields| {
      return false;
    }
    var rest := e.fields.Keys;
    while rest != {}
      invariant rest <= e.fields.Keys
      invariant forall k :: k in e.fields && k !in rest ==> Lookup(other.fields, k) == e.fields[k]
      decreases rest
    {
      var k :| k in rest;
      if Lookup(other.fields, k) != e.fields[k] {
        return false;
      }
      rest := rest - {k};
    }
    return true;
  }

  /** The error AssertEquals returns, carrying both events. */
  datatype AssertionError = AssertionError(actual: LogEvent, expected: LogEvent)

  /** LogEvent.AssertEquals: nil exactly when Equals holds. */
  method AssertEquals(e: LogEvent, other: LogEvent) returns (err: Option<AssertionError>)
    ensures err.None? <==> EventEquals(e, other)
    ensures err.Some? ==> err.value == AssertionError(e, other)
  {
    var eq := Equals(e, other);
    if !eq {
      return Some(AssertionError(e, other));
    }
    return None;
  }

  /** The check of LogEventsEqual that failed first. */
  datatype Mismatch = LevelsDiffer | LinesDiffer | FieldsDiffer

  /**
    LogEventsEqual: the same checks as Equals with `expected` as the receiver,
    reporting the first that fails.
   */
  method LogEventsEqual(expected: LogEvent, actual: LogEvent) returns (err: Option<Mismatch>)
    ensures err.None? <==> EventEquals(expected, actual)
    ensures expected.level != actual.level ==> err == Some(LevelsDiffer)
    ensures expected.level == actual.level && expected.line != actual.line ==> err == Some(LinesDiffer)
    ensures expected.level == actual.level && expected.line == actual.line && !EventEquals(expected, actual)
            ==> err == Some(FieldsDiffer)
  {
    if expected.level != actual.level {
      return Some(LevelsDiffer);
    }
    if expected.line != actual.line {
      return Some(LinesDiffer);
    }
    var eq := Equals(expected, actual);
    if !eq {
      return Some(FieldsDiffer);
    }
    return None;
  }

  /** Equals is not symmetric: a nil field on the receiver matches an absent key on the other side. */
  lemma EqualsNotSymmetric()
    ensures var a := LogEvent("message", Info, map["a" := Nil]);
            var b := LogEvent("message", Info, map["b" := Str("x")]);
            EventEquals(a, b) && !EventEquals(b, a)
  {
    var a := LogEvent("message", Info, map["a" := Nil]);
    var b := LogEvent("message", Info, map["b" := Str("x")]);
    assert a.fields.Keys == {"a"} && b.fields.Keys == {"b"};
    assert |a.fields| == 1 && |b.fields| == 1;
    assert Lookup(a.fields, "b") == Nil;
  }

  lemma SubsetOfSameSize(a: set<string>, b: set<string>)
    requires a <= b && |a| == |b|
    ensures a == b
  {
    assert b == a + (b - a);
    assert a !! (b - a);
    assert |b - a| == 0;
    forall y | y in b
      ensures y in a
    {
      assert y !in b - a;
    }
  }

  /**
    When the receiver holds no nil value, Equals is structural equality, so it is
    symmetric there.
   */
  lemma EqualsWithoutNil(e: LogEvent, other: LogEvent)
    requires Nil !in e.fields.Values
    ensures EventEquals(e, other) <==> e == other
  {
    if EventEquals(e, other) {
      forall k | k in e.fields
        ensures k in other.fields && other.fields[k] == e.fields[k]
      {
        assert e.fields[k] in e.fields.Values;
      }
      assert |e.fields.Keys| == |e.fields| && |other.fields.Keys| == |other.fields|;
      SubsetOfSameSize(e.fields.Keys, other.fields.Keys);
      assert e.fields == other.fields;
    }
  }

  /** The event a recorder stores for a call: the first per-call map, or nil. */
  function EventOf(c: Call): LogEvent {
    LogEvent(c.msg, c.level, if |c.fields| > 0 then c.fields[0] else map[])
  }

  /** The events a recorder stores for an optional call: none for a call that never arrived. */
  function EventsOf(c: Option<Call>): seq<LogEvent> {
    match c
    case None => []
    case Some(call) => [EventOf(call)]
  }

  /**
    TestLoggerFacade: records every call, context or not, in call order.
    TestLogger and TestLoggerContext are the same recorder with only the plain or
    only the context methods.
   */
  class TestLoggerFacade {
    var events: seq<LogEvent>

    constructor ()
      ensures events == []
    {
      events := [];
    }

    /** Count: the number of recorded events. */
    method Count() returns (n: int)
      ensures n == |events|
    {
      n := |events|;
    }

    /** LastEvent: nil when nothing was recorded, otherwise the latest event. */
    method LastEvent() returns (e: Option<LogEvent>)
      ensures e.None? <==> events == []
      ensures e.Some? ==> e.value == events[|events| - 1]
    {
      if |events| < 1 {
        return None;
      }
      e := Some(events[|events| - 1]);
    }

    /** Events: every recorded event in call order (an empty, non-nil slice at first). */
    method Events() returns (es: seq<LogEvent>)
      ensures |es| == |events|
      ensures forall i :: 0 <= i < |es| ==> es[i] == events[i]
    {
      es := events[..|events|];
    }

    method RecordEvent(event: LogEvent)
      modifies this
      ensures events == old(events) + [event]
    {
      events := events + [event];
    }

    /** record: appends one event holding the level, the message and the first per-call map. */
    method Record(level: Level, msg: string, varfields: seq<Fields>)
      modifies this
      ensures events == old(events) + [LogEvent(msg, level, if |varfields| > 0 then varfields[0] else map[])]
    {
      var fields: Fields := map[];
      if |varfields| > 0 {
        fields := varfields[0];
      }
      RecordEvent(LogEvent(msg, level, fields));
    }

    /** recordCtx: records exactly as record does; the context is ignored. */
    method RecordCtx(ctx: Context, level: Level, msg: string, varfields: seq<Fields>)
      modifies this
      ensures events == old(events) + [LogEvent(msg, level, if |varfields| > 0 then varfields[0] else map[])]
    {
      var fields: Fields := map[];
      if |varfields| > 0 {
        fields := varfields[0];
      }
      RecordEvent(LogEvent(msg, level, fields));
    }

    /** One call of any of the ten leveled methods (Trace .. Error, TraceContext .. ErrorContext). */
    method Receive(c: Call)
      modifies this
      ensures events == old(events) + [EventOf(c)]
    {
      if c.ctx.Some? {
        RecordCtx(c.ctx.value, c.level, c.msg, c.fields);
      } else {
        Record(c.level, c.msg, c.fields);
      }
    }
  }

  /** A client of the recorder: each call adds one event, and the earlier ones stay as they were. */
  method RecorderScenario(msg: string) returns (count: int, last: Option<LogEvent>)
    ensures count == 2
    ensures last == Some(LogEvent(msg, Error, map["key" := Str("value")]))
  {
    var sink := new TestLoggerFacade();
    sink.Record(Info, "first", []);
    sink.RecordCtx(Context(7), Error, msg, [map["key" := Str("value")], map["ignored" := Nil]]);
    count := sink.Count();
    last := sink.LastEvent();
    var all := sink.Events();
    assert all[0] == LogEvent("first", Info, map[]);
  }
}
