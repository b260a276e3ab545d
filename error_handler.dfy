/**
  The error handler of error_handler.go: it walks an error's cause chain,
  collects the key/value context of every error in it, turns that context into
  fields and logs one Error-level event per error (one per child for an error
  collection).
 */
module ErrorHandling {
  import opened Wrappers
  import Levels
  import opened Fields
  import opened KeyVals
  import opened TestLogging

  /**
    An error as the handler sees it through its optional interfaces: `msg` is
    Error(); `context` is Some for an error with a Context() method; `cause` is
    the non-nil result of Cause() (None also for an error without Cause, since
    both end the walk); `errors` is Some for an error collection (Errors()).
   */
  datatype Error = Error(msg: string, context: Option<seq<Value>>, cause: Option<Error>, errors: Option<seq<Error>>)

  /** The cause chain: the error, its cause, the cause's cause, and so on. */
  function CauseChain(err: Option<Error>): (r: seq<Error>)
    ensures |r| == 0 <==> err.None?
    ensures err.Some? ==> r[0] == err.value
    decreases err
  {
    match err
    case None => []
    case Some(e) => [e] + CauseChain(e.cause)
  }

  /** Each error in the chain is followed by its cause, and the last one has none. */
  lemma {:induction false} CauseChainLinks(err: Option<Error>)
    ensures var r := CauseChain(err);
      && (forall i :: 0 < i < |r| ==> r[i - 1].cause == Some(r[i]))
      && (|r| > 0 ==> r[|r| - 1].cause.None?)
    decreases err
  {
    if err.Some? {
      var e := err.value;
      var r, tail := CauseChain(err), CauseChain(e.cause);
      CauseChainLinks(e.cause);
      assert r == [e] + tail;
      forall i | 0 < i < |r|
        ensures r[i - 1].cause == Some(r[i])
      {
        if i > 1 {
          assert r[i - 1] == tail[i - 2] && r[i] == tail[i - 1];
        }
      }
    }
  }

  /** The errors errorForEachCause calls `fn` on, in order. */
  function Visited(err: Option<Error>, fn: Error -> bool): (r: seq<Error>)
    ensures err.Some? ==> |r| > 0 && r[0] == err.value
    ensures err.None? ==> r == []
    decreases err
  {
    match err
    case None => []
    case Some(e) => if !fn(e) then [e] else [e] + Visited(e.cause, fn)
  }

  /**
    The visit is a prefix of the cause chain on all but whose last error `fn`
    returned true, and it stops early only after an error for which `fn`
    returned false.
   */
  lemma {:induction false} VisitedIsPrefix(err: Option<Error>, fn: Error -> bool)
    ensures var r, chain := Visited(err, fn), CauseChain(err);
      && |r| <= |chain| && r == chain[..|r|]
      && (forall i :: 0 <= i < |r| - 1 ==> fn(r[i]))
      && (|r| < |chain| ==> !fn(r[|r| - 1]))
    decreases err
  {
    if err.Some? {
      var e := err.value;
      if fn(e) {
        VisitedIsPrefix(e.cause, fn);
        var r, tail := Visited(err, fn), Visited(e.cause, fn);
        assert r == [e] + tail;
        forall i | 0 <= i < |r| - 1
          ensures fn(r[i])
        {
          if i > 0 {
            assert r[i] == tail[i - 1];
          }
        }
      }
    }
  }

  /** When `fn` never asks to stop, the whole chain is visited. */
  lemma {:induction false} VisitedAll(err: Option<Error>, fn: Error -> bool)
    requires forall e :: fn(e)
    ensures Visited(err, fn) == CauseChain(err)
    decreases err
  {
    if err.Some? {
      VisitedAll(err.value.cause, fn);
    }
  }

  /**
    errorForEachCause: calls `fn` on the error and then on successive causes,
    stopping at the end of the chain or when `fn` returns false. The calls made,
    in order, are returned.
   */
  method ErrorForEachCause(err: Option<Error>, fn: Error -> bool) returns (visited: seq<Error>)
    ensures visited == Visited(err, fn)
  {
    visited := [];
    var current := err;
    while current.Some?
      invariant visited + Visited(current, fn) == Visited(err, fn)
      decreases current
    {
      var e := current.value;
      assert Visited(current, fn) == if !fn(e) then [e] else [e] + Visited(e.cause, fn);
      visited := visited + [e];
      if !fn(e) {
        break;
      }
      current := e.cause;
    }
  }

  /** The pairs one error contributes: its context, padded with nil to even length. */
  function Own(e: Error): (r: seq<Value>)
    ensures |r| % 2 == 0
  {
    if e.context.Some? then Padded(e.context.value, Nil) else []
  }

  /**
    The pairs collected after visiting `visited` in order: each error's pairs are
    put in front of those collected so far.
   */
  function Collected(visited: seq<Error>): (r: seq<Value>)
    ensures |r| % 2 == 0
    decreases |visited|
  {
    if visited == [] then []
    else Own(visited[|visited| - 1]) + Collected(visited[..|visited| - 1])
  }

  /** The context errorContext returns for an error: its chain's pairs, deepest first. */
  function ContextPairs(e: Error): seq<Value> {
    Collected(CauseChain(Some(e)))
  }

  lemma {:induction false} CollectedCons(e: Error, rest: seq<Error>)
    ensures Collected([e] + rest) == Collected(rest) + Own(e)
    decreases |rest|
  {
    if rest == [] {
      assert [e] + rest == [e];
      assert [e][..0] == [];
    } else {
      var front, last := rest[..|rest| - 1], rest[|rest| - 1];
      var all := [e] + rest;
      CollectedCons(e, front);
      assert all[..|all| - 1] == [e] + front && all[|all| - 1] == last;
      assert Collected(all) == Own(last) + Collected([e] + front);
      assert Collected(rest) == Own(last) + Collected(front);
    }
  }

  /** An error's own pairs come after (so override) the pairs of its causes. */
  lemma ContextPairsOfChain(e: Error)
    ensures ContextPairs(e) == (if e.cause.Some? then ContextPairs(e.cause.value) else []) + Own(e)
  {
    CollectedCons(e, CauseChain(e.cause));
  }

  /** errorContext (error_handler.go), over the calls its closure receives. */
  method ErrorContext(err: Error) returns (kvs: seq<Value>)
    ensures kvs == ContextPairs(err)
  {
    var visited := ErrorForEachCause(Some(err), _ => true);
    VisitedAll(Some(err), _ => true);
    kvs := [];
    for j := 0 to |visited|
      invariant kvs == Collected(visited[..j])
    {
      var e := visited[j];
      if e.context.Some? {
        var kv := e.context.value;
        if |kv| % 2 == 1 {
          kv := kv + [Nil];
        }
        kvs := kv + kvs;
      }
      assert visited[..j + 1][..j] == visited[..j];
    }
    assert visited[..|visited|] == visited;
  }

  /** mergeErrorContext: writes one pair into the map, the key turned into a string. */
  function MergeErrorContext(dst: Fields, k: Value, v: Value): (r: Fields)
    ensures r.Keys == dst.Keys + {KeyString(k)}
    ensures r[KeyString(k)] == v
    ensures forall key :: key in dst && key != KeyString(k) ==> r[key] == dst[key]
  {
    dst[KeyString(k) := v]
  }

  /** errorContextToMap: pads an odd list with nil and writes its pairs in order. */
  method ErrorContextToMap(keyvals: seq<Value>) returns (m: Fields)
    ensures m == PairsMap(Padded(keyvals, Nil))
  {
    m := map[];
    if |keyvals| == 0 {
      return;
    }
    var kvs := keyvals;
    if |kvs| % 2 == 1 {
      kvs := kvs + [Nil];
    }
    var i := 0;
    while i < |kvs|
      invariant 0 <= i <= |kvs| && i % 2 == 0
      invariant m == PairsMap(kvs[..i])
    {
      ghost var prev := kvs[..i];
      m := MergeErrorContext(m, kvs[i], kvs[i + 1]);
      assert kvs[..i + 2] == prev + [kvs[i], kvs[i + 1]];
      PairsMapSnoc(prev, kvs[i], kvs[i + 1]);
      i := i + 2;
    }
    assert kvs[..i] == kvs;
  }

  /** The fields Handle attaches: the map of the error's context, empty when it has none. */
  function ContextFields(e: Error): Fields {
    var kvs := ContextPairs(e);
    if |kvs| > 0 then PairsMap(Padded(kvs, Nil)) else map[]
  }

  /**
    Outermost wins: the fields of an error are those of its cause overridden by
    its own context pairs.
   */
  lemma OuterContextWins(e: Error)
    requires e.cause.Some?
    ensures ContextFields(e) == ContextFields(e.cause.value) + PairsMap(Own(e))
  {
    ContextPairsOfChain(e);
    PairsMapAppend(ContextPairs(e.cause.value), Own(e));
  }

  /** The event a child of a collection is logged as. */
  function ChildEvent(child: Error, fields: Fields): LogEvent {
    LogEvent(child.msg, Levels.Error, fields)
  }

  /**
    The events Handle logs: none for nil; one per child of an error collection,
    in order, each with the outer message as "parent"; otherwise one event with
    the error's message. All are at Error level and carry the context fields.
   */
  function HandledEvents(err: Option<Error>): (r: seq<LogEvent>)
    ensures err.None? ==> r == []
    ensures err.Some? && err.value.errors.None? ==> r == [LogEvent(err.value.msg, Levels.Error, ContextFields(err.value))]
    ensures err.Some? && err.value.errors.Some? ==> |r| == |err.value.errors.value|
    ensures err.Some? && err.value.errors.Some? ==>
      forall i :: 0 <= i < |r| ==>
        && r[i].line == err.value.errors.value[i].msg
        && r[i].level == Levels.Error
        && r[i].fields == ContextFields(err.value)["parent" := Str(err.value.msg)]
  {
    match err
    case None => []
    case Some(e) =>
      if e.errors.Some? then
        var fields := ContextFields(e)["parent" := Str(e.msg)];
        seq(|e.errors.value|, i requires 0 <= i < |e.errors.value| => ChildEvent(e.errors.value[i], fields))
      else
        [LogEvent(e.msg, Levels.Error, ContextFields(e))]
  }

  /** Where the handler's events go: a no-op logger or a recording one. */
  datatype Target = Noop | Recording(sink: TestLoggerFacade)

  class ErrorHandler {
    const logger: Target

    /** NewErrorHandler: a nil logger is replaced by a no-op logger. */
    constructor(logger: Option<TestLoggerFacade>)
      ensures this.logger == if logger.None? then Noop else Recording(logger.value)
    {
      this.logger := if logger.None? then Noop else Recording(logger.value);
    }

    /** The set of objects logging may change. */
    function Footprint(): set<object>
      reads this
    {
      if logger.Recording? then {logger.sink} else {}
    }

    /** `h.logger.Error(line, fields)`. */
    method LogError(line: string, fields: Fields)
      modifies Footprint()
      ensures logger.Recording? ==> logger.sink.events == old(logger.sink.events) + [LogEvent(line, Levels.Error, fields)]
    {
      if logger.Recording? {
        logger.sink.Receive(Call(Levels.Error, line, [fields], None));
      }
    }

    /** Handle: records the events HandledEvents describes. */
    method Handle(err: Option<Error>)
      modifies Footprint()
      ensures logger.Recording? ==> logger.sink.events == old(logger.sink.events) + HandledEvents(err)
    {
      if err.None? {
        return;
      }
      var e := err.value;
      var fields: Fields := map[];
      var keyvals := ErrorContext(e);
      if |keyvals| > 0 {
        fields := ErrorContextToMap(keyvals);
      }
      if e.errors.Some? {
        var errs := e.errors.value;
        fields := fields["parent" := Str(e.msg)];
        ghost var expected := HandledEvents(err);
        for j := 0 to |errs|
          invariant logger.Recording? ==> logger.sink.events == old(logger.sink.events) + expected[..j]
        {
          LogError(errs[j].msg, fields);
          assert expected[..j + 1] == expected[..j] + [expected[j]];
        }
        assert expected[..|errs|] == expected;
      } else {
        LogError(e.msg, fields);
      }
    }
  }

  /** The error of a test case: a message, a context list and an optional cause. */
  function Stub(msg: string, context: seq<Value>, cause: Option<Error>): Error {
    Error(msg, Some(context), cause, None)
  }

  /** The same key in an error and its cause: the outer value is logged. */
  lemma OuterValueLogged()
    ensures HandledEvents(Some(Stub("error 1", [Str("key"), Str("value 1")], Some(Stub("error 1", [Str("key"), Str("value 2")], None)))))
            == [LogEvent("error 1", Levels.Error, map["key" := Str("value 1")])]
  {
    var inner := Stub("error 1", [Str("key"), Str("value 2")], None);
    var outer := Stub("error 1", [Str("key"), Str("value 1")], Some(inner));
    OuterContextWins(outer);
    assert CauseChain(Some(inner)) == [inner];
    assert Collected([inner]) == Own(inner) == [Str("key"), Str("value 2")];
    assert [Str("key"), Str("value 2")][..0] == [];
    assert ContextFields(inner) == map["key" := Str("value 2")];
    assert Own(outer) == [Str("key"), Str("value 1")];
    assert [Str("key"), Str("value 1")][..0] == [];
    assert PairsMap(Own(outer)) == map["key" := Str("value 1")];
    assert ContextFields(outer) == map["key" := Str("value 1")];
  }

  /** A context list with a dangling key: the key is logged with a nil value. */
  lemma DanglingKeyLoggedAsNil()
    ensures HandledEvents(Some(Stub("error", [Str("key")], None)))
            == [LogEvent("error", Levels.Error, map["key" := Nil])]
  {
    var e := Stub("error", [Str("key")], None);
    assert CauseChain(Some(e)) == [e];
    assert Collected([e]) == Own(e) == [Str("key"), Nil];
  }

  /** An error collection without context: one event per child, each with "parent". */
  method CollectionScenario() returns (events: seq<LogEvent>)
    ensures events == [
      LogEvent("error 1", Levels.Error, map["parent" := Str("multiple error happened")]),
      LogEvent("error 2", Levels.Error, map["parent" := Str("multiple error happened")])]
  {
    var children := [Error("error 1", None, None, None), Error("error 2", None, None, None)];
    var collection := Error("multiple error happened", None, None, Some(children));
    assert CauseChain(Some(collection)) == [collection];
    assert Collected([collection]) == [];
    var sink := new TestLoggerFacade();
    var handler := new ErrorHandler(Some(sink));
    handler.Handle(Some(collection));
    events := sink.Events();
  }
}
