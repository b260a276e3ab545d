# logur core, modelled in Dafny

logur is a Go logging facade. This project models the part of it that decides
what a log call records:

- **Levels** (`Levels`, levels.go): five ordered severities stored in a 32-bit
  unsigned integer. The module covers case-insensitive parsing with the
  `"warning"` alias, the total `String`, `UnmarshalText`, the `LevelFunc` fallback
  to Info, and the `LevelEnabler` contract.
- **Field merging** (`Fields`, utils.go): the accumulated fields of a logger are
  combined with the first per-call field map, and the per-call values win.
- **Field-composition wrappers**:
  - `FieldLogger` models the newer `WithFields`/`fieldLogger` (logger_fields.go).
  - `ContextualLogger` models the older `ContextualLogger` (logger_context.go).
  - Wrappers are immutable datatype values. A log call is a function returning the
    call that reaches the sink, or `None` when some layer's `LevelEnabler` gates it.
  - Proved for any number of nested enrichments:
    - the sink receives the accumulated fields overridden by the per-call ones;
    - a disabled level short-circuits;
    - the older wrapper stays one layer deep.
- **Recording sink and event equality** (`TestLogging`, logger_testing.go):
  - `TestLoggerFacade` is a class whose `events` sequence its methods append to.
  - `LogEvent.Equals`, `AssertEquals` and `LogEventsEqual` are loops proved against
    one predicate. That predicate is not symmetric (an absent key reads as nil).
- **Error handler** (`ErrorHandling`, error_handler.go):
  - the cause-chain walk;
  - collecting context pairs with nil padding, deeper causes first;
  - turning the pairs into a map where the last write wins, so the outermost error wins;
  - one Error-level event per error, or per child of an error collection, with
    `"parent"` added.
- **Key/value conversions**:
  - `KeyVals` covers `FromMap` (internal/keyvals/from_map.go) and the pair-list-to-map
    conversion.
  - `KitLogger` covers the go-kit adapter (integration/kit/logger.go): `(MISSING)`
    padding, the level table, and extraction of `level` and `msg`.
- **gRPC adapter** (`GrpcLogger`, integration/grpc/logger.go): the routing of the
  twelve LoggerV2 methods to levels, and the `V` verbosity mapping including the
  clamp of 3 to 2.

Go's `interface{}` field values are the datatype `Value = Nil | Str | Int | Bool`.
A nil map is the empty map. A `LevelEnabler` is an arbitrary function
`Level -> bool`, and a capability a Go type assertion discovers is an `Option`.

## Model

| member | source | states |
|---|---|---|
| Levels.Levels | levels.go:12-34 | the declared levels are exactly Trace..Error, listed in strictly increasing order from Trace (0) to Error (4) |
| Levels.ToLower | levels.go:39 | lower-casing keeps the length and maps each character through the ASCII lower-case mapping |
| Levels.ParseLevel | levels.go:38-57 | success iff the lower-cased name is one of trace, debug, info, warn, warning, error; success yields a defined level; failure yields Level(999) |
| Levels.ParseLevelNames | levels.go:38-57 | "TRACE", "Debug", "info", "error" give their own level; "warn", "warning" and "WARNING" all give Warn; "unknown" gives (Level(999), false) |
| Levels.ParseIgnoresCase | levels.go:38-57 | two names equal up to case parse to the same result |
| Levels.String | levels.go:60-79 | Trace, Debug, Info, Warn and Error get "trace", "debug", "info", "warn" and "error"; every other value gets "unknown", and only those |
| Levels.ParseString | levels.go:38-79 | round trip: parsing the name of a defined level gives back that level with success |
| Levels.ParseThenString | levels.go:38-79 | a successful parse gives the level whose String is the lower-cased input, with "warning" mapped to "warn"; with String's table this fixes the level of every accepted name |
| Levels.StringInjective | levels.go:60-79 | distinct defined levels have distinct names |
| Levels.LevelVar.UnmarshalText | levels.go:82-91 | on a successful parse the receiver becomes the parsed level and no error is returned; otherwise an "undefined level" error names the text and the receiver is unchanged |
| Levels.LevelFunc | levels.go:95-115 | each defined level selects its own method; every other value selects Info |
| Levels.ConformingEnablerMonotone | levels.go:117-122 | a conforming enabler is monotone on defined levels and reports Level(999) enabled |
| Fields.CopyFields | utils.go:16-22 | the copy loop: the keys are the union, source values win, other destination values are kept |
| Fields.CopyIsUnion | utils.go:14-24 | what the copy loop produces is the map union in which the source wins |
| Fields.Merged | utils.go:4-25 | no per-call map gives the current fields; otherwise the keys are the union of the current keys and fields[0]'s keys, fields[0]'s values win, and the remaining current values are kept |
| Fields.MergeFields | utils.go:4-25 | the two-loop implementation returns exactly Merged |
| Fields.MergedIgnoresLaterMaps | utils.go:20 | per-call maps after the first have no effect |
| Fields.MergedWithEmpty | utils.go:5-11 | merging with an empty map, on either side, returns the other map |
| Fields.MergedOne | utils.go:14-24 | with one per-call map, merging is map union in which that map wins |
| Fields.MergedTwice | utils.go:14-24 | merging twice equals merging once with the union of the two per-call maps, the later map winning |
| Fields.MergedAbsorbed | utils.go:14-24 | a per-call map that contains every accumulated key is returned as it is |
| TestLogging.Equals | logger_testing.go:17-37 | the loop decides EventEquals: same level, line and field count, and every receiver key equal to the other's value, an absent key reading as nil |
| TestLogging.AssertEquals | logger_testing.go:40-49 | returns no error exactly when Equals holds; the error carries both events |
| TestLogging.LogEventsEqual | logger_testing.go:91-111 | no error iff EventEquals(expected, actual); otherwise the first failing check is reported, in the order level, line, fields |
| TestLogging.EqualsNotSymmetric | logger_testing.go:17-37 | two events where a.Equals(b) holds and b.Equals(a) does not |
| TestLogging.EqualsWithoutNil | logger_testing.go:17-37 | when the receiver holds no nil value, Equals is structural equality |
| TestLogging.TestLoggerFacade.constructor | logger_testing.go:303-306 | a fresh recorder holds no events |
| TestLogging.TestLoggerFacade.Count | logger_testing.go:309-314 | the number of recorded events |
| TestLogging.TestLoggerFacade.LastEvent | logger_testing.go:317-328 | nil iff nothing has been recorded, otherwise the most recent event |
| TestLogging.TestLoggerFacade.Events | logger_testing.go:331-340 | every recorded event in call order, as many as Count |
| TestLogging.TestLoggerFacade.RecordEvent | logger_testing.go:342-347 | appends exactly the event; earlier events are unchanged |
| TestLogging.TestLoggerFacade.Record | logger_testing.go:349-360 | appends one event with the level, the message and the first per-call map (empty if none); later maps are ignored |
| TestLogging.TestLoggerFacade.RecordCtx | logger_testing.go:387-398 | records exactly as Record does; the context is ignored |
| TestLogging.TestLoggerFacade.Receive | logger_testing.go:362-423 | any of the ten leveled methods, plain or context, appends exactly one event for the call |
| TestLogging.RecorderScenario | logger_testing.go:309-360 | after two calls Count is 2 and LastEvent is the second call's event with only its first map |
| FieldLogger.Enriched | logger_fields.go:8-41 | an empty map returns the input; otherwise a new wrapper over the input itself (one layer deeper) holding old fields overridden by new ones when the input is a fieldLogger with fields, and the new fields otherwise |
| FieldLogger.WithFields | logger_fields.go:8-41 | the two-loop implementation returns exactly Enriched |
| FieldLogger.WithField | logger_fields.go:44-46 | WithFields with the one-entry map; the result holds the key with the value |
| FieldLogger.Log | logger_fields.go:56-123 | the same level, message and context reach the sink; a fieldLogger forwards exactly one map; a fieldLogger whose enabler rejects the level forwards nothing; one enabled layer over a sink forwards its fields merged with the per-call ones |
| FieldLogger.DisabledShortCircuits | logger_fields.go:81-85 | a layer whose captured enabler rejects the level forwards nothing, whatever the fields |
| FieldLogger.NoEnablerForwardsAll | logger_fields.go:125-131 | a layer without a captured enabler forwards every level with the merged fields |
| FieldLogger.ChainDelivers | logger_fields.go:81-87 | a chain of any depth delivers what one layer over the sink with the accumulated fields delivers |
| FieldLogger.EnrichedKeepsChain | logger_fields.go:19-38 | enriching a chain with a non-empty map gives a chain holding the union of old and new fields |
| FieldLogger.EnrichAllChain | logger_fields.go:8-41 | any sequence of enrichments of a sink gives the sink (nothing accumulated) or a chain holding the accumulated fields |
| FieldLogger.EnrichAllDelivers | logger_fields.go:8-87 | after any enrichments, a call delivers the accumulated fields (later maps winning) overridden by the per-call ones, gated by the sink's enabler; with nothing accumulated the call passes unchanged |
| FieldLogger.EnrichAllDepth | logger_fields.go:31-34 | as written, every non-empty enrichment adds a layer |
| FieldLogger.ThirdEnrichmentCapturesNoEnabler | logger_fields.go:19-38 | three non-empty enrichments of a sink with an enabler give depth 3, and the outer layer captured no enabler |
| FieldLogger.EnrichedFlat | logger_fields.go:15-34 | the intended enrichment: a fieldLogger with fields is replaced by one layer over its inner logger with the merged fields |
| FieldLogger.EnrichAllFlatIsOneLayer | logger_fields.go:15-34 | the intended enrichment always leaves the sink or exactly one layer over it, with the accumulated fields and the sink's enabler |
| FieldLogger.FlatDeliversAsWritten | logger_fields.go:19-34 | the extra layers are unobservable: as written and as intended, every call delivers the same thing |
| FieldLogger.LogTo | logger_fields.go:81-87 | the recorder gains exactly the event of the delivered call, or nothing when the call is gated |
| FieldLogger.WithFieldScenario | logger_fields_test.go:33-52 | three WithField calls on "key", then Info with {"key2": "value"}, record exactly one event with {"key": "value3", "key2": "value"} |
| FieldLogger.ScenarioDelivers | logger_fields_test.go:33-52 | the call that reaches the sink in that scenario |
| FieldLogger.ConformanceLevel | conformance/conformance.go:45-82 | a wrapper over the recorder records exactly one event, equal to the expected one, at every level, with or without a context |
| FieldLogger.GatingScenario | logger_fields.go:81-87 | over a sink whose minimum is Warn, an Info call records nothing and an Error call records one event |
| ContextualLogger.Enriched | logger_context.go:4-33 | an empty map returns the input; enriching a wrapper with fields gives one wrapper over its inner logger (same depth) with old fields overridden by new ones; the enabler is always the new inner logger's |
| ContextualLogger.WithFields | logger_context.go:4-33 | the two-loop implementation returns exactly Enriched |
| ContextualLogger.MergeFields | logger_context.go:112-132 | returns what utils.go mergeFields returns for the one per-call map |
| ContextualLogger.Log | logger_context.go:43-110 | the same level and message reach the inner logger with exactly one map; a rejected level forwards nothing; an enabled wrapper over a sink forwards its fields merged with the first per-call map |
| ContextualLogger.NoPerCallFieldsForwardsOwn | logger_context.go:48-53 | without per-call fields, the wrapper's own map is forwarded unchanged |
| ContextualLogger.DisabledShortCircuits | logger_context.go:44-46 | a level the captured enabler rejects never reaches the inner logger |
| ContextualLogger.EnrichedStaysFlat | logger_context.go:11-26 | enriching a flat logger keeps it flat, at depth at most 1 |
| ContextualLogger.EnrichAllIsOneLayer | logger_context.go:4-33 | any sequence of enrichments of a sink gives the sink, or exactly one wrapper with the accumulated fields and the sink's enabler |
| ContextualLogger.EnrichAllDelivers | logger_context.go:43-53 | after enrichments the sink receives the accumulated fields overridden by the first per-call map, gated by its enabler |
| ContextualLogger.LogTo | logger_context.go:43-110 | the recorder gains exactly the event of the delivered call, or nothing |
| ContextualLogger.ImmutabilityScenario | logger_context.go:11-26 | W1 still records {"a": "1"} while W2 = WithFields(W1, {"a": "2"}) records {"a": "2"}; with maps as values this holds by construction, so it shows the merge result, not the source's copying |
| KeyVals.KeyString | error_handler.go:121-130 | a string key is used as it is |
| KeyVals.Padded | error_handler.go:64-66 | an odd list gets the pad value appended and an even list is unchanged; the result has even length and starts with the input |
| KeyVals.PairKeyInMap | error_handler.go:113-115 | the key of every pair is a key of the map |
| KeyVals.MapKeyFromPair | error_handler.go:113-115 | every key of the map comes from some pair |
| KeyVals.PairsMapKeys | error_handler.go:102-118 | the map's keys are exactly the pairs' keys |
| KeyVals.LastPairWins | error_handler.go:113-115 | a pair whose key does not occur later gives that key its value |
| KeyVals.PairsMapAppend | error_handler.go:113-115 | the map of two concatenated lists is the first list's map overridden by the second's |
| KeyVals.PairsMapSnoc | error_handler.go:113-115 | appending one pair writes that key with that value |
| KeyVals.FromMapStep | internal/keyvals/from_map.go:12-17 | one loop iteration keeps the listed pairs distinct, matching the map, and denoting the part of the map visited so far |
| KeyVals.FromMap | internal/keyvals/from_map.go:4-20 | twice as many elements as map entries; each even position holds a distinct key of the map and the next position its value; the list denotes the map again |
| ErrorHandling.CauseChain | error_handler.go:81-100 | the chain is empty iff there is no error, and starts with the error |
| ErrorHandling.CauseChainLinks | error_handler.go:81-100 | each element of the chain is followed by its cause, and the last has none |
| ErrorHandling.Visited | error_handler.go:81-100 | a non-nil error is visited first; nil visits nothing |
| ErrorHandling.VisitedIsPrefix | error_handler.go:81-100 | the visit is a prefix of the cause chain; fn returned true on all visited errors but the last; an early stop follows a false |
| ErrorHandling.VisitedAll | error_handler.go:81-100 | when fn never returns false, the whole chain is visited |
| ErrorHandling.ErrorForEachCause | error_handler.go:81-100 | the loop visits exactly Visited |
| ErrorHandling.Own | error_handler.go:64-66 | an error's contributed pairs have even length |
| ErrorHandling.Collected | error_handler.go:61-69 | pairs collected along a visit have even length |
| ErrorHandling.CollectedCons | error_handler.go:61-69 | an outer error's pairs come after all of its causes' pairs |
| ErrorHandling.ContextPairsOfChain | error_handler.go:54-75 | an error's context pairs are its cause's pairs followed by its own |
| ErrorHandling.ErrorContext | error_handler.go:54-75 | the closure-driven walk returns exactly the chain's pairs, deepest first |
| ErrorHandling.MergeErrorContext | error_handler.go:120-140 | writes one pair into the map: the key as a string gets the value, and other keys keep theirs |
| ErrorHandling.ErrorContextToMap | error_handler.go:102-118 | the map of the nil-padded pairs, with later pairs overwriting earlier ones; empty for an empty list |
| ErrorHandling.OuterContextWins | error_handler.go:54-75 | an error's fields are its cause's fields overridden by its own pairs, so the outermost error wins |
| ErrorHandling.HandledEvents | error_handler.go:25-51 | nil logs nothing; an error collection logs one Error event per child, in order, with the context fields plus "parent"; any other error logs one Error event with its message and context fields |
| ErrorHandling.ErrorHandler.constructor | error_handler.go:14-22 | a nil logger is replaced by a no-op logger |
| ErrorHandling.ErrorHandler.LogError | error_handler.go:41-50 | records one Error event with the line and fields |
| ErrorHandling.ErrorHandler.Handle | error_handler.go:25-51 | the recorder gains exactly HandledEvents(err) |
| ErrorHandling.OuterValueLogged | error_handler_test.go:77-90 | the same key in an error and its cause: the outer value is logged |
| ErrorHandling.DanglingKeyLoggedAsNil | error_handler_test.go:105-114 | a dangling key is logged with a nil value |
| ErrorHandling.CollectionScenario | error_handler_test.go:50-66 | a two-child collection records two events, each with "parent" |
| KitLogger.New | integration/kit/logger.go:18-32 | the table's names are exactly the six level names, each selecting the level of that name ("warning" selecting Warn), and the default is Info |
| KitLogger.TableAgreesWithParseLevel | integration/kit/logger.go:20-27 | each name in the table selects the level ParseLevel gives that name |
| KitLogger.FormatS | integration/kit/logger.go:43 | %s prints a string as it is and marks anything else with "%!s" |
| KitLogger.Log | integration/kit/logger.go:34-58 | exactly one event, the one for the forwarded call, is recorded, and nil is returned |
| KitLogger.ForwardedLevel | integration/kit/logger.go:41-47 | the level is the one ParseLevel finds in the "level" entry's text, and Info when it is absent or names no level |
| KitLogger.ForwardedFields | integration/kit/logger.go:43-53 | "msg" is always removed; "level" is removed iff it named a level; every other entry is kept with its value |
| KitLogger.ForwardedMessage | integration/kit/logger.go:49-53 | the message is the "msg" entry's text, or empty when there is none |
| KitLogger.MessageScenario | integrations/kitlog/logger_test.go:10-25 | ("msg", "message", "key", "value") logs "message" at Info with {"key": "value"} |
| KitLogger.LevelScenario | integrations/kitlog/logger_test.go:27-52 | ("level", name) logs at the table's level for that name, with no fields |
| KitLogger.MissingValueScenario | integrations/kitlog/logger_test.go:54-68 | ("key") logs at Info with {"key": "(MISSING)"} |
| GrpcLogger.New | integration/grpc/logger.go:37-47 | the adapter keeps the wrapped logger's enabler exactly when the wrapped logger has one |
| GrpcLogger.TrimSuffix | integration/grpc/logger.go:56 | a present suffix is removed once; otherwise the text is unchanged |
| GrpcLogger.Forward | integration/grpc/logger.go:50-113 | Info* go to Info, Warning* to Warn, Error* and Fatal* to Error (iff); no fields and no context; Println-style methods drop one trailing newline, the others pass the text unchanged |
| GrpcLogger.V | integration/grpc/logger.go:116-127 | without an enabler V is true |
| GrpcLogger.VQueriesLevel | integration/grpc/logger.go:121-126 | verbosities 0, 1, 2 and 3 ask the enabler about Info, Warn, Error and Error |
| GrpcLogger.VFollowsMinimum | integration/grpc/logger.go:116-127 | with a conforming enabler, V(v) for v in 0..3 holds iff the queried level is at or above the minimum |
| GrpcLogger.VAboveFatalEnabled | integration/grpc/logger.go:116-127 | verbosities above 3 ask about an undefined level, which a conforming enabler reports enabled |
| GrpcLogger.ToLevelIgnoresInt64Wrap | integration/grpc/logger.go:126 | int64 wrap-around of level+2 does not change the 32-bit level |

## Left out

- Formatting by `fmt` (Sprint, Sprintln, Sprintf in the gRPC adapter, and `%q` and `%s` of arbitrary values) is not modelled. The gRPC methods take the printed text as a parameter.
- Levels.LevelVar.UnmarshalText: the error text quotes the input without Go's `%q` escaping.
- Levels.ToLower: lower-cases ASCII letters only. Unicode case mapping is not modelled.
- The `sync.RWMutex` locking of the recorders is not modelled, because the model is sequential.
- `TestLogger` and `TestLoggerContext` are not modelled separately. They hold the same `events` field and record the same way as `TestLoggerFacade`, which carries both the plain and the context methods.
- The per-level methods (Trace .. Error and their Context variants) are folded into one `level` parameter. `LevelFunc` returns the selected level instead of a method value.
- Nil and empty maps and slices are not told apart. A nil map is the empty map, so "empty, not nil" results (`Events` on a fresh recorder, `FromMap` of an empty map) are only stated as empty.
- Field values are limited to the comparable datatype `Value`. Go's panic when `Equals` compares incomparable dynamic values is not modelled.
- `keyvals.ToMap`, used by integration/kit/logger.go, is not part of this model. It is taken to write pairs in order with the same key conversion as errorContextToMap.
- `safeString`, `safeError` and the `fmt.Stringer`/`error` conversion of keys in `mergeErrorContext` are not modelled. Keys become strings through `KeyVals.KeyString`, and values are stored as they are.
- Aliasing is not modelled: `errorContext`'s `append(kv, nil)` may write into the caller's slice, and `Handle` writes `"parent"` into one map shared by all child events. The model uses values, so neither is visible.
- ErrorHandling.ErrorForEachCause: returns the errors it visited in order instead of running closure side effects; `ErrorContext` builds its pairs from that trace.
- Cyclic cause chains are not modelled. errorForEachCause (error_handler.go:87-99) follows `Cause()` with no cycle guard and does not terminate on one, while the inductive `Error` datatype cannot form a cycle, so `ErrorHandling.ErrorForEachCause` always terminates.
- An error without a `Cause()` method and one whose `Cause()` returns nil are the same in the model (`cause == None`), because both end the walk.
- `NewErrorHandler` is modelled for a recording logger or nil only.
- `ensureLoggerFacade`, `LoggerFacade` and the context extractors are not part of this model. The facade wrap is treated as transparent.
- A `context.Context` is an opaque token.
- `Fatal`, `Fatalln` and `Fatalf` of the gRPC adapter log at Error. The process exit that gRPC performs afterwards is outside the adapter.
- The capacity hint of `make` in utils.go:14 affects no result and is not modelled.
- `logEventAssertionError.Format` (fmt output of an assertion error) is not modelled.
- Backend adapters, other integrations, the older gRPC copies, the writer, the standard-library logger and the print/message wrappers are outside the modelled core.

## Findings

| source | as written | input that shows it | evidently intended | confidence | as-written member | corrected member |
|---|---|---|---|---|---|---|
| logger_fields.go:19-34 | enriching a fieldLogger that has fields sets `logger = l.logger`, but builds the new wrapper over `loggerFacade` (the old wrapper); `logger` is used only to look up the enabler | three `WithFields` calls with non-empty maps on a sink that implements LevelEnabler: the result is three layers deep, and the outer layer captured no enabler, so it merges before any layer gates | "Do not add a new layer" (line 15): one layer over `l.logger` with the merged fields and its enabler | not executed | FieldLogger.ThirdEnrichmentCapturesNoEnabler | FieldLogger.EnrichAllFlatIsOneLayer |

The extra layers change no recorded output: `FieldLogger.FlatDeliversAsWritten` proves
that the as-written and the intended enrichment deliver the same call for every input.
The rest of the model therefore keeps the as-written `FieldLogger.WithFields`. The
discrepancy costs a deeper chain and a merge per extra layer on every call.
