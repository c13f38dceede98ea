# A verified model of the metric checkpoint integrator, the meter registry and Jaeger's environment configuration

This Dafny project models three parts of an OpenTelemetry Go SDK snapshot.

**The simple checkpoint integrator** (`sdk/metric/integrator/simple/simple.go`). It keeps one record per
(instrument descriptor, label set, resource). A collection round is bracketed by `StartCollection`
and `FinishCollection`, and the `startedCollection`/`finishedCollection` counters guard it.

- Inside a round, `Process` is called once per accumulation:
  - it creates a record on first sight;
  - on the first report of a round it keeps a reference to the producer's aggregator;
  - for an asynchronous instrument reported again in the same round, the last value wins;
  - for a synchronous instrument reported again, it moves the first report into a scratch `delta` aggregator once, then merges every later report into it.
- `FinishCollection` evicts stateless records that were not reported in the round. It reconciles stateful ones:
  - a precomputed sum gets `delta := current - cumulative`, then `cumulative := current`;
  - any other instrument gets `cumulative += current`.
- Between rounds, `ForEach` picks, for each record, the aggregator the exporter's kind asks for and hands it to a visitor. A visitor's `NoData` error is not treated as a failure.

**The meter registry** (`sdk/metric/meter.go`). `Get` returns the meter for an instrumentation scope, creating it on first request. The map itself is created lazily.

**The Jaeger exporter's process configuration** (`exporters/trace/jaeger/env.go`).
- `JAEGER_SERVICE_NAME` gives the service name.
- `JAEGER_TAGS` is a comma-separated list of `key=value` tags. A value may be `${VAR:default}`.
- Each tag value is typed: an integer, else a float, else a boolean, else a string.
- The result overrides only the fields of the configured process that the environment provides.

Modules, one per file:

- `Wrappers` (`wrappers.dfy`): `Option`.
- `Aggregation` (`aggregation.dfy`): the vocabulary, namely aggregation kinds, errors, instrument and export kinds, `MemoryRequired`, and the aggregator. The aggregator is a heap object with an integer `sum`, so that reference identity (`current` vs `delta`) is modelled.
- `Accounting` (`accounting.dfy`): the numeric meaning of the bookkeeping, stated on values. It covers what one reconciliation does to a record's sums, what many rounds add up to, and which aggregator an export reads.
- `SimpleIntegrator` (`integrator.dfy`): the integrator as a class. `values` is a map field; records are values in that map; aggregators are objects. `Valid()` states the record shapes. It also states that distinct records never share an aggregator, which is what makes "no other record changes" provable.
- `MeterRegistry` (`meter.dfy`): the registry as a class with a lazily allocated map of meters.
- `GoStrings`, `GoStrconv` (`gostrings.dfy`, `strconv.dfy`): the library functions the Jaeger parser relies on, each with its inverse or characterising contract.
- `JaegerEnv` (`jaeger_env.dfy`): tag parsing as a loop, specified by `ParsedTags`, plus `ProcessFromEnv` and the `WithProcessFromEnv` override.

A stateful record that is not reported in a round is still reconciled in `FinishCollection`, against the `current` aggregator it kept from the previous round (simple.go:262-293 has no `updated` test for stateful records). Two lemmas state what happens then:
- `Accounting.UnreportedPrecomputedSumRestarts`: a precomputed sum's cumulative value drops to zero and its delta becomes minus the previous report.
- `Accounting.UnreportedDeltaRecordMergesAgain`: any other instrument merges its previous report into the cumulative value a second time.

So the code does not keep a stateful record's cumulative value unchanged across a round the record misses.

## Model

| member | source | states |
|---|---|---|
| Aggregation.MemoryRequired | sdk/metric/integrator/simple/simple.go:125 | a record keeps cumulative state exactly when a cumulative exporter meets a non-precomputed instrument or a delta exporter meets a precomputed sum |
| Aggregation.Aggregator.Merge | sdk/metric/integrator/simple/simple.go:232 | adds the other aggregator's sum; between different implementations it fails with InconsistentType and changes nothing |
| Aggregation.Aggregator.SynchronizedCopy | sdk/metric/integrator/simple/simple.go:223-227 | for a destination other than the source (the integrator copies only between distinct aggregators): moves the sum into the destination and resets the source; between different implementations it fails and changes nothing |
| Aggregation.Aggregator.Subtract | sdk/metric/integrator/simple/simple.go:277-278 | stores this minus the operand into the result; fails with InconsistentType between different implementations |
| Accounting.ReconcileRetains | sdk/metric/integrator/simple/simple.go:272-289 | reconciling a stateful record keeps its cumulative (and, for a precomputed sum, delta) aggregator |
| Accounting.CumulativeIsTotalOfDeltas | sdk/metric/integrator/simple/simple.go:286-288 | after any number of rounds, a delta-reporting record's cumulative sum is the starting sum plus every report |
| Accounting.DeltaIsDifference | sdk/metric/integrator/simple/simple.go:275-282 | each round's delta of a precomputed sum is that round's report minus the previous one |
| Accounting.DeltasTelescope | sdk/metric/integrator/simple/simple.go:275-282 | the deltas of a precomputed sum add up to the last report minus the initial cumulative sum, and cumulative ends at the last report |
| Accounting.UnreportedPrecomputedSumRestarts | sdk/metric/integrator/simple/simple.go:262-282 | a precomputed sum not reported in a round ends with cumulative 0 and delta equal to minus the previous report |
| Accounting.UnreportedDeltaRecordMergesAgain | sdk/metric/integrator/simple/simple.go:286-288 | a delta-reporting stateful record not reported in a round adds its previous report to cumulative again |
| Accounting.ChooseExport | sdk/metric/integrator/simple/simple.go:310-344 | an export kind selects no aggregator exactly when it is not one of pass-through, cumulative and delta |
| Accounting.ExportMatchesAccounting | sdk/metric/integrator/simple/simple.go:310-340 | under the export kind that decided statefulness, the chosen aggregator was allocated, is cumulative for a cumulative exporter and a delta for a delta exporter, and starts at process start exactly when it is cumulative |
| SimpleIntegrator.Swallow | sdk/metric/integrator/simple/simple.go:353 | a visitor's NoData is no error; any other error is kept as it is |
| SimpleIntegrator.Integrator.New | sdk/metric/integrator/simple/simple.go:96-107 | an empty, valid integrator with both selectors, both counters at zero and process and interval start at the given time |
| SimpleIntegrator.Integrator.Process | sdk/metric/integrator/simple/simple.go:110-233 | outside a round: InconsistentState and no change; first sight: one new record shaped by MemoryRequired; first report of a round or asynchronous repeat: `current` rebound, no sum changes; synchronous repeat: `current == delta` holding the copied first report plus the new one; no other record's entry changes, and only this record's aggregators may be written |
| SimpleIntegrator.Integrator.Insert | sdk/metric/integrator/simple/simple.go:122-148 | exactly one record is added, with `updated = finishedCollection`, `current` the incoming aggregator, and fresh zero cumulative and delta aggregators exactly as statefulness and precomputed-sum require |
| SimpleIntegrator.Integrator.Rebind | sdk/metric/integrator/simple/simple.go:150-192 | only the record's `updated` and `current` change, to the round and the incoming aggregator |
| SimpleIntegrator.Integrator.MergeRepeat | sdk/metric/integrator/simple/simple.go:194-232 | the scratch delta becomes `current` and holds the first report (copied once) plus the new one; a kind mismatch gives InconsistentType |
| SimpleIntegrator.Integrator.ScratchDelta | sdk/metric/integrator/simple/simple.go:199-210 | the record's delta aggregator is reused, or a fresh zero one of the selected implementation is allocated |
| SimpleIntegrator.Integrator.AdoptDelta | sdk/metric/integrator/simple/simple.go:211-228 | the first report's sum moves into delta, which becomes `current`; on a kind mismatch nothing changes |
| SimpleIntegrator.Integrator.StartCollection | sdk/metric/integrator/simple/simple.go:245-250 | opens a round: `startedCollection` grows by one, and from the second round on the interval starts where the last one ended |
| SimpleIntegrator.Integrator.FinishCollection | sdk/metric/integrator/simple/simple.go:255-295 | sets `intervalEnd` to the given time; unbalanced counters: InconsistentState and no other change; otherwise `finishedCollection` grows by exactly one even on error, stale stateless records go, stateful ones stay and are reconciled, and no error occurs exactly when every stateful record is reconcilable; NoSubtraction only when some stateful precomputed sum's `current` cannot subtract, InconsistentType only when some stateful record has a kind mismatch |
| SimpleIntegrator.Integrator.CloseRound | sdk/metric/integrator/simple/simple.go:256-260 | the interval ends at the given time and `finishedCollection` grows by exactly one; records and their sums are untouched |
| SimpleIntegrator.Integrator.SettleAll | sdk/metric/integrator/simple/simple.go:262-294 | the loop over all records: evicts exactly the stale stateless ones and reconciles every stateful one, or stops with NoSubtraction (some stateful precomputed sum whose `current` cannot subtract) or InconsistentType (some stateful record with a kind mismatch) |
| SimpleIntegrator.Integrator.Settle | sdk/metric/integrator/simple/simple.go:263-292 | one record: a stale stateless one is deleted, a stateful one is reconciled, failing with NoSubtraction exactly when it is a precomputed sum whose `current` cannot subtract and with InconsistentType exactly on any other kind mismatch; no other record changes, and the loop's progress invariant advances by this record |
| SimpleIntegrator.Integrator.ReconcileRecord | sdk/metric/integrator/simple/simple.go:272-292 | a stateful record's sums become `Reconcile` of its old sums; NoSubtraction exactly when it is a precomputed sum whose `current` cannot subtract, InconsistentType exactly when it otherwise has a kind mismatch |
| SimpleIntegrator.Integrator.ForEach | sdk/metric/integrator/simple/simple.go:300-358 | InconsistentState when not between rounds; otherwise each record is visited at most once with the aggregator and start time ChooseExport selects, and the result is the first invalid export kind or non-NoData visitor error, else success after visiting all |
| SimpleIntegrator.Integrator.ExportOne | sdk/metric/integrator/simple/simple.go:305-355 | one visit is exactly Outcome: the aggregator and start time ChooseExport selects, InvalidExporterKind for an unknown kind, and NoData swallowed |
| SimpleIntegrator.TwoReportsInOneRound | sdk/metric/integrator/simple/simple.go:180-232 | two producers reporting a synchronous instrument in one round leave `current == delta` holding the sum of both reports |
| MeterRegistry.Registry.constructor | sdk/metric/meter.go:35-46 | the zero registry has no map yet |
| MeterRegistry.Registry.Get | sdk/metric/meter.go:53-77 | nil map: a new map holding exactly the new meter; known scope: the stored meter, map unchanged; new scope: one fresh meter added; the meter serves the scope with the registry's pipelines |
| MeterRegistry.GetIsIdempotent | sdk/metric/meter.go:30-33 | two successive Get calls for one scope return the same meter |
| MeterRegistry.DistinctScopesGetDistinctMeters | sdk/metric/meter.go:71-76 | Get for two different scopes returns two different meters, both registered |
| GoStrings.Split | exporters/trace/jaeger/env.go:91 | at least one piece, none containing the separator, and joining them back gives the input |
| GoStrings.SplitJoin | exporters/trace/jaeger/env.go:91 | Split inverts Join on pieces free of the separator |
| GoStrings.SplitOnce | exporters/trace/jaeger/env.go:94 | the whole string when there is no separator, otherwise the parts before and after the first one |
| GoStrings.SplitOnceUnique | exporters/trace/jaeger/env.go:94 | splitting `a + sep + b` with `a` free of `sep` gives exactly `a` and `b` |
| GoStrings.TrimSpace | exporters/trace/jaeger/env.go:95 | the result neither starts nor ends with white space |
| GoStrings.TrimSpaceDropsOnlySpaces | exporters/trace/jaeger/env.go:95 | the result is a contiguous part of the input, and what is dropped on either side is white space |
| GoStrings.TrimSpaceAddsNothing | exporters/trace/jaeger/env.go:95 | trimming never introduces a rune the input lacks |
| GoStrings.TrimSpaceIdempotent | exporters/trace/jaeger/env.go:95 | trimming twice is trimming once |
| GoStrconv.ParseInt | exporters/trace/jaeger/env.go:120 | accepts only an optional sign followed by digits, with a value in the 64-bit range |
| GoStrconv.ParseFormatInt | exporters/trace/jaeger/env.go:120 | ParseInt reads back every formatted 64-bit integer |
| GoStrconv.ParseIntPlusSign | exporters/trace/jaeger/env.go:120 | a leading `+` is accepted and changes nothing |
| GoStrconv.ParseBool | exporters/trace/jaeger/env.go:126 | true exactly for 1, t, T, TRUE, true, True; false exactly for 0, f, F, FALSE, false, False |
| GoStrconv.ParseFormatBool | exporters/trace/jaeger/env.go:126 | ParseBool reads back what FormatBool writes |
| JaegerEnv.ParseValue | exporters/trace/jaeger/env.go:119-131 | integer if it parses as one; else float if the float parser accepts it; else boolean; else the string itself |
| JaegerEnv.ParseKeyValue | exporters/trace/jaeger/env.go:112-117 | the key is kept as given; the value is an integer exactly when the text parses as an int64, a boolean only when it is neither an integer nor a float and ParseBool accepts it, and otherwise the float or string spelled by the text itself |
| JaegerEnv.ParseValueOfInteger | exporters/trace/jaeger/env.go:120-122 | a formatted 64-bit integer is always an integer value, never a float, boolean or string |
| JaegerEnv.DigitBooleansAreIntegers | exporters/trace/jaeger/env.go:119-128 | "1" and "0", though boolean spellings, are integer values, so parseValue never reaches ParseBool with them |
| JaegerEnv.ParseValueOfBoolean | exporters/trace/jaeger/env.go:126-128 | a formatted boolean that the float parser rejects is a boolean value |
| JaegerEnv.Resolve | exporters/trace/jaeger/env.go:97-104 | a value that is not `${...}` passes through unchanged |
| JaegerEnv.ResolveReference | exporters/trace/jaeger/env.go:97-104 | `${e:d}` becomes the variable `e`, or `d` exactly when `e` is empty or unset; the default may contain `:` |
| JaegerEnv.TagOf | exporters/trace/jaeger/env.go:94-106 | a tag's key contains no `=` and has no surrounding white space |
| JaegerEnv.ParsedTags | exporters/trace/jaeger/env.go:90-110 | one tag per comma-separated piece, in input order |
| JaegerEnv.TagsOfJoinedPieces | exporters/trace/jaeger/env.go:91-108 | comma-joined well-formed pieces give back exactly one tag per piece, in order |
| JaegerEnv.TagOfPlainPiece | exporters/trace/jaeger/env.go:94-106 | a piece splits at its first `=`; key and value are trimmed, and a plain value is typed as it stands |
| JaegerEnv.TagOfReferencePiece | exporters/trace/jaeger/env.go:97-104 | a piece `k=${e:d}` takes its value from the variable or the default |
| JaegerEnv.ParseTags | exporters/trace/jaeger/env.go:90-110 | the loop's tags are exactly ParsedTags of its input |
| JaegerEnv.ParsePair | exporters/trace/jaeger/env.go:94-106 | one iteration builds exactly the tag TagOf describes |
| JaegerEnv.ProcessFromEnv | exporters/trace/jaeger/env.go:60-70 | the service name is the variable's value, and tags are empty exactly when JAEGER_TAGS is empty or unset, else they are its parsed tags |
| JaegerEnv.WithProcessFromEnv | exporters/trace/jaeger/env.go:73-83 | the service name and tags are replaced only where the environment provides them |

## Left out

- Locks: the `sync.RWMutex` of the integrator and the `sync.Mutex` of the registry only serialise callers; the model has a single caller.
- Time: `time.Now()` is a parameter (`now`) of `New` and `FinishCollection`, an unbounded integer clock.
- SimpleIntegrator.Integrator.FinishCollection: sets `intervalEnd` after the reconciliation loop rather than before it; nothing in the loop reads it, so the final state is the same.
- SimpleIntegrator.Integrator.FinishCollection: on a reconciliation error, the contract gives the error but not which records were already reconciled or evicted, because that depends on Go's map iteration order.
- Map iteration order: `FinishCollection` and `ForEach` take keys in an arbitrary order (`:|`). `ForEach` returns the order it used as a ghost sequence.
- Aggregators are reduced to one integer sum per object. Their kind check stands for Go's type assertions between implementations. The descriptor argument of `Merge`, `SynchronizedCopy` and `Subtract` is dropped. Concrete aggregators, `Aggregation()` views, histograms and float values are not modelled.
- The aggregation and export-kind selectors are function-valued constants of the integrator. The metric kinds' `Asynchronous`/`PrecomputedSum` classification and `ExportKind.MemoryRequired` live in packages that are not part of this model; they are defined from their documented meaning.
- SimpleIntegrator.Integrator.Process: requires that the incoming aggregator is owned by its producer. It must not be referenced by another record, nor be one of the record's own `delta`/`cumulative` aggregators. The Go code does not check this.
- SimpleIntegrator.Integrator.ForEach: requires that each record's chosen aggregator was allocated. The Go code would dereference nil otherwise. The visitor is a pure function from record to error. A `NoData` error wrapped inside another error (`errors.Is`) is not recognised as `NoData`.
- Integer width: the int64 round counters and `updated` stamps, and aggregator sums, are unbounded; overflow is not modelled.
- Label sets and resources are reduced to their equivalence maps; `Equivalent()` is the identity.
- The meter's instrument providers and `RegisterCallback` (sdk/metric/meter.go:93-117) are not modelled. `pipelines` is an opaque value, and `instrumentation.Scope` is modelled as a name, version and schema URL; neither type's definition is part of this model.
- `strconv.ParseFloat` is the opaque predicate `isFloat`, and a float value keeps its literal text.
- `CollectorEndpointFromEnv`, `WithCollectorEndpointOptionFromEnv` and `WithDisabledFromEnv` are not modelled.
- The exporter's options hold only the process; the other option fields are not part of this model.
- JaegerEnv.ParseTags: requires every comma-separated piece to contain `=`, and every `${...}` value to contain `:`. The Go code indexes `field[1]` and `ed[1]` and would panic on such input.
- Strings are sequences of runes: invalid UTF-8 and Unicode normalisation are not modelled. `os.Getenv` is a map lookup in which a missing variable reads as "". Go's nil tag slice and empty tag slice are both the empty sequence.
