# Metrics registry, modelled in Dafny

This project models the in-process metrics registry of the Go package
`metrics`. The registry holds four maps, stored as package-level variables in
the Go package:

- counters: name to unsigned 64-bit value;
- gauges: name to evaluator;
- batch initializers: arbitrary key to initializer;
- windowed histograms: name to histogram.

The model makes these maps the fields of one class, `Metrics.Registry`. Each
operation becomes a method that changes those fields and states the new state
in full:

- counters: `Add`, `AddN`, and the `Counters` snapshot;
- gauges: `Set`, `SetFunc`, `SetBatchFunc`, and the `Gauges` snapshot;
- `Reset`;
- `NewHistogram`;
- a histogram's `Merge` step.

The `valueAt` closure is the function `ValueAt` of the histogram state. It
reads 0 until a merged snapshot exists.

Gauge values are reals. Evaluators and initializers are compared by
structure, never as functions:

- an evaluator is a captured constant, a caller-supplied function, or a
  histogram's quantile closure;
- an initializer is a histogram's merge step or a caller-supplied one.

What caller-supplied functions return at snapshot time is the parameter
`funcs` of `Gauges`. That covers whatever their initializers refreshed. What
the HDR library reports for a merged histogram is the parameter `hdr`. A
ghost `log` records every initializer call and gauge evaluation of every
snapshot, in order. This is how "every initializer exactly once, before any
gauge is evaluated" is stated.

`Registry.Valid()` says that every quantile evaluator and every merge
initializer names a registered histogram. In Go, those closures hold
pointers to live histograms.

The module `MetricsTest` replays the package's tests and a few scenarios on
fresh registries:

- the memory-statistics collector registers five gauges under one batch key;
- an earlier batch key equal to a histogram's name keeps that histogram's
  merge step out of the initializers. This is first-wins registration at
  work, and the histogram's quantile gauges then read 0 in two successive
  snapshots.

The package documentation (metrics.go:6-9) calls a counter monotonically
increasing. The code's `AddN` uses Go's `uint64` `+=`, which wraps around at
2^64. The model follows the code: `WrapAdd` wraps. "## Findings" records the
difference.

## Model

| member | source | states |
|---|---|---|
| Metrics.WrapAdd | metrics.go:49-53 | Go's uint64 addition: the exact sum below 2^64, otherwise the sum minus 2^64 |
| Metrics.AddNIncreasing | metrics.go:48-53 | while old value plus delta stays below 2^64, AddN raises the counter by exactly delta, so it never decreases |
| Metrics.CounterReadAfterUpdate | metrics.go:51 | after a counter update, the updated name reads the new value and every other name reads what it read before; an unknown name reads 0, Go's zero value for a missing map entry |
| Metrics.QuantileSnapshot | metrics.go:196-207 | after a snapshot's initializers run, a quantile gauge reads the library's value at its percentile if its histogram was merged before or its merge step is registered, and 0 otherwise |
| Metrics.Q.Percent | metrics.go:156-161 | the percentile passed to valueAt lies between 50 and 99.9 inclusive |
| Metrics.Q.Suffix | metrics.go:156-161 | every gauge-name suffix is ".P" followed by two or three more characters |
| Metrics.SuffixDigits | metrics.go:156-161 | the characters after ".P" are all decimal digits |
| Metrics.WrapAddAssociative | metrics.go:49-53 | adding two deltas in turn equals adding their wrapped sum once |
| Metrics.Registry.constructor | metrics.go:209-213 | a new registry has empty counter, gauge, initializer and histogram maps |
| Metrics.Registry.Add | metrics.go:43-46 | Add has exactly the effect of AddN with delta 1 |
| Metrics.Registry.AddN | metrics.go:48-53 | only counter `name` changes; it becomes (old value, or 0 if absent, + delta) mod 2^64 |
| Metrics.Registry.Set | metrics.go:61-68 | gauge `name` now returns the captured constant, replacing any earlier evaluator; nothing else changes |
| Metrics.Registry.SetFunc | metrics.go:70-76 | gauge `name` now uses the given evaluator; other gauges and the initializers are untouched |
| Metrics.Registry.SetBatchFunc | metrics.go:78-88 | the gauge is always installed; the initializer is added only when the key has none, so an existing one is never replaced |
| Metrics.Registry.Reset | metrics.go:90-105 | counters, gauges, histograms and initializers are all empty afterwards |
| Metrics.Registry.Counters | metrics.go:107-117 | the returned map equals the current counters, built key by key |
| Metrics.Registry.Merge | metrics.go:189-194 | the histogram has a merged snapshot afterwards; nothing else changes |
| Metrics.Registry.Gauges | metrics.go:119-136 | every initializer key runs once, then every gauge is evaluated once (the log shows that order); histograms are merged exactly when their merge step is registered; the result has the gauges' domain, each value is that gauge's evaluator on the new state, and a quantile gauge of a never-merged histogram reads 0 |
| Metrics.Registry.RunInitializers | metrics.go:127-129 | the initializer loop enumerates the initializer keys without repetition and merges the histograms whose merge step is among them |
| Metrics.Registry.EvaluateGauges | metrics.go:131-135 | the evaluation loop returns a map over exactly the gauge names, with each gauge's evaluator value |
| Metrics.Registry.ShowAfterInit | metrics.go:127-129 | running one more initializer extends the set of merged histograms by that initializer's histogram |
| Metrics.Registry.NewHistogram | metrics.go:143-164 | a taken name panics with "<name> already exists" and changes nothing; otherwise the histogram is added unmerged, the gauges gain exactly the six quantile gauges, and the key `name` gets the merge step unless it already had an initializer |
| Metrics.AfterInitsMerged | metrics.go:127-129 | after the initializers run, a histogram is merged if and only if it was merged already or its merge step is a registered initializer |
| Metrics.QuantileNames | metrics.go:156-161 | the six gauge names are `name` followed by each quantile's suffix, and nothing else |
| Metrics.QuantileGauges | metrics.go:156-161 | the six quantile gauges have exactly the six quantile names as their domain |
| Metrics.QuantileGaugeAt | metrics.go:156-161 | the gauge named after quantile q reads quantile q of that histogram |
| Metrics.QuantileGaugeUpdates | metrics.go:156-161 | the six successive installs equal adding the six quantile gauges at once |
| Metrics.QuantileNamesSize | metrics.go:156-161 | a histogram adds exactly six distinct gauge names |
| Metrics.QuantileNameInjective | metrics.go:156-161 | two quantiles with the same gauge name are the same quantile |
| Metrics.QuantileNamesDiffer | metrics.go:156-161 | different quantiles give different gauge names |
| Metrics.SuffixInjective | metrics.go:156-161 | the six suffixes are pairwise different |
| Metrics.EnumeratesOnce | metrics.go:127-129 | an enumeration of the initializer keys holds each key exactly once |
| Metrics.EnumeratesSize | metrics.go:127-129 | an enumeration of the initializer keys is exactly as long as the key set is large |
| MetricsTest.TestCounter | metrics_test.go:9-19 | Reset, Add and AddN(10) on "whee" give a snapshot value of 11 |
| MetricsTest.AddNTwice | metrics.go:48-53 | AddN(a) then AddN(b) leaves the previous value plus a plus b, wrapped |
| MetricsTest.CounterWraps | metrics.go:48-53 | a counter at 2^64 - 1 reads 0 after one more Add, so its snapshot value decreases |
| MetricsTest.CountersAreCopies | metrics.go:107-117 | a counter snapshot does not change when the counter is incremented afterwards |
| MetricsTest.TestGaugeValue | metrics_test.go:21-30 | Set(100.01) then a snapshot gives exactly {"whee": 100.01} |
| MetricsTest.TestGaugeFunc | metrics_test.go:32-43 | SetFunc with a function returning 100.03 gives exactly {"whee": 100.03} |
| MetricsTest.GaugeReplaced | metrics.go:70-76 | the evaluator installed last decides the snapshot value |
| MetricsTest.TestHistogram | metrics_test.go:45-55 | a new histogram's snapshot has exactly the six quantile gauges, each reading the library's value at that quantile's percentile (50 to 99.9) on the merged histogram |
| MetricsTest.DuplicateHistogram | metrics.go:147-149 | registering a histogram name a second time panics with "<name> already exists" |
| MetricsTest.ResetEmptiesSnapshots | metrics.go:90-105 | after Reset both snapshots are empty maps |
| MetricsTest.FirstInitWins | metrics.go:84-86 | of two initializers registered for one key, the first is the one kept |
| MetricsTest.MemStatsBatch | runtime/gc.go:9-17 | five gauges batched under "Mem" are all in the snapshot, and their shared initializer runs exactly once |
| MetricsTest.HistogramKeyShadowed | metrics.go:156 | an earlier batch key equal to the histogram's name blocks its merge step, so its quantile gauges read 0 in each of two successive snapshots |

## Left out

- Locking: the mutexes `cm`, `gm` and `hm` and each histogram's read-write lock are not modelled. Every operation is atomic, so "no lost updates" under concurrent `AddN` is not stated. Atomicity also hides two hazards in the locking code. `NewHistogram` holds `hm` (metrics.go:144) and then takes `gm` inside `SetBatchFunc` (metrics.go:82), while `Gauges` (metrics.go:121, 124) and `Reset` (metrics.go:95, 98) take `gm` and then `hm`: the opposite order, so a snapshot or a reset running at the same time as a histogram registration can deadlock. And `SetBatchFunc` unlocks `gm` without `defer` (metrics.go:87), so a panic on an unhashable key leaves `gm` locked. Both come from reading the code; neither was executed.
- Background rotator and `Histogram.rotate` (metrics.go:182-187, 227-235) are left out. They are timing and concurrency, and the histogram data they move is not modelled.
- `expvar.Publish` of both snapshots (metrics.go:218-225) is left out. It is I/O plumbing.
- HDR histogram library: window construction, `RecordValue` with its out-of-range error, `Rotate`, `Merge`'s bucket contents and `ValueAtQuantile` are left out. This is foreign code. A histogram keeps only its configuration and whether a merged snapshot exists. Quantile values are the parameter `hdr`.
- Exact quantile values and their order: the expected numbers in metrics_test.go:57-79, and P50 ≤ … ≤ P99.9, depend on the library's bucketing. They are not stated.
- Histogram.RecordValue (metrics.go:173-180) is left out. It only forwards to the library. TestHistogram's recording loop is left out for the same reason.
- float64: gauge values are reals. Rounding and the `float64(...)` conversion of quantiles are not modelled.
- Metrics.Registry.Gauges: one function `funcs` gives every caller function's result for the whole snapshot, so two gauges that share a caller function read the same value. Go calls `f()` once per gauge (metrics.go:132-134), and two calls may return different values. Caller functions are assumed to have no side effects on the registry.
- Batch keys: the model's `Key` holds only comparable values (strings and opaque identifiers). Go's `key interface{}` also accepts a slice, map or func; such a key panics at metrics.go:84 after line 83 has already installed the gauge, and it leaves `gm` locked. That path is not modelled.
- Panics raised by caller-supplied evaluators or initializers are not modelled. The caller functions are opaque.
- Metrics.Registry.NewHistogram: the panic is a result value `Panic(message)` with the state unchanged. It does not unwind the caller. The returned handle is the histogram's name.
- Metrics.Registry.SetFunc and Metrics.Registry.SetBatchFunc require that a quantile evaluator or merge initializer names a registered histogram. In Go such closures can only capture a live histogram.
- The memory-statistics collector itself (`runtime.ReadMemStats`) is left out. It is OS glue. Only its registration pattern is replayed, in MemStatsBatch.
- runtime/memstats_test.go and runtime/fds_test.go are not part of this model. They use a snapshot function and file-descriptor gauges that are not in the registry's code.

## Findings

| source | as written | input that shows it | evidently intended | confidence | as-written member | corrected member |
|---|---|---|---|---|---|---|
| metrics.go:51 | the documentation (metrics.go:6, 37) calls a counter monotonically increasing, but `counters[name] += delta` on `uint64` wraps at 2^64 | AddN(2^64 - 1) then Add on a new counter: the value drops from 2^64 - 1 to 0 | monotonic growth as long as the sum stays below 2^64; the wrapping code is kept as the model's AddN | low: reasonable usage never reaches 2^64; not executed | MetricsTest.CounterWraps | Metrics.AddNIncreasing |
