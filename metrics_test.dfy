/** Scenarios of the registry, each on a fresh Registry: the package's own
    tests, and the batching pattern of the memory-statistics collector. The
    values the HDR library computes are the parameter `hdr`, what caller
    functions return the parameter `funcs`. */
module MetricsTest {
  import opened Metrics

  /** Reset, Add, AddN(10): the counter reads 11. */
  method TestCounter() returns (counters: map<string, uint64>)
    ensures "whee" in counters && counters["whee"] == 11
  {
    var r := new Registry();
    r.Reset();
    r.Add("whee");
    r.AddN("whee", 10);
    counters := r.Counters();
  }

  /** AddN is additive: two additions add the wrapped sum of the deltas. */
  method AddNTwice(r: Registry, name: string, a: uint64, b: uint64)
    requires r.Valid()
    modifies r`counters
    ensures r.Valid()
    ensures r.counters == old(r.counters)[name := WrapAdd(CounterValue(old(r.counters), name), WrapAdd(a, b))]
  {
    r.AddN(name, a);
    r.AddN(name, b);
    WrapAddAssociative(CounterValue(old(r.counters), name), a, b);
  }

  /** A counter at the largest uint64 value wraps to 0 on the next Add:
      the counter decreases, although the package documentation calls it
      monotonically increasing. */
  method CounterWraps() returns (before: map<string, uint64>, after: map<string, uint64>)
    ensures before == map["n" := 0xFFFF_FFFF_FFFF_FFFF] && after == map["n" := 0]
    ensures after["n"] < before["n"]
  {
    var r := new Registry();
    r.AddN("n", 0xFFFF_FFFF_FFFF_FFFF);
    before := r.Counters();
    r.Add("n");
    after := r.Counters();
  }

  /** A snapshot of the counters is a copy: later additions do not show in it. */
  method CountersAreCopies() returns (before: map<string, uint64>, after: map<string, uint64>)
    ensures before == map["whee" := 1] && after == map["whee" := 2]
  {
    var r := new Registry();
    r.Add("whee");
    before := r.Counters();
    r.Add("whee");
    after := r.Counters();
  }

  /** Set(100.01): the snapshot reads 100.01. */
  method TestGaugeValue(funcs: nat -> Value, hdr: (string, real) -> Value) returns (gauges: map<string, Value>)
    ensures gauges == map["whee" := 100.01]
  {
    var r := new Registry();
    r.Reset();
    r.Set("whee", 100.01);
    ghost var runs, evaluated;
    gauges, runs, evaluated := r.Gauges(funcs, hdr);
  }

  /** SetFunc with a function returning 100.03: the snapshot reads 100.03. */
  method TestGaugeFunc(funcs: nat -> Value, hdr: (string, real) -> Value) returns (gauges: map<string, Value>)
    requires funcs(0) == 100.03
    ensures gauges == map["whee" := 100.03]
  {
    var r := new Registry();
    r.Reset();
    r.SetFunc("whee", Func(0));
    ghost var runs, evaluated;
    gauges, runs, evaluated := r.Gauges(funcs, hdr);
  }

  /** The evaluator installed last is the one a snapshot calls. */
  method GaugeReplaced(funcs: nat -> Value, hdr: (string, real) -> Value) returns (gauges: map<string, Value>)
    ensures gauges == map["whee" := funcs(3)]
  {
    var r := new Registry();
    r.Set("whee", 1.0);
    r.SetFunc("whee", Func(3));
    ghost var runs, evaluated;
    gauges, runs, evaluated := r.Gauges(funcs, hdr);
  }

  /** A new histogram publishes exactly its six quantile gauges, and the
      snapshot merges it before reading them. */
  method TestHistogram(funcs: nat -> Value, hdr: (string, real) -> Value) returns (gauges: map<string, Value>)
    ensures gauges.Keys == QuantileNames("heyo")
    ensures forall q: Q :: gauges["heyo" + q.Suffix()] == hdr("heyo", q.Percent())
  {
    var r := new Registry();
    r.Reset();
    var h := r.NewHistogram("heyo", 1, 1000, 3);
    ghost var runs, evaluated;
    assert r.inits[StringKey("heyo")] == MergeHist("heyo");
    AfterInitsMerged(r.histograms, r.inits, "heyo");
    gauges, runs, evaluated := r.Gauges(funcs, hdr);
    forall q: Q ensures gauges["heyo" + q.Suffix()] == hdr("heyo", q.Percent()) {
      QuantileGaugeAt("heyo", q);
    }
  }

  /** A second histogram under a taken name panics and changes nothing. */
  method DuplicateHistogram() returns (first: NewHistogramResult, second: NewHistogramResult)
    ensures first == Created("heyo") && second == Panic("heyo" + " already exists")
  {
    var r := new Registry();
    first := r.NewHistogram("heyo", 1, 1000, 3);
    assert "heyo" in r.histograms;
    second := r.NewHistogram("heyo", 1, 100, 2);
  }

  /** After Reset both snapshots are empty. */
  method ResetEmptiesSnapshots(funcs: nat -> Value, hdr: (string, real) -> Value)
    returns (counters: map<string, uint64>, gauges: map<string, Value>)
    ensures counters == map[] && gauges == map[]
  {
    var r := new Registry();
    r.AddN("whee", 5);
    r.Set("whee", 1.0);
    var h := r.NewHistogram("heyo", 1, 1000, 3);
    r.Reset();
    counters := r.Counters();
    ghost var runs, evaluated;
    gauges, runs, evaluated := r.Gauges(funcs, hdr);
  }

  /** The first initializer registered for a key is the one kept. */
  method FirstInitWins() returns (init: Init)
    ensures init == OpaqueInit(1)
  {
    var r := new Registry();
    r.SetBatchFunc("a", OpaqueKey(0), OpaqueInit(1), Func(1));
    r.SetBatchFunc("b", OpaqueKey(0), OpaqueInit(2), Func(2));
    init := r.inits[OpaqueKey(0)];
  }

  /** Five gauges batched under the key "Mem", as the memory-statistics
      collector registers them: one snapshot runs their initializer once. */
  method MemStatsBatch(funcs: nat -> Value, hdr: (string, real) -> Value)
    returns (gauges: map<string, Value>, ghost runs: seq<Key>)
    ensures gauges.Keys == {"Mem.GC.Runs", "Mem.GC.TotalPauseTime", "Mem.GC.LastPauseTime", "Mem.Alloc", "Mem.Objects"}
    ensures gauges["Mem.Alloc"] == funcs(4)
    ensures runs == [StringKey("Mem")]
  {
    var r := new Registry();
    r.SetBatchFunc("Mem.GC.Runs", StringKey("Mem"), OpaqueInit(0), Func(1));
    r.SetBatchFunc("Mem.GC.TotalPauseTime", StringKey("Mem"), OpaqueInit(0), Func(2));
    r.SetBatchFunc("Mem.GC.LastPauseTime", StringKey("Mem"), OpaqueInit(0), Func(3));
    r.SetBatchFunc("Mem.Alloc", StringKey("Mem"), OpaqueInit(0), Func(4));
    r.SetBatchFunc("Mem.Objects", StringKey("Mem"), OpaqueInit(0), Func(5));
    assert r.inits.Keys == {StringKey("Mem")};
    assert r.gauges["Mem.Alloc"] == Func(4);
    ghost var evaluated;
    gauges, runs, evaluated := r.Gauges(funcs, hdr);
    SingleEnumeration(runs, StringKey("Mem"));
  }

  /** The only enumeration of a one-element set. */
  lemma SingleEnumeration<T(!new)>(s: seq<T>, x: T)
    requires Enumerates(s, {x})
    ensures s == [x]
  {
    EnumeratesSize(s, {x});
    assert s[0] in {x};
  }

  /** A batch key equal to a histogram's name, registered before the
      histogram, keeps the histogram's merge step out: its quantile gauges
      read 0 in every snapshot. */
  method HistogramKeyShadowed(funcs: nat -> Value, hdr: (string, real) -> Value)
    returns (first: map<string, Value>, second: map<string, Value>)
    ensures forall q: Q :: "heyo" + q.Suffix() in first && first["heyo" + q.Suffix()] == 0.0
    ensures forall q: Q :: "heyo" + q.Suffix() in second && second["heyo" + q.Suffix()] == 0.0
  {
    var r := new Registry();
    r.SetBatchFunc("other", StringKey("heyo"), OpaqueInit(7), Func(7));
    var h := r.NewHistogram("heyo", 1, 1000, 3);
    assert r.inits == map[StringKey("heyo") := OpaqueInit(7)];
    assert MergeHist("heyo") !in r.inits.Values;
    forall q: Q ensures r.gauges["heyo" + q.Suffix()] == Quantile("heyo", q) {
      QuantileGaugeAt("heyo", q);
    }
    ghost var runs, evaluated;
    AfterInitsMerged(r.histograms, r.inits, "heyo");
    first, runs, evaluated := r.Gauges(funcs, hdr);
    assert !r.histograms["heyo"].merged;
    AfterInitsMerged(r.histograms, r.inits, "heyo");
    second, runs, evaluated := r.Gauges(funcs, hdr);
  }
}
