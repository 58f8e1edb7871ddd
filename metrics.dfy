/** An in-process metrics registry: named counters, gauges with lazily
    evaluated values, batch initializers shared by several gauges, and
    windowed histograms whose quantiles are published as six gauges.

    The package-level maps of the Go package become the fields of one
    `Registry` object; every operation is atomic (the mutexes exist only for
    concurrency). Gauge values are reals, caller-supplied functions are
    identified by number, and what the HDR histogram library computes is a
    parameter of the snapshot. */
module Metrics {

  const TWO_64: int := 0x1_0000_0000_0000_0000

  /** Go's `uint64`. */
  newtype uint64 = x: int | 0 <= x < 0x1_0000_0000_0000_0000

  /** Go's `+` on `uint64`: the sum modulo 2^64. */
  function WrapAdd(a: uint64, b: uint64): (r: uint64)
    ensures a as int + b as int < TWO_64 ==> r as int == a as int + b as int
    ensures a as int + b as int >= TWO_64 ==> r as int == a as int + b as int - TWO_64
  {
    ((a as int + b as int) % TWO_64) as uint64
  }

  /** Below 2^64 an addition never lowers a counter: the monotonic growth
      the package documentation promises, on the range where it holds. */
  lemma AddNIncreasing(counters: map<string, uint64>, name: string, delta: uint64)
    requires CounterValue(counters, name) as int + delta as int < TWO_64
    ensures var after := counters[name := WrapAdd(CounterValue(counters, name), delta)];
      CounterValue(after, name) >= CounterValue(counters, name)
      && CounterValue(after, name) as int == CounterValue(counters, name) as int + delta as int
  {
  }

  /** Adding in two steps is adding the wrapped sum once. */
  lemma WrapAddAssociative(a: uint64, b: uint64, c: uint64)
    ensures WrapAdd(WrapAdd(a, b), c) == WrapAdd(a, WrapAdd(b, c))
  {
  }

  /** A gauge value (Go's float64; rounding is not modelled). */
  type Value = real

  /** The six quantiles every histogram publishes. */
  datatype Q = P50 | P75 | P90 | P95 | P99 | P999 {
    /** The argument given to valueAt, in percent: from the median up to
        the 99.9th percentile. */
    function Percent(): (p: real)
      ensures 50.0 <= p <= 99.9
    {
      match this
      case P50 => 50.0
      case P75 => 75.0
      case P90 => 90.0
      case P95 => 95.0
      case P99 => 99.0
      case P999 => 99.9
    }

    /** What is appended to the histogram's name to name the gauge: ".P"
        and the percentile's digits. */
    function Suffix(): (s: string)
      ensures 4 <= |s| <= 5 && s[..2] == ".P"
    {
      match this
      case P50 => ".P50"
      case P75 => ".P75"
      case P90 => ".P90"
      case P95 => ".P95"
      case P99 => ".P99"
      case P999 => ".P999"
    }
  }

  /** A batch key. Go accepts any comparable value; a string key
      equals every other key holding the same string. */
  datatype Key = StringKey(s: string) | OpaqueKey(id: nat)

  /** A gauge's evaluator: a captured constant, a caller-supplied function,
      or the valueAt(q) closure of a histogram. */
  datatype Evaluator = Const(v: Value) | Func(id: nat) | Quantile(hist: string, q: Q)

  /** A batch initializer: a histogram's merge step or a caller-supplied one. */
  datatype Init = MergeHist(hist: string) | OpaqueInit(id: nat)

  /** What the registry keeps of a windowed histogram: its configuration
      and whether a merged snapshot exists (the field `m` is non-nil). */
  datatype HistState = HistState(slices: nat, minValue: int, maxValue: int, sigfigs: int, merged: bool)

  /** Number of window slices every histogram is created with. */
  const WINDOW_SLICES: nat := 5

  /** What NewHistogram does: return a handle, or panic on a duplicate. */
  datatype NewHistogramResult = Created(name: string) | Panic(message: string)

  /** An observable step of a gauge snapshot. */
  datatype Event = RanInit(key: Key) | Evaluated(gauge: string)

  /** Value of a counter; a missing one reads as zero, as a Go map does. */
  function CounterValue(counters: map<string, uint64>, name: string): uint64 {
    if name in counters then counters[name] else 0
  }

  /** An evaluator whose histogram, if any, is registered. */
  predicate Live(e: Evaluator, hists: map<string, HistState>) {
    e.Quantile? ==> e.hist in hists
  }

  /** An initializer whose histogram, if any, is registered. */
  predicate LiveInit(i: Init, hists: map<string, HistState>) {
    i.MergeHist? ==> i.hist in hists
  }

  /** The valueAt(q) closure on histogram state `h`: zero until a merged
      snapshot exists, then `quantile`, the value the HDR library reports
      for q on that snapshot. */
  function ValueAt(h: HistState, quantile: Value): Value {
    if h.merged then quantile else 0.0
  }

  /** Calling an evaluator. `funcs(id)` is what caller function `id` returns
      at that moment, `hdr(name, p)` the library's value at percentile p of histogram
      `name`'s merged snapshot. */
  function Eval(e: Evaluator, hists: map<string, HistState>, funcs: nat -> Value, hdr: (string, real) -> Value): Value
    requires Live(e, hists)
  {
    match e
    case Const(v) => v
    case Func(id) => funcs(id)
    case Quantile(h, q) => ValueAt(hists[h], hdr(h, q.Percent()))
  }

  /** Reading a counter after an update: the updated name reads the new
      value, every other name what it read before. */
  lemma CounterReadAfterUpdate(counters: map<string, uint64>, name: string, v: uint64, other: string)
    ensures CounterValue(counters[name := v], other) == if other == name then v else CounterValue(counters, other)
  {
  }

  /** Some initializer among the keys `ran` is the merge step of `h`. */
  ghost predicate MergedBy(h: string, inits: map<Key, Init>, ran: set<Key>) {
    exists k :: k in ran && k in inits && inits[k] == MergeHist(h)
  }

  /** The histograms after the initializers under the keys `ran` have run. */
  ghost function AfterInits(hists: map<string, HistState>, inits: map<Key, Init>, ran: set<Key>): map<string, HistState> {
    map h | h in hists :: hists[h].(merged := hists[h].merged || MergedBy(h, inits, ran))
  }

  /** The six quantiles in the order NewHistogram registers them. */
  const AllQuantiles: seq<Q> := [P50, P75, P90, P95, P99, P999]

  /** A snapshot merges a histogram exactly when its merge step is among
      the registered initializers, and a merged one stays merged. */
  lemma AfterInitsMerged(hists: map<string, HistState>, inits: map<Key, Init>, h: string)
    requires h in hists
    ensures h in AfterInits(hists, inits, inits.Keys)
    ensures AfterInits(hists, inits, inits.Keys)[h].merged <==> hists[h].merged || MergeHist(h) in inits.Values
  {
    if MergeHist(h) in inits.Values {
      var k :| k in inits && inits[k] == MergeHist(h);
      assert MergedBy(h, inits, inits.Keys);
    }
  }

  /** A quantile gauge in a snapshot: after the initializers have run, it
      reads the library's value at its percentile if the histogram was
      merged before or its merge step is registered, and 0 otherwise. */
  lemma QuantileSnapshot(hists: map<string, HistState>, inits: map<Key, Init>, h: string, q: Q,
                         funcs: nat -> Value, hdr: (string, real) -> Value)
    requires h in hists
    ensures h in AfterInits(hists, inits, inits.Keys)
    ensures Eval(Quantile(h, q), AfterInits(hists, inits, inits.Keys), funcs, hdr)
         == if hists[h].merged || MergeHist(h) in inits.Values then hdr(h, q.Percent()) else 0.0
  {
    AfterInitsMerged(hists, inits, h);
  }

  /** The names of the six quantile gauges of histogram `name`. */
  function QuantileNames(name: string): (names: set<string>)
    ensures forall q: Q :: name + q.Suffix() in names
    ensures forall n :: n in names ==> exists q: Q :: n == name + q.Suffix()
  {
    set q | q in AllQuantiles :: name + q.Suffix()
  }

  /** The six quantile gauges of histogram `name`, by name. */
  function QuantileGauges(name: string): (m: map<string, Evaluator>)
    ensures m.Keys == QuantileNames(name)
  {
    map[name + P50.Suffix() := Quantile(name, P50), name + P75.Suffix() := Quantile(name, P75),
        name + P90.Suffix() := Quantile(name, P90), name + P95.Suffix() := Quantile(name, P95),
        name + P99.Suffix() := Quantile(name, P99), name + P999.Suffix() := Quantile(name, P999)]
  }

  /** The gauge named after quantile `q` reads that quantile. */
  lemma QuantileGaugeAt(name: string, q: Q)
    ensures name + q.Suffix() in QuantileGauges(name)
    ensures QuantileGauges(name)[name + q.Suffix()] == Quantile(name, q)
  {
    forall q1: Q, q2: Q | q1 != q2 ensures name + q1.Suffix() != name + q2.Suffix() {
      QuantileNamesDiffer(name, q1, q2);
    }
    SixEntries(name + P50.Suffix(), name + P75.Suffix(), name + P90.Suffix(),
               name + P95.Suffix(), name + P99.Suffix(), name + P999.Suffix(),
               Quantile(name, P50), Quantile(name, P75), Quantile(name, P90),
               Quantile(name, P95), Quantile(name, P99), Quantile(name, P999));
  }

  /** A map display with six distinct keys maps each to its own value. */
  lemma SixEntries<K, V>(k1: K, k2: K, k3: K, k4: K, k5: K, k6: K, v1: V, v2: V, v3: V, v4: V, v5: V, v6: V)
    requires k1 != k2 && k1 != k3 && k1 != k4 && k1 != k5 && k1 != k6
    requires k2 != k3 && k2 != k4 && k2 != k5 && k2 != k6
    requires k3 != k4 && k3 != k5 && k3 != k6
    requires k4 != k5 && k4 != k6 && k5 != k6
    ensures var m := map[k1 := v1, k2 := v2, k3 := v3, k4 := v4, k5 := v5, k6 := v6];
      m[k1] == v1 && m[k2] == v2 && m[k3] == v3 && m[k4] == v4 && m[k5] == v5 && m[k6] == v6
  {
  }

  /** Six updates under six distinct keys add the six entries. */
  lemma SixUpdates<K, V>(g: map<K, V>, k1: K, k2: K, k3: K, k4: K, k5: K, k6: K,
                         v1: V, v2: V, v3: V, v4: V, v5: V, v6: V)
    requires k1 != k2 && k1 != k3 && k1 != k4 && k1 != k5 && k1 != k6
    requires k2 != k3 && k2 != k4 && k2 != k5 && k2 != k6
    requires k3 != k4 && k3 != k5 && k3 != k6
    requires k4 != k5 && k4 != k6 && k5 != k6
    ensures g[k1 := v1][k2 := v2][k3 := v3][k4 := v4][k5 := v5][k6 := v6]
         == g + map[k1 := v1, k2 := v2, k3 := v3, k4 := v4, k5 := v5, k6 := v6]
  {
  }

  /** Installing the six quantile gauges one by one, as NewHistogram does,
      adds QuantileGauges(name). */
  lemma QuantileGaugeUpdates(g: map<string, Evaluator>, name: string)
    ensures g[name + P50.Suffix() := Quantile(name, P50)][name + P75.Suffix() := Quantile(name, P75)]
             [name + P90.Suffix() := Quantile(name, P90)][name + P95.Suffix() := Quantile(name, P95)]
             [name + P99.Suffix() := Quantile(name, P99)][name + P999.Suffix() := Quantile(name, P999)]
            == g + QuantileGauges(name)
  {
    forall q1: Q, q2: Q | q1 != q2 ensures name + q1.Suffix() != name + q2.Suffix() {
      QuantileNamesDiffer(name, q1, q2);
    }
    SixUpdates(g, name + P50.Suffix(), name + P75.Suffix(), name + P90.Suffix(),
               name + P95.Suffix(), name + P99.Suffix(), name + P999.Suffix(),
               Quantile(name, P50), Quantile(name, P75), Quantile(name, P90),
               Quantile(name, P95), Quantile(name, P99), Quantile(name, P999));
  }

  /** After ".P" a suffix holds only the percentile's digits. */
  lemma SuffixDigits(q: Q)
    ensures forall i | 2 <= i < |q.Suffix()| :: '0' <= q.Suffix()[i] <= '9'
  {
  }

  /** Different quantiles give different gauge names. */
  lemma QuantileNamesDiffer(name: string, q1: Q, q2: Q)
    requires q1 != q2
    ensures name + q1.Suffix() != name + q2.Suffix()
  {
    if name + q1.Suffix() == name + q2.Suffix() {
      QuantileNameInjective(name, q1, q2);
    }
  }

  /** No two quantiles share a gauge-name suffix. */
  lemma SuffixInjective(q1: Q, q2: Q)
    requires q1.Suffix() == q2.Suffix()
    ensures q1 == q2
  {
    var s1, s2 := q1.Suffix(), q2.Suffix();
    assert |s1| == |s2|;
    if |s1| == 4 {
      assert s1[2] == s2[2] && s1[3] == s2[3];
    }
  }

  /** The same gauge name means the same quantile. */
  lemma QuantileNameInjective(name: string, q1: Q, q2: Q)
    requires name + q1.Suffix() == name + q2.Suffix()
    ensures q1 == q2
  {
    assert (name + q1.Suffix())[|name|..] == q1.Suffix();
    assert (name + q2.Suffix())[|name|..] == q2.Suffix();
    SuffixInjective(q1, q2);
  }

  /** A histogram always adds exactly six gauge names. */
  lemma QuantileNamesSize(name: string)
    ensures |QuantileNames(name)| == 6
  {
    var ns := seq(6, i requires 0 <= i < 6 => name + AllQuantiles[i].Suffix());
    forall i, j | 0 <= i < j < 6 ensures ns[i] != ns[j] {
      if ns[i] == ns[j] {
        QuantileNameInjective(name, AllQuantiles[i], AllQuantiles[j]);
      }
    }
    forall x | x in QuantileNames(name) ensures x in ns {
      var q :| q in AllQuantiles && x == name + q.Suffix();
      var i :| 0 <= i < 6 && AllQuantiles[i] == q;
      assert ns[i] == x;
    }
    assert Enumerates(ns, QuantileNames(name));
    EnumeratesSize(ns, QuantileNames(name));
  }

  /** `s` lists every element of `xs` once, and nothing else. */
  ghost predicate Enumerates<T(!new)>(s: seq<T>, xs: set<T>) {
    && (forall i, j :: 0 <= i < j < |s| ==> s[i] != s[j])
    && (forall x :: x in xs <==> x in s)
  }

  /** How often `x` occurs in `s`. */
  ghost function Count<T>(s: seq<T>, x: T): nat {
    if s == [] then 0 else Count(s[..|s| - 1], x) + (if s[|s| - 1] == x then 1 else 0)
  }

  /** An enumeration holds each element of the set exactly once. */
  lemma {:induction false} EnumeratesOnce<T(!new)>(s: seq<T>, xs: set<T>, x: T)
    requires Enumerates(s, xs)
    ensures Count(s, x) == if x in xs then 1 else 0
  {
    if s != [] {
      var last, init := s[|s| - 1], s[..|s| - 1];
      assert s == init + [last];
      assert Enumerates(init, xs - {last});
      EnumeratesOnce(init, xs - {last}, x);
      if x == last {
        assert x !in init;
      }
    }
  }

  /** An enumeration is as long as the set is large. */
  lemma {:induction false} EnumeratesSize<T(!new)>(s: seq<T>, xs: set<T>)
    requires Enumerates(s, xs)
    ensures |s| == |xs|
  {
    if s != [] {
      var last, init := s[|s| - 1], s[..|s| - 1];
      assert s == init + [last];
      assert Enumerates(init, xs - {last});
      EnumeratesSize(init, xs - {last});
    }
  }

  /** The events of running the initializers under `keys`, in order. */
  ghost function InitEvents(keys: seq<Key>): seq<Event> {
    seq(|keys|, i requires 0 <= i < |keys| => RanInit(keys[i]))
  }

  /** The events of evaluating the gauges `names`, in order. */
  ghost function EvalEvents(names: seq<string>): seq<Event> {
    seq(|names|, i requires 0 <= i < |names| => Evaluated(names[i]))
  }

  /** The registry: the four package-level maps of the Go package. */
  class Registry {
    var counters: map<string, uint64>
    var gauges: map<string, Evaluator>
    var inits: map<Key, Init>
    var histograms: map<string, HistState>
    /** Every initializer run and gauge evaluation of every snapshot, in order. */
    ghost var log: seq<Event>

    /** Every histogram a gauge or an initializer refers to is registered:
        Go's closures hold pointers to live histograms. */
    ghost predicate Valid()
      reads this`gauges, this`inits, this`histograms
    {
      && (forall n :: n in gauges ==> Live(gauges[n], histograms))
      && (forall k :: k in inits ==> LiveInit(inits[k], histograms))
    }

    /** The maps as the package is loaded: all empty. */
    constructor ()
      ensures Valid()
      ensures counters == map[] && gauges == map[] && inits == map[] && histograms == map[]
      ensures log == []
    {
      counters, gauges, inits, histograms := map[], map[], map[], map[];
      log := [];
    }

    /** Counter.Add: increment by one. */
    method Add(name: string)
      requires Valid()
      modifies this`counters
      ensures Valid()
      ensures counters == old(counters)[name := WrapAdd(CounterValue(old(counters), name), 1)]
    {
      AddN(name, 1);
    }

    /** Counter.AddN: add `delta` to the counter, starting from zero for an
        unknown name and wrapping around at 2^64. */
    method AddN(name: string, delta: uint64)
      requires Valid()
      modifies this`counters
      ensures Valid()
      ensures counters == old(counters)[name := WrapAdd(CounterValue(old(counters), name), delta)]
      ensures counters[name] as int == (CounterValue(old(counters), name) as int + delta as int) % TWO_64
    {
      counters := counters[name := WrapAdd(CounterValue(counters, name), delta)];
    }

    /** Gauge.Set: the gauge returns `value` from now on. */
    method Set(name: string, value: Value)
      requires Valid()
      modifies this`gauges
      ensures Valid()
      ensures gauges == old(gauges)[name := Const(value)]
    {
      gauges := gauges[name := Const(value)];
    }

    /** Gauge.SetFunc: the gauge is evaluated by `f` from now on. */
    method SetFunc(name: string, f: Evaluator)
      requires Valid() && Live(f, histograms)
      modifies this`gauges
      ensures Valid()
      ensures gauges == old(gauges)[name := f]
    {
      gauges := gauges[name := f];
    }

    /** Gauge.SetBatchFunc: the gauge is evaluated by `f`, and `init` becomes
        the batch initializer for `key` unless one is registered already. */
    method SetBatchFunc(name: string, key: Key, init: Init, f: Evaluator)
      requires Valid() && Live(f, histograms) && LiveInit(init, histograms)
      modifies this`gauges, this`inits
      ensures Valid()
      ensures gauges == old(gauges)[name := f]
      ensures key in old(inits) ==> inits == old(inits)
      ensures key !in old(inits) ==> inits == old(inits)[key := init]
    {
      gauges := gauges[name := f];
      if key !in inits {
        inits := inits[key := init];
      }
    }

    /** Reset: remove every counter, gauge, histogram and initializer. */
    method Reset()
      modifies this`counters, this`gauges, this`histograms, this`inits
      ensures Valid()
      ensures counters == map[] && gauges == map[] && histograms == map[] && inits == map[]
    {
      counters := map[];
      gauges := map[];
      histograms := map[];
      inits := map[];
    }

    /** Counters: a copy of every counter's current value. */
    method Counters() returns (c: map<string, uint64>)
      ensures c == counters
    {
      c := map[];
      var rest := counters.Keys;
      while rest != {}
        invariant rest <= counters.Keys
        invariant c.Keys == counters.Keys - rest
        invariant forall n :: n in c ==> c[n] == counters[n]
        decreases rest
      {
        var n :| n in rest;
        c := c[n := counters[n]];
        rest := rest - {n};
      }
    }

    /** Histogram.merge: the histogram now has a merged snapshot. */
    method Merge(name: string)
      requires Valid() && name in histograms
      modifies this`histograms
      ensures Valid()
      ensures histograms == old(histograms)[name := old(histograms)[name].(merged := true)]
    {
      histograms := histograms[name := histograms[name].(merged := true)];
    }

    /** Gauges: run every registered initializer once, then evaluate every
        gauge. `runs` and `evaluated` are the orders the map iterations
        happened to take. */
    method Gauges(funcs: nat -> Value, hdr: (string, real) -> Value)
      returns (g: map<string, Value>, ghost runs: seq<Key>, ghost evaluated: seq<string>)
      requires Valid()
      modifies this`histograms, this`log
      ensures Valid()
      ensures Enumerates(runs, inits.Keys) && Enumerates(evaluated, gauges.Keys)
      ensures log == old(log) + InitEvents(runs) + EvalEvents(evaluated)
      ensures histograms == AfterInits(old(histograms), inits, inits.Keys)
      ensures g.Keys == gauges.Keys
      ensures forall n :: n in g ==> g[n] == Eval(gauges[n], histograms, funcs, hdr)
      ensures forall n :: n in g && gauges[n].Quantile? ==>
                (!old(histograms)[gauges[n].hist].merged && MergeHist(gauges[n].hist) !in inits.Values ==> g[n] == 0.0)
    {
      runs := RunInitializers();
      g, evaluated := EvaluateGauges(funcs, hdr);
    }

    /** The first loop of Gauges: call every registered initializer. */
    method RunInitializers() returns (ghost runs: seq<Key>)
      requires Valid()
      modifies this`histograms, this`log
      ensures Valid()
      ensures Enumerates(runs, inits.Keys)
      ensures log == old(log) + InitEvents(runs)
      ensures histograms == AfterInits(old(histograms), inits, inits.Keys)
    {
      var pending := inits.Keys;
      runs := [];
      while pending != {}
        invariant pending <= inits.Keys && Valid()
        invariant Enumerates(runs, inits.Keys - pending)
        invariant histograms == AfterInits(old(histograms), inits, inits.Keys - pending)
        invariant log == old(log) + InitEvents(runs)
        decreases pending
      {
        var k :| k in pending;
        ghost var before := histograms;
        match inits[k] {
          case MergeHist(h) => Merge(h);
          case OpaqueInit(_) =>
        }
        ShowAfterInit(old(histograms), inits, inits.Keys - pending, k, before, histograms);
        log := log + [RanInit(k)];
        assert InitEvents(runs + [k]) == InitEvents(runs) + [RanInit(k)];
        runs := runs + [k];
        pending := pending - {k};
      }
    }

    /** The second loop of Gauges: evaluate every gauge into a new map. */
    method EvaluateGauges(funcs: nat -> Value, hdr: (string, real) -> Value)
      returns (g: map<string, Value>, ghost evaluated: seq<string>)
      requires Valid()
      modifies this`log
      ensures Enumerates(evaluated, gauges.Keys)
      ensures log == old(log) + EvalEvents(evaluated)
      ensures g.Keys == gauges.Keys
      ensures forall n :: n in g ==> g[n] == Eval(gauges[n], histograms, funcs, hdr)
    {
      g := map[];
      var rest := gauges.Keys;
      evaluated := [];
      while rest != {}
        invariant rest <= gauges.Keys
        invariant g.Keys == gauges.Keys - rest
        invariant forall n :: n in g ==> g[n] == Eval(gauges[n], histograms, funcs, hdr)
        invariant Enumerates(evaluated, gauges.Keys - rest)
        invariant log == old(log) + EvalEvents(evaluated)
        decreases rest
      {
        var n :| n in rest;
        g := g[n := Eval(gauges[n], histograms, funcs, hdr)];
        log := log + [Evaluated(n)];
        assert EvalEvents(evaluated + [n]) == EvalEvents(evaluated) + [Evaluated(n)];
        evaluated := evaluated + [n];
        rest := rest - {n};
      }
    }

    /** Running the initializer under `k` takes the histograms from those
        after the keys `ran` to those after `ran + {k}`. */
    static lemma ShowAfterInit(hists: map<string, HistState>, inits: map<Key, Init>, ran: set<Key>, k: Key,
                               before: map<string, HistState>, after: map<string, HistState>)
      requires k in inits && ran <= inits.Keys
      requires before == AfterInits(hists, inits, ran)
      requires inits[k].MergeHist? ==>
        inits[k].hist in before && after == before[inits[k].hist := before[inits[k].hist].(merged := true)]
      requires inits[k].OpaqueInit? ==> after == before
      ensures after == AfterInits(hists, inits, ran + {k})
    {
      var next := AfterInits(hists, inits, ran + {k});
      assert after.Keys == next.Keys;
      forall h | h in after ensures after[h] == next[h] {
        if MergedBy(h, inits, ran + {k}) && !MergedBy(h, inits, ran) {
          assert inits[k] == MergeHist(h);
        }
      }
    }

    /** NewHistogram: register a windowed histogram under a new name and the
        six quantile gauges that read it, all batched under the key `name`
        with the histogram's merge step as initializer; panic if the name is
        taken. */
    method NewHistogram(name: string, minValue: int, maxValue: int, sigfigs: int) returns (res: NewHistogramResult)
      requires Valid()
      modifies this`histograms, this`gauges, this`inits
      ensures Valid()
      ensures name in old(histograms) ==>
        && res == Panic(name + " already exists")
        && histograms == old(histograms) && gauges == old(gauges) && inits == old(inits)
      ensures name !in old(histograms) ==>
        && res == Created(name)
        && histograms == old(histograms)[name := HistState(WINDOW_SLICES, minValue, maxValue, sigfigs, false)]
        && gauges == old(gauges) + QuantileGauges(name)
        && gauges.Keys == old(gauges).Keys + QuantileNames(name)
        && inits == if StringKey(name) in old(inits) then old(inits)
                    else old(inits)[StringKey(name) := MergeHist(name)]
    {
      if name in histograms {
        return Panic(name + " already exists");
      }
      histograms := histograms[name := HistState(WINDOW_SLICES, minValue, maxValue, sigfigs, false)];
      ghost var g0 := gauges;
      SetBatchFunc(name + P50.Suffix(), StringKey(name), MergeHist(name), Quantile(name, P50));
      SetBatchFunc(name + P75.Suffix(), StringKey(name), MergeHist(name), Quantile(name, P75));
      SetBatchFunc(name + P90.Suffix(), StringKey(name), MergeHist(name), Quantile(name, P90));
      SetBatchFunc(name + P95.Suffix(), StringKey(name), MergeHist(name), Quantile(name, P95));
      SetBatchFunc(name + P99.Suffix(), StringKey(name), MergeHist(name), Quantile(name, P99));
      SetBatchFunc(name + P999.Suffix(), StringKey(name), MergeHist(name), Quantile(name, P999));
      QuantileGaugeUpdates(g0, name);
      res := Created(name);
    }
  }
}
