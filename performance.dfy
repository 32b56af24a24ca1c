/** Per-provider aggregation (`analyze_model_performance`): the results are grouped
    by provider id, and each group yields its success rate, test count, total cost
    and mean latency. */
module Performance {
  import opened Records
  import opened Seqs

  /** The results of provider `p`, in input order. */
  function Group(rs: seq<TestResult>, p: string): (g: seq<TestResult>)
    ensures |g| <= |rs|
    ensures forall i :: 0 <= i < |g| ==> g[i].provider == p
    ensures |g| > 0 <==> p in ProviderIds(rs)
  {
    if rs == [] then []
    else
      var front := Group(rs[..|rs| - 1], p);
      assert ProviderIds(rs) == ProviderIds(rs[..|rs| - 1]) + [rs[|rs| - 1].provider];
      if rs[|rs| - 1].provider == p then front + [rs[|rs| - 1]] else front
  }

  /** The distinct provider ids, in order of first appearance. */
  function Providers(rs: seq<TestResult>): (ps: seq<string>)
    ensures NoDup(ps)
    ensures forall p :: p in ps <==> p in ProviderIds(rs)
  {
    Distinct(ProviderIds(rs))
  }

  /** The latencies of a group, in input order. */
  function Latencies(g: seq<TestResult>): (ls: seq<real>)
    ensures |ls| == |g|
    ensures forall i :: 0 <= i < |g| ==> ls[i] == g[i].latencyMs
  {
    if g == [] then [] else Latencies(g[..|g| - 1]) + [g[|g| - 1].latencyMs]
  }

  /** The per-provider accumulator of the aggregation loop. */
  datatype Acc = Acc(successes: nat, total: nat, cost: real, latency: seq<real>)

  /** The `defaultdict` factory: the accumulator of a provider that has seen no result. */
  const EmptyAcc := Acc(0, 0, 0.0, [])

  /** One iteration of the aggregation loop for a result of this provider. */
  function Step(a: Acc, r: TestResult): Acc
  {
    Acc(a.successes + (if r.success then 1 else 0), a.total + 1, a.cost + CostOf(r), a.latency + [r.latencyMs])
  }

  /** What the accumulator holds after it has seen exactly the results in `g`. */
  function AccOf(g: seq<TestResult>): (a: Acc)
    ensures a.total == |a.latency| == |g|
    ensures a.successes <= a.total
  {
    Acc(CountSuccesses(g), |g|, TotalCost(g), Latencies(g))
  }

  /** The factory's accumulator is the one of a provider with no results yet. */
  lemma EmptyAccOf()
    ensures EmptyAcc == AccOf([])
  {
  }

  /** One provider's figures. The success rate and the mean latency are the
      quotients `SuccessRate()` and `AvgLatency()` of the stored counts and sums. */
  datatype ModelPerformance = ModelPerformance(successes: nat, totalTests: nat, totalCost: real, latencySum: real)
  {
    /** `successes / total * 100` */
    function SuccessRate(): real
      requires totalTests > 0
    {
      (successes as real) / (totalTests as real) * 100.0
    }

    /** `sum(latency) / len(latency)` */
    function AvgLatency(): real
      requires totalTests > 0
    {
      latencySum / (totalTests as real)
    }
  }

  /** The per-provider figures computed from a full accumulator. */
  function Finish(a: Acc): (m: ModelPerformance)
    ensures m.totalTests == a.total && m.successes == a.successes && m.totalCost == a.cost
    ensures m.latencySum == Sum(a.latency)
  {
    ModelPerformance(a.successes, a.total, a.cost, Sum(a.latency))
  }

  /** The rate is a percentage: it lies in [0, 100], and times the test count it
      gives 100 times the number of successes. The mean times the count is the sum. */
  lemma RateFacts(m: ModelPerformance)
    requires 0 < m.totalTests && m.successes <= m.totalTests
    ensures 0.0 <= m.SuccessRate() <= 100.0
    ensures m.SuccessRate() * (m.totalTests as real) == 100.0 * (m.successes as real)
    ensures m.AvgLatency() * (m.totalTests as real) == m.latencySum
  {
    var t, s := m.totalTests as real, m.successes as real;
    assert s / t <= 1.0;
    assert (s / t * 100.0) * t == 100.0 * s;
  }

  /** A dict: its keys in insertion order and its entries. */
  datatype Table<V> = Table(keys: seq<string>, entries: map<string, V>)

  predicate WellFormed<V>(t: Table<V>)
  {
    NoDup(t.keys) && t.entries.Keys == set k | k in t.keys
  }

  /** The dict `analyze_model_performance` returns. */
  function ModelPerformanceOf(rs: seq<TestResult>): (t: Table<ModelPerformance>)
    ensures WellFormed(t) && t.keys == Providers(rs)
    ensures forall p :: p in t.entries ==> t.entries[p].totalTests == |Group(rs, p)| >= 1
    ensures forall p :: p in t.entries ==> t.entries[p].successes <= t.entries[p].totalTests
  {
    var ps := Providers(rs);
    Table(ps, map p | p in ps :: Finish(AccOf(Group(rs, p))))
  }

  // ----- one more result, stated on the specification -----

  lemma GroupSnoc(rs: seq<TestResult>, r: TestResult, p: string)
    ensures Group(rs + [r], p) == if r.provider == p then Group(rs, p) + [r] else Group(rs, p)
  {
    assert (rs + [r])[..|rs|] == rs;
  }

  lemma AccSnoc(g: seq<TestResult>, r: TestResult)
    ensures AccOf(g + [r]) == Step(AccOf(g), r)
  {
    assert (g + [r])[..|g|] == g;
  }

  lemma ProvidersLast(rs: seq<TestResult>)
    requires rs != []
    ensures var front, p := rs[..|rs| - 1], rs[|rs| - 1].provider;
      Providers(rs) == if p in Providers(front) then Providers(front) else Providers(front) + [p]
  {
    var ids := ProviderIds(rs);
    assert ids[..|ids| - 1] == ProviderIds(rs[..|rs| - 1]);
  }

  lemma ProvidersSnoc(rs: seq<TestResult>, r: TestResult)
    ensures Providers(rs + [r]) ==
      if r.provider in Providers(rs) then Providers(rs) else Providers(rs) + [r.provider]
  {
    ProvidersLast(rs + [r]);
    assert (rs + [r])[..|rs|] == rs;
  }

  /** The accumulator of provider `q` after one more result. */
  lemma AccOfSnoc(rs: seq<TestResult>, r: TestResult, q: string)
    ensures AccOf(Group(rs + [r], q)) ==
      if q != r.provider then AccOf(Group(rs, q))
      else Step(if q in Providers(rs) then AccOf(Group(rs, q)) else EmptyAcc, r)
  {
    GroupSnoc(rs, r, q);
    if q == r.provider {
      AccSnoc(Group(rs, q), r);
    }
  }

  /** `acc` holds one accumulator per provider of `rs`, the one of its results. */
  ghost predicate Tracks(rs: seq<TestResult>, acc: map<string, Acc>)
  {
    && (forall q :: q in acc <==> q in Providers(rs))
    && (forall q :: q in acc ==> acc[q] == AccOf(Group(rs, q)))
  }

  /** The loop body of `analyze_model_performance`: the defaultdict supplies an empty
      accumulator for a new provider, and the result updates its provider's
      accumulator only. */
  lemma TracksSnoc(rs: seq<TestResult>, r: TestResult, acc: map<string, Acc>)
    requires Tracks(rs, acc)
    ensures var p := r.provider;
      Tracks(rs + [r], acc[p := Step(if p in acc then acc[p] else EmptyAcc, r)])
  {
    var p := r.provider;
    var acc' := acc[p := Step(if p in acc then acc[p] else EmptyAcc, r)];
    TracksKeys(rs, r, acc, acc');
    TracksValues(rs, r, acc, acc');
  }

  lemma TracksKeys(rs: seq<TestResult>, r: TestResult, acc: map<string, Acc>, acc': map<string, Acc>)
    requires forall q :: q in acc <==> q in Providers(rs)
    requires forall q :: q in acc' <==> q in acc || q == r.provider
    ensures forall q :: q in acc' <==> q in Providers(rs + [r])
  {
    ProvidersSnoc(rs, r);
  }

  lemma TracksValues(rs: seq<TestResult>, r: TestResult, acc: map<string, Acc>, acc': map<string, Acc>)
    requires Tracks(rs, acc)
    requires var p := r.provider; acc' == acc[p := Step(if p in acc then acc[p] else EmptyAcc, r)]
    ensures forall q :: q in acc' ==> acc'[q] == AccOf(Group(rs + [r], q))
  {
    forall q | q in acc'
      ensures acc'[q] == AccOf(Group(rs + [r], q))
    {
      AccOfSnoc(rs, r, q);
    }
  }

  /** The dict comprehension that turns the accumulators into figures. */
  function FinishAll(keys: seq<string>, acc: map<string, Acc>): Table<ModelPerformance>
    requires forall k :: k in keys ==> k in acc
  {
    Table(keys, map p | p in keys :: Finish(acc[p]))
  }

  /** Accumulators that track all the results give the dict
      `analyze_model_performance` returns. */
  lemma FinishAllOf(rs: seq<TestResult>, acc: map<string, Acc>)
    requires Tracks(rs, acc)
    ensures forall k :: k in Providers(rs) ==> k in acc
    ensures FinishAll(Providers(rs), acc) == ModelPerformanceOf(rs)
  {
  }

  // ----- sums over the providers -----

  /** Sum of `w` over a group. */
  function Measure(g: seq<TestResult>, w: TestResult -> real): real
  {
    if g == [] then 0.0 else Measure(g[..|g| - 1], w) + w(g[|g| - 1])
  }

  function One(r: TestResult): real { 1.0 }
  function SuccessIndicator(r: TestResult): real { if r.success then 1.0 else 0.0 }
  function Latency(r: TestResult): real { r.latencyMs }

  /** Sum, over the providers `ks`, of the sum of `w` over each provider's group. */
  function MeasureOver(rs: seq<TestResult>, ks: seq<string>, w: TestResult -> real): real
  {
    if ks == [] then 0.0 else MeasureOver(rs, ks[..|ks| - 1], w) + Measure(Group(rs, ks[|ks| - 1]), w)
  }

  lemma MeasureSnoc(g: seq<TestResult>, r: TestResult, w: TestResult -> real)
    ensures Measure(g + [r], w) == Measure(g, w) + w(r)
  {
    assert (g + [r])[..|g|] == g;
  }

  /** Dropping the last result removes its weight from exactly its own provider. */
  lemma {:induction false} MeasureOverLast(rs: seq<TestResult>, ks: seq<string>, w: TestResult -> real)
    requires rs != [] && NoDup(ks)
    ensures var front, r := rs[..|rs| - 1], rs[|rs| - 1];
      MeasureOver(rs, ks, w) == MeasureOver(front, ks, w) + (if r.provider in ks then w(r) else 0.0)
  {
    var front, r := rs[..|rs| - 1], rs[|rs| - 1];
    if ks != [] {
      var ks', k := ks[..|ks| - 1], ks[|ks| - 1];
      assert NoDup(ks');
      assert forall j :: 0 <= j < |ks'| ==> ks'[j] == ks[j];
      assert r.provider in ks <==> r.provider in ks' || r.provider == k;
      MeasureOverLast(rs, ks', w);
      if r.provider == k {
        MeasureSnoc(Group(front, k), r, w);
      }
    }
  }

  /** Grouping by provider partitions the results: summing any per-result quantity
      provider by provider gives the sum over all results. */
  lemma {:induction false} Partition(rs: seq<TestResult>, w: TestResult -> real)
    ensures MeasureOver(rs, Providers(rs), w) == Measure(rs, w)
  {
    if rs != [] {
      var front, r := rs[..|rs| - 1], rs[|rs| - 1];
      var ks := Providers(front);
      Partition(front, w);
      ProvidersLast(rs);
      MeasureOverLast(rs, ks, w);
      if r.provider !in ks {
        assert Group(front, r.provider) == [];
        MeasureSnoc([], r, w);
        var ks2 := ks + [r.provider];
        assert ks2[..|ks2| - 1] == ks;
      }
    }
  }

  /** Sum of one column of the performance table over the keys `ks`. */
  function Column(t: Table<ModelPerformance>, ks: seq<string>, f: ModelPerformance -> real): real
    requires forall k :: k in ks ==> k in t.entries
  {
    if ks == [] then 0.0 else Column(t, ks[..|ks| - 1], f) + f(t.entries[ks[|ks| - 1]])
  }

  lemma {:induction false} ColumnIsMeasure(rs: seq<TestResult>, ks: seq<string>,
                                           f: ModelPerformance -> real, w: TestResult -> real)
    requires forall k :: k in ks ==> k in ModelPerformanceOf(rs).entries
    requires forall k :: k in ks ==> f(ModelPerformanceOf(rs).entries[k]) == Measure(Group(rs, k), w)
    ensures Column(ModelPerformanceOf(rs), ks, f) == MeasureOver(rs, ks, w)
  {
    if ks != [] {
      ColumnIsMeasure(rs, ks[..|ks| - 1], f, w);
    }
  }

  lemma {:induction false} MeasureCount(g: seq<TestResult>)
    ensures Measure(g, One) == |g| as real
  {
    if g != [] { MeasureCount(g[..|g| - 1]); }
  }

  lemma {:induction false} MeasureCost(g: seq<TestResult>)
    ensures Measure(g, CostOf) == TotalCost(g)
  {
    if g != [] { MeasureCost(g[..|g| - 1]); }
  }

  lemma {:induction false} MeasureSuccesses(g: seq<TestResult>)
    ensures Measure(g, SuccessIndicator) == CountSuccesses(g) as real
  {
    if g != [] { MeasureSuccesses(g[..|g| - 1]); }
  }

  lemma {:induction false} MeasureLatency(g: seq<TestResult>)
    ensures Measure(g, Latency) == Sum(Latencies(g))
  {
    if g != [] {
      MeasureLatency(g[..|g| - 1]);
      assert Latencies(g)[..|g| - 1] == Latencies(g[..|g| - 1]);
    }
  }


  function TestsColumn(m: ModelPerformance): real { m.totalTests as real }
  function CostColumn(m: ModelPerformance): real { m.totalCost }
  function SuccessColumn(m: ModelPerformance): real { m.successes as real }

  // ----- the properties -----

  /** The per-provider test counts add up to the number of results. */
  lemma TotalTestsAddUp(rs: seq<TestResult>)
    ensures Column(ModelPerformanceOf(rs), Providers(rs), TestsColumn) == |rs| as real
  {
    forall k | k in Providers(rs)
      ensures ModelPerformanceOf(rs).entries[k].totalTests as real == Measure(Group(rs, k), One)
    {
      MeasureCount(Group(rs, k));
    }
    ColumnIsMeasure(rs, Providers(rs), TestsColumn, One);
    Partition(rs, One);
    MeasureCount(rs);
  }

  /** The per-provider total costs add up to the cost of all results. */
  lemma TotalCostsAddUp(rs: seq<TestResult>)
    ensures Column(ModelPerformanceOf(rs), Providers(rs), CostColumn) == TotalCost(rs)
  {
    forall k | k in Providers(rs)
      ensures ModelPerformanceOf(rs).entries[k].totalCost == Measure(Group(rs, k), CostOf)
    {
      MeasureCost(Group(rs, k));
    }
    ColumnIsMeasure(rs, Providers(rs), CostColumn, CostOf);
    Partition(rs, CostOf);
    MeasureCost(rs);
  }

  /** The per-provider success counts add up to the number of successful results. */
  lemma SuccessesAddUp(rs: seq<TestResult>)
    ensures Column(ModelPerformanceOf(rs), Providers(rs), SuccessColumn) == CountSuccesses(rs) as real
  {
    forall k | k in Providers(rs)
      ensures ModelPerformanceOf(rs).entries[k].successes as real == Measure(Group(rs, k), SuccessIndicator)
    {
      MeasureSuccesses(Group(rs, k));
    }
    ColumnIsMeasure(rs, Providers(rs), SuccessColumn, SuccessIndicator);
    Partition(rs, SuccessIndicator);
    MeasureSuccesses(rs);
  }

  /** The dict's keys come in the order in which the providers first appear among
      the results. */
  lemma ProvidersOrder(rs: seq<TestResult>, i: nat, j: nat)
    requires i < j < |Providers(rs)|
    ensures var ps, ids := Providers(rs), ProviderIds(rs);
      ps[i] in ids && ps[j] in ids && IndexOf(ids, ps[i]) < IndexOf(ids, ps[j])
  {
    DistinctFirstAppearance(ProviderIds(rs), i, j);
  }

  /** Each success rate lies in [0, 100]. */
  lemma SuccessRateBounds(rs: seq<TestResult>, p: string)
    requires p in Providers(rs)
    ensures 0.0 <= ModelPerformanceOf(rs).entries[p].SuccessRate() <= 100.0
  {
    RateFacts(ModelPerformanceOf(rs).entries[p]);
  }

  /** A provider's entry holds the count of its successful results, the sum of its
      results' costs (a missing cost counting 0) and the sum of its latencies, which
      `AvgLatency()` divides by the test count (see RateFacts). */
  lemma ProviderFigures(rs: seq<TestResult>, p: string)
    requires p in Providers(rs)
    ensures ModelPerformanceOf(rs).entries[p].successes as real == Measure(Group(rs, p), SuccessIndicator)
    ensures ModelPerformanceOf(rs).entries[p].totalCost == Measure(Group(rs, p), CostOf)
    ensures ModelPerformanceOf(rs).entries[p].latencySum == Measure(Group(rs, p), Latency)
  {
    var g := Group(rs, p);
    MeasureSuccesses(g);
    MeasureLatency(g);
    MeasureCost(g);
  }
}
