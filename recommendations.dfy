/** The three recommendation rules of `generate_recommendations`, applied in this
    order: the overall success rate from the summary counters, the spread of cost per
    successful test between providers, and the failure patterns that touch every
    provider. */
module Recommendations {
  import opened Records
  import opened Seqs
  import opened Performance
  import opened Patterns

  // ----- float values with infinity -----

  /** A cost per success: a finite quotient, or `float('inf')` for a provider
      without successes. */
  datatype Ext = Finite(v: real) | Inf

  /** Python's `<` on floats, with `inf` above every finite value. */
  predicate Less(a: Ext, b: Ext)
  {
    match a
    case Inf => false
    case Finite(x) => b.Inf? || x < b.v
  }

  /** `x * 2`, with `inf * 2 == inf`. */
  function Twice(a: Ext): (d: Ext)
    ensures d.Inf? <==> a.Inf?
    ensures a.Finite? ==> d.v == 2.0 * a.v
  {
    match a
    case Inf => Inf
    case Finite(x) => Finite(2.0 * x)
  }

  lemma LessTrans(a: Ext, b: Ext, c: Ext)
    requires !Less(b, a) && Less(b, c)
    ensures Less(a, c)
  {
  }

  lemma LessTrans2(a: Ext, b: Ext, c: Ext)
    requires Less(a, b) && !Less(c, b)
    ensures Less(a, c)
  {
  }

  lemma TwiceMonotone(a: Ext, b: Ext)
    requires !Less(b, a)
    ensures !Less(Twice(b), Twice(a))
  {
  }

  // ----- the success-rate rule -----

  datatype Category = SuccessRate | CostOptimization | ErrorPattern
  datatype Severity = High | Medium

  /** The `category` strings. */
  function CategoryName(c: Category): string
  {
    match c
    case SuccessRate => "Success Rate"
    case CostOptimization => "Cost Optimization"
    case ErrorPattern => "Error Pattern"
  }

  /** The `severity` strings. */
  function SeverityName(s: Severity): string
  {
    match s
    case High => "High"
    case Medium => "Medium"
  }

  /** A recommendation, by the rule that issued it and the names it mentions; the
      dict's fields are the functions below. */
  datatype Recommendation =
    | LowSuccessRate
    | CostSpread(least: string, most: string)
    | SystematicError(error: string)

  function CategoryOf(r: Recommendation): Category
  {
    match r
    case LowSuccessRate => SuccessRate
    case CostSpread(_, _) => CostOptimization
    case SystematicError(_) => ErrorPattern
  }

  function SeverityOf(r: Recommendation): Severity
  {
    if r.CostSpread? then Medium else High
  }

  function Finding(r: Recommendation): string
  {
    match r
    case LowSuccessRate => "Overall success rate is below 50%"
    case CostSpread(least, _) => least + " is significantly more expensive per successful test"
    case SystematicError(e) => "Systematic error across all models: " + e
  }

  function Impact(r: Recommendation): string
  {
    match r
    case LowSuccessRate => "Low reliability of prompt responses across all models"
    case CostSpread(_, _) => "Higher operational costs without proportional quality improvement"
    case SystematicError(_) => "Consistent failure pattern affecting all providers"
  }

  /** The `actions` list of a recommendation, which always has three entries. */
  datatype ActionList = ActionList(first: string, second: string, third: string)

  /** The three recommended actions of each rule. */
  function Actions(r: Recommendation): ActionList
  {
    match r
    case LowSuccessRate =>
      ActionList("Review and refine test assertions for potential over-strictness",
        "Analyze successful cases to identify patterns that work",
        "Consider implementing prompt templates for consistent output formatting")
    case CostSpread(least, most) =>
      ActionList("Consider reducing usage of " + least + " for cost optimization",
        "Investigate what makes " + most + " more cost-effective",
        "Implement cost monitoring and alerting")
    case SystematicError(_) =>
      ActionList("Review and revise prompt structure for affected test cases",
        "Verify test assertions match expected model capabilities",
        "Consider implementing pre-processing for consistent input formatting")
  }

  /** The dict `generate_recommendations` appends: `category`, `severity`,
      `finding`, `impact` and `actions`. */
  datatype Entry = Entry(category: string, severity: string, finding: string, impact: string, actions: ActionList)

  function EntryOf(r: Recommendation): Entry
  {
    Entry(CategoryName(CategoryOf(r)), SeverityName(SeverityOf(r)), Finding(r), Impact(r), Actions(r))
  }

  /** The dicts of a list of recommendations, in the same order. */
  function Entries(recs: seq<Recommendation>): seq<Entry>
  {
    seq(|recs|, k requires 0 <= k < |recs| => EntryOf(recs[k]))
  }

  /** `successes / (successes + failures) < 0.5`; the division fails on two zero
      counters, which the precondition excludes. */
  predicate BelowHalf(stats: Stats)
    requires stats.successes + stats.failures > 0
  {
    (stats.successes as real) / ((stats.successes + stats.failures) as real) < 0.5
  }

  /** The rule fires exactly when there are fewer successes than failures. */
  lemma BelowHalfIff(stats: Stats)
    requires stats.successes + stats.failures > 0
    ensures BelowHalf(stats) <==> stats.successes < stats.failures
  {
    var s, n := stats.successes as real, (stats.successes + stats.failures) as real;
    QuotientBelow(s, n, 0.5);
  }

  /** For a positive `n`, `s / n < c` exactly when `s < c * n`. */
  lemma QuotientBelow(s: real, n: real, c: real)
    requires n > 0.0
    ensures s / n < c <==> s < c * n
  {
    var q := s / n;
    assert q * n == s;
    if q < c {
      assert (c - q) * n > 0.0;
    } else {
      assert (q - c) * n >= 0.0;
    }
  }

  function RateRecommendations(stats: Stats): (recs: seq<Recommendation>)
    requires stats.successes + stats.failures > 0
    ensures |recs| <= 1
  {
    if BelowHalf(stats) then [LowSuccessRate] else []
  }

  // ----- the cost rule -----

  /** `model_costs[p] / model_successes[p]`, or `inf` when the provider has no
      success; the cost is that of all of the provider's results. */
  function CostPerSuccess(rs: seq<TestResult>, p: string): (c: Ext)
    ensures c.Inf? <==> CountSuccesses(Group(rs, p)) == 0
  {
    var g := Group(rs, p);
    var s := CountSuccesses(g);
    if s > 0 then Finite(TotalCost(g) / (s as real)) else Inf
  }

  /** The items of `cost_per_success` for the keys `ks`, in the order of `ks`. */
  function CostsOver(rs: seq<TestResult>, ks: seq<string>): (cs: seq<(string, Ext)>)
    ensures |cs| == |ks|
    ensures forall i :: 0 <= i < |ks| ==> cs[i] == (ks[i], CostPerSuccess(rs, ks[i]))
  {
    if ks == [] then [] else CostsOver(rs, ks[..|ks| - 1]) + [(ks[|ks| - 1], CostPerSuccess(rs, ks[|ks| - 1]))]
  }

  /** `cost_per_success.items()`: one item per provider (every result touches
      `model_costs`), in order of first appearance. */
  function CostsPerSuccess(rs: seq<TestResult>): seq<(string, Ext)>
  {
    CostsOver(rs, Providers(rs))
  }

  /** `min(items, key=...)`: the first item of least value. */
  function MinIndex(cs: seq<(string, Ext)>): (m: nat)
    requires cs != []
    ensures m < |cs|
    ensures forall j :: 0 <= j < |cs| ==> !Less(cs[j].1, cs[m].1)
    ensures forall j :: 0 <= j < m ==> Less(cs[m].1, cs[j].1)
  {
    if |cs| == 1 then 0
    else
      var m := MinIndex(cs[..|cs| - 1]);
      if Less(cs[|cs| - 1].1, cs[m].1) then |cs| - 1 else m
  }

  /** `max(items, key=...)`: the first item of greatest value. */
  function MaxIndex(cs: seq<(string, Ext)>): (m: nat)
    requires cs != []
    ensures m < |cs|
    ensures forall j :: 0 <= j < |cs| ==> !Less(cs[m].1, cs[j].1)
    ensures forall j :: 0 <= j < m ==> Less(cs[j].1, cs[m].1)
  {
    if |cs| == 1 then 0
    else
      var m := MaxIndex(cs[..|cs| - 1]);
      if Less(cs[m].1, cs[|cs| - 1].1) then |cs| - 1 else m
  }

  lemma CostsOverSnoc(rs: seq<TestResult>, ks: seq<string>, j: nat)
    requires j < |ks|
    ensures CostsOver(rs, ks[..j + 1]) == CostsOver(rs, ks[..j]) + [(ks[j], CostPerSuccess(rs, ks[j]))]
  {
    assert ks[..j + 1][..j] == ks[..j];
  }

  // ----- the two defaultdicts of the cost rule -----

  /** `model_costs` after the results `rs`. */
  ghost predicate TracksModelCosts(rs: seq<TestResult>, costs: map<string, real>)
  {
    ModelCostKeys(rs, costs) && ModelCostValues(rs, costs)
  }

  /** The keys of `model_costs` after the results `rs`: every result touches the
      dict, so these are the providers of `rs`. */
  ghost predicate ModelCostKeys(rs: seq<TestResult>, costs: map<string, real>)
  {
    forall p :: p in costs <==> p in Providers(rs)
  }

  /** The values of `model_costs` after `rs`: each provider's total cost. */
  ghost predicate ModelCostValues(rs: seq<TestResult>, costs: map<string, real>)
  {
    forall p :: p in costs ==> costs[p] == TotalCost(Group(rs, p))
  }

  /** `model_costs[provider] += result.get('cost', 0)` on the current value `c`. */
  function AddCost(c: real, r: TestResult): real
  {
    c + CostOf(r)
  }

  /** `model_successes[p]`, read through the defaultdict. */
  function SuccessCount(successes: map<string, int>, p: string): int
  {
    if p in successes then successes[p] else 0
  }

  /** `model_successes[p] += 1` on the defaultdict. */
  function Increment(successes: map<string, int>, p: string): map<string, int>
  {
    successes[p := SuccessCount(successes, p) + 1]
  }

  /** `model_successes` after `rs`, for the keys `costs` of `model_costs`: it has no
      other keys, and read through the defaultdict it gives each provider's number of
      successful results. */
  ghost predicate ModelSuccessValues(rs: seq<TestResult>, costs: map<string, real>, successes: map<string, int>)
  {
    && (forall p :: p in successes ==> p in costs)
    && (forall p :: p in costs ==> SuccessCount(successes, p) == CountSuccesses(Group(rs, p)))
  }

  lemma TotalCostGroupSnoc(rs: seq<TestResult>, r: TestResult, q: string)
    ensures TotalCost(Group(rs + [r], q)) ==
      if q == r.provider then TotalCost(Group(rs, q)) + CostOf(r) else TotalCost(Group(rs, q))
  {
    GroupSnoc(rs, r, q);
    if q == r.provider {
      var g := Group(rs, q);
      assert (g + [r])[..|g|] == g;
    }
  }

  lemma CountGroupSnoc(rs: seq<TestResult>, r: TestResult, q: string)
    ensures CountSuccesses(Group(rs + [r], q)) ==
      CountSuccesses(Group(rs, q)) + (if q == r.provider && r.success then 1 else 0)
  {
    GroupSnoc(rs, r, q);
    if q == r.provider {
      var g := Group(rs, q);
      assert (g + [r])[..|g|] == g;
    }
  }

  /** The loop body on `model_costs`: `model_costs[provider] += result.get('cost', 0)`. */
  lemma ModelCostsSnoc(rs: seq<TestResult>, r: TestResult, costs: map<string, real>)
    requires TracksModelCosts(rs, costs)
    ensures var p := r.provider;
      TracksModelCosts(rs + [r], costs[p := AddCost(if p in costs then costs[p] else 0.0, r)])
  {
    var p := r.provider;
    var costs' := costs[p := AddCost(if p in costs then costs[p] else 0.0, r)];
    ModelCostKeysSnoc(rs, r, costs, costs');
    ModelCostValuesSnoc(rs, r, costs, costs');
  }

  lemma ModelCostKeysSnoc(rs: seq<TestResult>, r: TestResult, costs: map<string, real>, costs': map<string, real>)
    requires ModelCostKeys(rs, costs)
    requires forall q :: q in costs' <==> q in costs || q == r.provider
    ensures ModelCostKeys(rs + [r], costs')
  {
    ProvidersSnoc(rs, r);
  }

  lemma ModelCostValuesSnoc(rs: seq<TestResult>, r: TestResult, costs: map<string, real>, costs': map<string, real>)
    requires TracksModelCosts(rs, costs)
    requires var p := r.provider; costs' == costs[p := AddCost(if p in costs then costs[p] else 0.0, r)]
    ensures ModelCostValues(rs + [r], costs')
  {
    forall q | q in costs'
      ensures costs'[q] == TotalCost(Group(rs + [r], q))
    {
      TotalCostGroupSnoc(rs, r, q);
      if q !in costs {
        assert Group(rs, q) == [];
      }
    }
  }

  /** The loop body on `model_successes`: `model_successes[provider] += 1` for a
      successful result, while `model_costs` gains the key `provider`. */
  lemma ModelSuccessesSnoc(rs: seq<TestResult>, r: TestResult, costs: map<string, real>,
                           costs': map<string, real>, successes: map<string, int>)
    requires ModelCostKeys(rs, costs) && ModelSuccessValues(rs, costs, successes)
    requires forall q :: q in costs' <==> q in costs || q == r.provider
    ensures var p := r.provider;
      ModelSuccessValues(rs + [r], costs', if r.success then Increment(successes, p) else successes)
  {
    var p := r.provider;
    var successes' := if r.success then Increment(successes, p) else successes;
    forall q | q in costs'
      ensures SuccessCount(successes', q) == CountSuccesses(Group(rs + [r], q))
    {
      CountGroupSnoc(rs, r, q);
      if q !in costs {
        assert Group(rs, q) == [];
      }
    }
  }

  /** `model_costs` and `model_successes` after the results `rs`. */
  ghost predicate TracksModelTotals(rs: seq<TestResult>, costs: map<string, real>, successes: map<string, int>)
  {
    TracksModelCosts(rs, costs) && ModelSuccessValues(rs, costs, successes)
  }

  /** The body of the loop over the results, on both dicts. */
  lemma ModelTotalsSnoc(rs: seq<TestResult>, r: TestResult, costs: map<string, real>, successes: map<string, int>)
    requires TracksModelTotals(rs, costs, successes)
    ensures var p := r.provider;
      TracksModelTotals(rs + [r],
        costs[p := AddCost(if p in costs then costs[p] else 0.0, r)],
        if r.success then Increment(successes, p) else successes)
  {
    var p := r.provider;
    var costs' := costs[p := AddCost(if p in costs then costs[p] else 0.0, r)];
    ModelCostsSnoc(rs, r, costs);
    ModelSuccessesSnoc(rs, r, costs, costs', successes);
  }

  /** With both dicts tracked, the value the dict comprehension computes for a
      provider is its cost per success. */
  lemma CostPerSuccessFrom(rs: seq<TestResult>, costs: map<string, real>, successes: map<string, int>, p: string)
    requires TracksModelTotals(rs, costs, successes)
    requires p in Providers(rs)
    ensures p in costs
    ensures CostPerSuccess(rs, p) ==
      if SuccessCount(successes, p) > 0 then Finite(costs[p] / (SuccessCount(successes, p) as real)) else Inf
  {
  }

  /** `len(cost_per_success) > 1 and least_efficient[1] > most_efficient[1] * 2` */
  predicate CostRuleFires(cs: seq<(string, Ext)>)
  {
    |cs| > 1 && Less(Twice(cs[MinIndex(cs)].1), cs[MaxIndex(cs)].1)
  }

  /** Comparing only the extremes is the same as comparing every pair: the rule fires
      exactly when some provider's cost per success is more than twice another's. */
  lemma CostRuleIff(cs: seq<(string, Ext)>)
    requires |cs| > 1
    ensures CostRuleFires(cs) <==>
      exists i, j :: 0 <= i < |cs| && 0 <= j < |cs| && Less(Twice(cs[j].1), cs[i].1)
  {
    var lo, hi := MinIndex(cs), MaxIndex(cs);
    if i, j :| 0 <= i < |cs| && 0 <= j < |cs| && Less(Twice(cs[j].1), cs[i].1) {
      TwiceMonotone(cs[lo].1, cs[j].1);
      LessTrans(Twice(cs[lo].1), Twice(cs[j].1), cs[i].1);
      LessTrans2(Twice(cs[lo].1), cs[i].1, cs[hi].1);
    }
  }

  /** When no provider has a success every value is `inf`, and `inf > inf * 2` is
      false: the rule never fires. */
  lemma CostRuleAllInf(cs: seq<(string, Ext)>)
    requires |cs| > 1
    requires forall i :: 0 <= i < |cs| ==> cs[i].1.Inf?
    ensures !CostRuleFires(cs)
  {
    var hi := MaxIndex(cs);
    assert cs[hi].1.Inf?;
  }

  /** A provider without successes next to one with successes always makes the rule
      fire, whatever the costs. */
  lemma CostRuleMixed(cs: seq<(string, Ext)>, i: nat, j: nat)
    requires i < |cs| && j < |cs| && cs[i].1.Inf? && cs[j].1.Finite?
    ensures CostRuleFires(cs)
  {
    assert Less(Twice(cs[j].1), cs[i].1);
    CostRuleIff(cs);
  }

  function CostRecommendations(cs: seq<(string, Ext)>): (recs: seq<Recommendation>)
    ensures |recs| <= 1
    ensures |recs| == 1 <==> CostRuleFires(cs)
    ensures |recs| == 1 ==>
      recs[0] == CostSpread(cs[MaxIndex(cs)].0, cs[MinIndex(cs)].0)
  {
    if CostRuleFires(cs) then [CostSpread(cs[MaxIndex(cs)].0, cs[MinIndex(cs)].0)] else []
  }

  // ----- the pattern rule -----

  /** `len(pattern['affected_models']) == len(model_costs)` */
  predicate CoversAll(ins: ErrorInsight, providers: nat)
  {
    |ins.affectedModels| == providers
  }

  /** The errors of the insights that cover all `n` providers, in order. */
  function CoveringErrors(insights: seq<ErrorInsight>, n: nat): (es: seq<string>)
    ensures |es| <= |insights|
  {
    if insights == [] then []
    else
      var last := insights[|insights| - 1];
      CoveringErrors(insights[..|insights| - 1], n) + (if CoversAll(last, n) then [last.error] else [])
  }

  /** An error is listed exactly when an insight with that error covers all
      providers. */
  lemma {:induction false} CoveringErrorsIff(insights: seq<ErrorInsight>, n: nat, e: string)
    ensures e in CoveringErrors(insights, n) <==>
      exists k :: 0 <= k < |insights| && CoversAll(insights[k], n) && insights[k].error == e
  {
    if insights != [] {
      var front := insights[..|insights| - 1];
      CoveringErrorsIff(front, n, e);
      assert forall k :: 0 <= k < |front| ==> front[k] == insights[k];
    }
  }

  function PatternRecommendationsFor(es: seq<string>): (recs: seq<Recommendation>)
    ensures |recs| == |es|
    ensures forall i :: 0 <= i < |es| ==> recs[i] == SystematicError(es[i])
  {
    if es == [] then [] else PatternRecommendationsFor(es[..|es| - 1]) + [SystematicError(es[|es| - 1])]
  }

  /** One recommendation per insight that covers all `n` providers, in order. */
  function PatternRecommendations(insights: seq<ErrorInsight>, n: nat): seq<Recommendation>
  {
    PatternRecommendationsFor(CoveringErrors(insights, n))
  }

  lemma PatternRecommendationsSnoc(insights: seq<ErrorInsight>, n: nat, k: nat)
    requires k < |insights|
    ensures PatternRecommendations(insights[..k + 1], n) ==
      PatternRecommendations(insights[..k], n)
        + (if CoversAll(insights[k], n) then [SystematicError(insights[k].error)] else [])
  {
    assert insights[..k + 1][..k] == insights[..k];
    var es := CoveringErrors(insights[..k], n);
    if CoversAll(insights[k], n) {
      assert (es + [insights[k].error])[..|es|] == es;
    }
  }

  /** A subset of a finite set with as many elements is the whole set. */
  lemma SubsetSameSize(a: set<string>, b: set<string>)
    requires a <= b && |a| == |b|
    ensures a == b
  {
    assert b == a + (b - a);
    assert |b| == |a| + |b - a|;
  }

  /** Comparing counts is comparing sets: an insight covers all providers exactly
      when every provider of the input failed with that error. */
  lemma CoversAllIff(rs: seq<TestResult>, k: nat)
    requires k < |ErrorInsights(rs)|
    ensures var ins := ErrorInsights(rs)[k];
      CoversAll(ins, |Providers(rs)|) <==> ins.affectedModels == set p | p in Providers(rs)
  {
    var ins := ErrorInsights(rs)[k];
    var all := set p | p in Providers(rs);
    InsightFacts(rs, k);
    NoDupCard(Providers(rs));
    assert ins.affectedModels <= all;
    if |ins.affectedModels| == |Providers(rs)| {
      SubsetSameSize(ins.affectedModels, all);
    }
  }

  // ----- all rules -----

  /** The recommendations from the counters, the cost items and the error
      insights, in the order the rules are applied. */
  function RecommendationsFrom(stats: Stats, cs: seq<(string, Ext)>, insights: seq<ErrorInsight>, n: nat): seq<Recommendation>
    requires stats.successes + stats.failures > 0
  {
    RateRecommendations(stats) + CostRecommendations(cs) + PatternRecommendations(insights, n)
  }

  /** The list `generate_recommendations` returns. */
  function RecommendationsOf(rs: seq<TestResult>, stats: Stats): seq<Recommendation>
    requires stats.successes + stats.failures > 0
  {
    RecommendationsFrom(stats, CostsPerSuccess(rs), ErrorInsights(rs), |Providers(rs)|)
  }

  /** The position of a rule in the order of evaluation. */
  function Rank(r: Recommendation): nat
  {
    match r
    case LowSuccessRate => 0
    case CostSpread(_, _) => 1
    case SystematicError(_) => 2
  }

  /** The rules contribute in order: at most one success-rate recommendation, and it
      comes first exactly when there are fewer successes than failures; then at most
      one cost recommendation; then one per insight that covers all providers. */
  lemma {:induction false} RecommendationsFromShape(stats: Stats, cs: seq<(string, Ext)>, insights: seq<ErrorInsight>, n: nat)
    requires stats.successes + stats.failures > 0
    ensures var recs := RecommendationsFrom(stats, cs, insights, n);
      && |recs| <= 2 + |insights|
      && (forall i, j :: 0 <= i < j < |recs| ==> Rank(recs[i]) <= Rank(recs[j]))
      && (stats.successes < stats.failures <==> (recs != [] && recs[0] == LowSuccessRate))
  {
    BelowHalfIff(stats);
    var a, b, c := RateRecommendations(stats), CostRecommendations(cs), PatternRecommendations(insights, n);
    assert forall i :: 0 <= i < |c| ==> c[i].SystematicError?;
    var u := a + b + c;
    assert forall i :: 0 <= i < |u| ==> u[i] == if i < |a| then a[i] else if i < |a| + |b| then b[i - |a|] else c[i - |a| - |b|];
  }

  /** `RecommendationsFromShape` for the recommendations of a result set. */
  lemma RecommendationsShape(rs: seq<TestResult>, stats: Stats)
    requires stats.successes + stats.failures > 0
    ensures var recs := RecommendationsOf(rs, stats);
      && |recs| <= 2 + |ErrorInsights(rs)|
      && (forall i, j :: 0 <= i < j < |recs| ==> Rank(recs[i]) <= Rank(recs[j]))
      && (stats.successes < stats.failures <==> (recs != [] && recs[0] == LowSuccessRate))
  {
    RecommendationsFromShape(stats, CostsPerSuccess(rs), ErrorInsights(rs), |Providers(rs)|);
  }
}
