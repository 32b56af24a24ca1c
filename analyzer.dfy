/** The analyzer object: it holds the list `results['results']` and the counters
    `results['stats']` of a promptfoo results file, and each analysis walks the list
    once, filling dicts keyed by provider or by error signature. Each method is
    proved to return what the corresponding specification function computes. */
module Analyzer {
  import opened Records
  import opened Seqs
  import opened Performance
  import opened Patterns
  import opened Efficiency
  import opened Recommendations
  import opened Report

  class PromptfooAnalyzer {
    const results: seq<TestResult>
    const stats: Stats

    /** The results and counters, as read from the file. */
    constructor (results: seq<TestResult>, stats: Stats)
      ensures this.results == results && this.stats == stats
    {
      this.results := results;
      this.stats := stats;
    }

    /** `analyze_model_performance` */
    method AnalyzeModelPerformance() returns (t: Table<ModelPerformance>)
      ensures t == ModelPerformanceOf(results)
    {
      var keys: seq<string> := [];
      var modelStats: map<string, Acc> := map[];
      for i := 0 to |results|
        invariant keys == Providers(results[..i])
        invariant Tracks(results[..i], modelStats)
      {
        var r := results[i];
        var p := r.provider;
        TracksSnoc(results[..i], r, modelStats);
        ProvidersSnoc(results[..i], r);
        PrefixSnoc(results, i);
        if p !in modelStats {
          keys := keys + [p];
          modelStats := modelStats[p := EmptyAcc];
        }
        modelStats := modelStats[p := Step(modelStats[p], r)];
      }
      assert results[..|results|] == results;
      FinishAllOf(results, modelStats);
      t := FinishAll(keys, modelStats);
    }

    /** The first loop of `identify_problematic_patterns`: failing results grouped
        by signature, the keys in insertion order. */
    method GroupFailures() returns (sigs: seq<string>, errorPatterns: map<string, seq<TestResult>>)
      ensures sigs == Signatures(results)
      ensures TracksFailures(results, errorPatterns)
    {
      sigs := [];
      errorPatterns := map[];
      for i := 0 to |results|
        invariant sigs == Signatures(results[..i])
        invariant TracksFailures(results[..i], errorPatterns)
      {
        var r := results[i];
        SignaturesSnoc(results[..i], r);
        TracksFailuresSnoc(results[..i], r, errorPatterns);
        PrefixSnoc(results, i);
        if !r.success {
          var e := ErrorOf(r);
          if e !in errorPatterns {
            sigs := sigs + [e];
          }
          errorPatterns := AppendTo(errorPatterns, e, r);
        }
      }
      assert results[..|results|] == results;
    }

    /** `identify_problematic_patterns` */
    method IdentifyProblematicPatterns() returns (patterns: seq<ProblemPattern>)
      ensures patterns == ProblematicPatterns(results)
    {
      var sigs, errorPatterns := GroupFailures();
      patterns := [];
      for j := 0 to |sigs|
        invariant patterns == PatternsOver(results, sigs[..j])
      {
        var e := sigs[j];
        var instances := errorPatterns[e];
        assert sigs[..j + 1][..j] == sigs[..j];
        if |instances| >= Threshold {
          patterns := patterns + [ProblemPattern(e, |instances|, TestIdxs(instances))];
        }
      }
      assert sigs[..|sigs|] == sigs;
    }

    /** The first loop of `analyze_error_patterns`: the records of the failing
        results grouped by signature, the keys in insertion order. */
    method GroupInstances() returns (sigs: seq<string>, errorPatterns: map<string, seq<Instance>>)
      ensures sigs == Signatures(results)
      ensures TracksInstances(results, errorPatterns)
    {
      sigs := [];
      errorPatterns := map[];
      for i := 0 to |results|
        invariant sigs == Signatures(results[..i])
        invariant TracksInstances(results[..i], errorPatterns)
      {
        var r := results[i];
        SignaturesSnoc(results[..i], r);
        TracksInstancesSnoc(results[..i], r, errorPatterns);
        PrefixSnoc(results, i);
        if !r.success {
          var e := ErrorOf(r);
          if e !in errorPatterns {
            sigs := sigs + [e];
          }
          errorPatterns := AppendTo(errorPatterns, e, InstanceOf(r));
        }
      }
      assert results[..|results|] == results;
    }

    /** `analyze_error_patterns` */
    method AnalyzeErrorPatterns() returns (insights: seq<ErrorInsight>)
      ensures insights == ErrorInsights(results)
    {
      var sigs, errorPatterns := GroupInstances();
      insights := [];
      for j := 0 to |sigs|
        invariant insights == InsightsOver(results, sigs[..j])
      {
        var e := sigs[j];
        var instances := errorPatterns[e];
        InsightsOverSnoc(results, sigs, j);
        if |instances| >= Threshold {
          var affectedModels := Models(instances);
          var affectedPrompts := Prompts(instances);
          insights := insights + [ErrorInsight(e, |instances|, affectedModels, affectedPrompts, instances[0].vars)];
        }
      }
      assert sigs[..|sigs|] == sigs;
    }

    /** `analyze_cost_efficiency` */
    method AnalyzeCostEfficiency() returns (insights: seq<CostInsight>)
      ensures insights == CostEfficiency(results)
    {
      var sorted := SortedEfficiencies();
      insights := [];
      if |sorted| > 0 {
        var cheapest, dearest := sorted[0], sorted[|sorted| - 1];
        insights := [CostInsight(cheapest, dearest, Spread(cheapest, dearest))];
      }
    }

    /** The pairs of `analyze_cost_efficiency` after `efficiencies.sort(key=lambda x: x[1])`. */
    method SortedEfficiencies() returns (sorted: seq<Efficiency>)
      ensures sorted == SortByEff(Efficiencies(results))
    {
      var efficiencies := CollectEfficiencies();
      var a := new Efficiency[|efficiencies|](k requires 0 <= k < |efficiencies| => efficiencies[k]);
      assert a[..] == efficiencies;
      SortInPlace(a);
      sorted := a[..];
    }

    /** The two loops of `analyze_cost_efficiency` before the sort: one
        `(provider, cost / successes)` pair per key of `cost_per_success` with at
        least one success. */
    method CollectEfficiencies() returns (efficiencies: seq<Efficiency>)
      ensures efficiencies == Efficiencies(results)
    {
      var keys, costPerSuccess := AccumulateSuccessCosts();
      efficiencies := [];
      for j := 0 to |keys|
        invariant efficiencies == EfficienciesOver(results, keys[..j])
      {
        var p := keys[j];
        CostEntry(Successes(results), costPerSuccess, p);
        var st := costPerSuccess[p];
        EfficienciesOverSnoc(results, keys, j);
        if st.successes > 0 {
          efficiencies := efficiencies + [(p, st.cost / (st.successes as real))];
        }
      }
      assert keys[..|keys|] == keys;
    }

    /** The first loop of `analyze_cost_efficiency`: cost and number of successes per
        provider, over the successful results only. */
    method AccumulateSuccessCosts() returns (keys: seq<string>, costPerSuccess: map<string, CostAcc>)
      ensures keys == SuccessProviders(results)
      ensures TracksSuccessCosts(Successes(results), costPerSuccess)
    {
      keys := [];
      costPerSuccess := map[];
      ghost var ss: seq<TestResult> := [];
      for i := 0 to |results|
        invariant ss == Successes(results[..i])
        invariant keys == Providers(ss)
        invariant TracksSuccessCosts(ss, costPerSuccess)
      {
        var r := results[i];
        var p := r.provider;
        SuccessesSnoc(results[..i], r);
        PrefixSnoc(results, i);
        if r.success {
          ProvidersSnoc(ss, r);
          TracksSuccessCostsSnoc(ss, r, costPerSuccess);
          if p !in costPerSuccess {
            keys := keys + [p];
          }
          var st := if p in costPerSuccess then costPerSuccess[p] else CostAcc(0.0, 0);
          costPerSuccess := costPerSuccess[p := AddSuccess(st, r)];
          ss := ss + [r];
        }
      }
      assert results[..|results|] == results;
    }

    /** `generate_recommendations` */
    method GenerateRecommendations() returns (recommendations: seq<Recommendation>)
      requires stats.successes + stats.failures > 0
      ensures recommendations == RecommendationsOf(results, stats)
    {
      recommendations := [];
      if (stats.successes as real) / ((stats.successes + stats.failures) as real) < 0.5 {
        recommendations := recommendations + [LowSuccessRate];
      }
      assert recommendations == RateRecommendations(stats);
      var costPerSuccess := CostsPerSuccessItems();
      recommendations := AppendCostSpread(recommendations, costPerSuccess);
      var errorPatterns := AnalyzeErrorPatterns();
      recommendations := AppendSystematicErrors(recommendations, errorPatterns, |costPerSuccess|);
    }

    /** The cost rule of `generate_recommendations`: with more than one provider, a
        recommendation when the dearest cost per success is more than twice the
        cheapest. */
    method AppendCostSpread(recs: seq<Recommendation>, costPerSuccess: seq<(string, Ext)>)
      returns (recommendations: seq<Recommendation>)
      ensures recommendations == recs + CostRecommendations(costPerSuccess)
    {
      recommendations := recs;
      if |costPerSuccess| > 1 {
        var mostEfficient := costPerSuccess[MinIndex(costPerSuccess)];
        var leastEfficient := costPerSuccess[MaxIndex(costPerSuccess)];
        if Less(Twice(mostEfficient.1), leastEfficient.1) {
          recommendations := recommendations + [CostSpread(leastEfficient.0, mostEfficient.0)];
        }
      }
    }

    /** The last loop of `generate_recommendations`: one recommendation per error
        pattern whose affected models are as many as the `providers` of the input. */
    method AppendSystematicErrors(recs: seq<Recommendation>, errorPatterns: seq<ErrorInsight>, providers: nat)
      returns (recommendations: seq<Recommendation>)
      ensures recommendations == recs + PatternRecommendations(errorPatterns, providers)
    {
      recommendations := recs;
      for k := 0 to |errorPatterns|
        invariant recommendations == recs + PatternRecommendations(errorPatterns[..k], providers)
      {
        PatternRecommendationsSnoc(errorPatterns, providers, k);
        var pattern := errorPatterns[k];
        if |pattern.affectedModels| == providers {
          AppendAssoc(recs, PatternRecommendations(errorPatterns[..k], providers), [SystematicError(pattern.error)]);
          recommendations := recommendations + [SystematicError(pattern.error)];
        }
      }
      assert errorPatterns[..|errorPatterns|] == errorPatterns;
    }

    /** The items of `cost_per_success`, from the defaultdicts `model_costs` and
        `model_successes` filled by one walk over the results. */
    method CostsPerSuccessItems() returns (costPerSuccess: seq<(string, Ext)>)
      ensures costPerSuccess == CostsPerSuccess(results)
    {
      var models, modelCosts, modelSuccesses := AccumulateModelCosts();
      costPerSuccess := [];
      for j := 0 to |models|
        invariant costPerSuccess == CostsOver(results, models[..j])
      {
        var model := models[j];
        CostPerSuccessFrom(results, modelCosts, modelSuccesses, model);
        CostsOverSnoc(results, models, j);
        var successes := SuccessCount(modelSuccesses, model);
        var c := if successes > 0 then Finite(modelCosts[model] / (successes as real)) else Inf;
        costPerSuccess := costPerSuccess + [(model, c)];
      }
      assert models[..|models|] == models;
    }

    /** The loop of `generate_recommendations` over the results. */
    method AccumulateModelCosts() returns (models: seq<string>, modelCosts: map<string, real>, modelSuccesses: map<string, int>)
      ensures models == Providers(results)
      ensures TracksModelTotals(results, modelCosts, modelSuccesses)
    {
      models := [];
      modelCosts := map[];
      modelSuccesses := map[];
      ghost var done: seq<TestResult> := [];
      for i := 0 to |results|
        invariant done == results[..i]
        invariant models == Providers(done)
        invariant TracksModelTotals(done, modelCosts, modelSuccesses)
      {
        var r := results[i];
        var p := r.provider;
        PrefixSnoc(results, i);
        ProvidersSnoc(done, r);
        ModelTotalsSnoc(done, r, modelCosts, modelSuccesses);
        if p !in modelCosts {
          models := models + [p];
        }
        var c := if p in modelCosts then modelCosts[p] else 0.0;
        modelCosts := modelCosts[p := AddCost(c, r)];
        if r.success {
          modelSuccesses := Increment(modelSuccesses, p);
        }
        done := done + [r];
      }
      assert results[..|results|] == results;
    }

    /** `generate_detailed_report`, with the clock reading `generatedOn` and the
        number rendering `fmt` as parameters. */
    method GenerateDetailedReport(fmt: Formatter, generatedOn: string) returns (text: string)
      requires stats.successes + stats.failures > 0
      ensures text == DetailedReport(results, stats, fmt, generatedOn)
    {
      var modelPerformance := AnalyzeModelPerformance();
      var recommendations := GenerateRecommendations();
      var report := HeaderLines(generatedOn) + SummaryLines(stats, TotalCost(results), fmt);
      report := AppendFindings(report, Entries(recommendations));
      report := AppendPerformance(report, modelPerformance, fmt);
      var errorPatterns := AnalyzeErrorPatterns();
      report := AppendErrorAnalysis(report, errorPatterns, fmt);
      text := Join(report);
    }

    /** The findings section: a heading, then the block of each recommendation. */
    method AppendFindings(report: seq<string>, recs: seq<Entry>) returns (report': seq<string>)
      ensures report' == report + FindingsLines(recs)
    {
      var heading := [FindingsIcon + " KEY FINDINGS & RECOMMENDATIONS", "-------------------------------"];
      report' := report + heading;
      for k := 0 to |recs|
        invariant report' == report + heading + RecommendationsLines(recs[..k])
      {
        RecommendationsLinesSnoc(recs, k);
        AppendAssoc(report + heading, RecommendationsLines(recs[..k]), RecommendationLines(recs[k]));
        report' := report' + RecommendationLines(recs[k]);
      }
      assert recs[..|recs|] == recs;
      AppendAssoc(report, heading, RecommendationsLines(recs));
    }

    /** The model performance comparison: a heading, then the block of each provider
        in the order of the table's keys. */
    method AppendPerformance(report: seq<string>, t: Table<ModelPerformance>, fmt: Formatter) returns (report': seq<string>)
      requires forall k :: k in t.keys ==> k in t.entries && t.entries[k].totalTests > 0
      ensures report' == report + PerformanceLines(t, fmt)
    {
      var heading := ["\n" + PerformanceIcon + " MODEL PERFORMANCE COMPARISON", "-----------------------------"];
      report' := report + heading;
      for j := 0 to |t.keys|
        invariant report' == report + heading + ProvidersLines(t, t.keys[..j], fmt)
      {
        ProvidersLinesSnoc(t, t.keys, fmt, j);
        var model := t.keys[j];
        var perf := t.entries[model];
        AppendAssoc(report + heading, ProvidersLines(t, t.keys[..j], fmt), ProviderLines(model, perf, fmt));
        report' := report' + ProviderLines(model, perf, fmt);
      }
      assert t.keys[..|t.keys|] == t.keys;
      AppendAssoc(report, heading, ProvidersLines(t, t.keys, fmt));
    }

    /** The error analysis: nothing without error patterns, else a heading and the
        block of each pattern. */
    method AppendErrorAnalysis(report: seq<string>, insights: seq<ErrorInsight>, fmt: Formatter) returns (report': seq<string>)
      ensures report' == report + ErrorLines(insights, fmt)
    {
      report' := report;
      if insights != [] {
        var heading := ["\n" + ErrorsIcon + " ERROR ANALYSIS", "---------------"];
        report' := report' + heading;
        for k := 0 to |insights|
          invariant report' == report + heading + InsightsLines(insights[..k], fmt)
        {
          InsightsLinesSnoc(insights, fmt, k);
          AppendAssoc(report + heading, InsightsLines(insights[..k], fmt), InsightLines(insights[k], fmt));
          report' := AppendInsight(report', insights[k], fmt);
        }
        assert insights[..|insights|] == insights;
        AppendAssoc(report, heading, InsightsLines(insights, fmt));
      }
    }

    /** The block of one error pattern: its error, frequency, affected models, and
        one line per example variable. */
    method AppendInsight(report: seq<string>, pattern: ErrorInsight, fmt: Formatter) returns (report': seq<string>)
      ensures report' == report + InsightLines(pattern, fmt)
    {
      var head := ["\nError: " + pattern.error,
                   "Frequency: " + fmt.integer(pattern.frequency) + " occurrences",
                   "Affected Models: " + fmt.joinModels(pattern.affectedModels),
                   "Example Test Variables:"];
      report' := report + head;
      var vs := pattern.exampleVars;
      for m := 0 to |vs|
        invariant report' == report + head + VarLines(vs[..m])
      {
        VarLinesSnoc(vs, m);
        var line := Bullet + vs[m].0 + ": " + vs[m].1;
        AppendAssoc(report + head, VarLines(vs[..m]), [line]);
        report' := report' + [line];
      }
      assert vs[..|vs|] == vs;
      AppendAssoc(report, head, VarLines(vs));
    }
  }
}
