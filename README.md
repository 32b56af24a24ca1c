# PromptfooAnalyzer, modelled in Dafny

This project models the analysis pipeline of `PromptfooAnalyzer` in
`analyze_promptfoo.py`. The analyzer reads the evaluation results of a promptfoo
run: a list of per-test records and the `stats` counters. From these it computes:

- the per-provider performance figures;
- the failure patterns, found by two detectors;
- the cost-efficiency insight;
- three recommendation rules;
- a line-oriented text report.

Each stage is modelled twice:

- **Specification functions** over `seq<TestResult>`. They recurse on the last
  element, so they read as "the dict after one more result".
- **Methods of the class `PromptfooAnalyzer`**. They do what the Python does:
  loops that fill `defaultdict` accumulators, each modelled as a key sequence in
  insertion order plus a `map`. Also `.append` on result lists and an in-place
  sort of an array. Every method is proved to return exactly what its
  specification function computes.

The properties the program relies on or promises are lemmas about the
specification functions. They cover:

- per-provider figures that add up;
- the strict thresholds;
- first-appearance ordering;
- the infinity sentinel;
- agreement between the two detectors;
- the line layout of the report.

Files:

| file | contents |
|---|---|
| `records.dfy` | the result record (`TestResult`), the `stats` counters, and the defaulted field reads |
| `seqs.dfy` | first-appearance de-duplication: the key order of a dict filled in a loop |
| `performance.dfy` | `analyze_model_performance` |
| `patterns.dfy` | `identify_problematic_patterns` and `analyze_error_patterns` |
| `efficiency.dfy` | `analyze_cost_efficiency`, including the stable in-place sort |
| `recommendations.dfy` | the three rules of `generate_recommendations`, with the `Finite`/`Inf` cost values |
| `report.dfy` | the lines of `generate_detailed_report` and `"\n".join` |
| `analyzer.dfy` | the class `PromptfooAnalyzer` and its loop-based methods |

Three points where the code's behaviour is easy to misread, and which the model
follows exactly:

- **"Total Tests Run".** The report prints `stats['successes'] + stats['failures']`
  (analyze_promptfoo.py:234); it does not count the results. The two agree only
  when the counters describe the same results. The model keeps them apart
  (`Report.ReportSummary`).
- **Affected tests.** `affected_tests` is a list of `testIdx` values in input
  order, not a set (analyze_promptfoo.py:88).
- **Cost denominator.** The cost rule divides the cost of *all* of a provider's
  results by its number of successes (analyze_promptfoo.py:176-182). When every
  provider lacks a success, `min` picks an `Inf` item, and the rule cannot fire
  (`Recommendations.CostRuleAllInf`).

## Model

| member | source | states |
|---|---|---|
| Analyzer.PromptfooAnalyzer.constructor | analyze_promptfoo.py:17-20 | the analyzer holds the parsed result list and counters it is given, and they never change afterwards (both are `const`) |
| Records.CostOf | analyze_promptfoo.py:58 | a result's cost is its `cost` field, or 0 when the field is absent |
| Records.ErrorOf | analyze_promptfoo.py:79 | a result's error signature is its `error` field, or "Unknown error" when absent |
| Records.VarsOf | analyze_promptfoo.py:134 | a result's variables are its `vars` field, or the empty mapping when absent |
| Records.PromptOf | analyze_promptfoo.py:135 | a result's prompt is `prompt.raw`, or the empty string when absent |
| Records.Successes | analyze_promptfoo.py:101 | only successful results are kept |
| Records.CountSuccesses | analyze_promptfoo.py:57 | the `+= 1 if success` counter: it equals the number of successful results |
| Records.ProviderIds | analyze_promptfoo.py:55 | one `provider.id` per result, in input order |
| Records.TotalCost | analyze_promptfoo.py:235 | `sum(result.get('cost', 0) for result in results)`: the sum of the results' costs, a missing one counting 0 |
| Records.Sum | analyze_promptfoo.py:66 | `sum(...)` of a sequence of reals |
| Performance.Group | analyze_promptfoo.py:54-59 | a provider's group holds only its own results, and it is non-empty exactly when the provider occurs in the input |
| Performance.Providers | analyze_promptfoo.py:54-56 | the dict keys are duplicate-free and are exactly the provider ids of the input |
| Performance.ProvidersOrder | analyze_promptfoo.py:54-56 | the keys come out in the order in which the providers first appear among the results |
| Performance.AccOf | analyze_promptfoo.py:52-59 | a provider's accumulator has as many latencies as tests, and no more successes than tests |
| Performance.EmptyAccOf | analyze_promptfoo.py:52 | the `defaultdict` factory's empty accumulator `EmptyAcc` is exactly the accumulator of a provider that has seen no result |
| Performance.Latencies | analyze_promptfoo.py:59 | the latency list of a group: one `latencyMs` per result, in order |
| Performance.Step | analyze_promptfoo.py:56-59 | one iteration on a provider's accumulator: one more test, one more success when the result succeeded, its cost added, its latency appended |
| Performance.Finish | analyze_promptfoo.py:62-67 | a provider's figures from its accumulator: the same counts and cost, and the sum of its latencies |
| Performance.ModelPerformance.SuccessRate | analyze_promptfoo.py:63 | `successes / total * 100` |
| Performance.ModelPerformance.AvgLatency | analyze_promptfoo.py:66 | `sum(latency) / len(latency)`, the length being the test count |
| Performance.FinishAll | analyze_promptfoo.py:61-69 | the dict comprehension: for each key, in key order, the figures of its accumulator |
| Performance.RateFacts | analyze_promptfoo.py:63-66 | the success rate lies in [0, 100] and times the test count gives 100 times the successes; the mean latency times the count gives the latency sum |
| Performance.ModelPerformanceOf | analyze_promptfoo.py:61-69 | one entry per distinct provider, keyed in first-appearance order; each entry's test count is the size of the provider's group, which is at least 1, so neither division is by zero |
| Performance.TracksSnoc | analyze_promptfoo.py:54-59 | one loop iteration creates the empty accumulator for a new provider and updates only the accumulator of the result's provider |
| Performance.FinishAllOf | analyze_promptfoo.py:61-69 | the dict comprehension over accumulators that track all the results is exactly the per-provider table |
| Performance.Partition | analyze_promptfoo.py:54-59 | grouping by provider partitions the results: summing any per-result quantity group by group gives its sum over all results |
| Performance.TotalTestsAddUp | analyze_promptfoo.py:56 | the per-provider `total_tests` sum to the number of results |
| Performance.TotalCostsAddUp | analyze_promptfoo.py:58 | the per-provider `total_cost` sum to the total cost of all results |
| Performance.SuccessesAddUp | analyze_promptfoo.py:57 | the per-provider success counts sum to the number of successful results |
| Performance.SuccessRateBounds | analyze_promptfoo.py:63 | every provider's success rate lies in [0, 100] |
| Performance.ProviderFigures | analyze_promptfoo.py:57-66 | a provider's entry holds the number of its successes, the sum of its costs (a missing cost counting 0) and the sum of its latencies |
| Analyzer.PromptfooAnalyzer.AnalyzeModelPerformance | analyze_promptfoo.py:50-69 | the loop over the results followed by the comprehension returns exactly the per-provider table |
| Patterns.ErrorGroup | analyze_promptfoo.py:77-79 | a signature's group holds only failing results with that signature, each taken from the input |
| Patterns.FailureErrors | analyze_promptfoo.py:77-79 | one defaulted signature per failing result: as many signatures as results that did not succeed |
| Patterns.FailureErrorsIff | analyze_promptfoo.py:77-79 | a signature is listed if and only if some failing result carries it (a missing error reading as "Unknown error") |
| Patterns.Signatures | analyze_promptfoo.py:76-79 | the grouping's keys are duplicate-free and are exactly the signatures of the failing results |
| Patterns.Reported | analyze_promptfoo.py:83 | the `len(...) >= 3` filter both detectors share (line 140 repeats it) keeps no more signatures than it is given |
| Patterns.ReportedIff | analyze_promptfoo.py:83 | a signature is kept if and only if it is one of the given keys and at least 3 failing results carry it |
| Patterns.AppendTo | analyze_promptfoo.py:79 | `groups[e].append(x)` on a `defaultdict(list)`: the list of `e`, empty when `e` is new, gains `x` at its end, and no other key changes |
| Patterns.GroupNonEmpty | analyze_promptfoo.py:77-79 | a signature has failing results exactly when it occurs among the failures |
| Patterns.TracksFailuresSnoc | analyze_promptfoo.py:77-79 | one loop iteration appends a failing result to its signature's list, created empty when needed, and a success changes nothing |
| Analyzer.PromptfooAnalyzer.GroupFailures | analyze_promptfoo.py:76-79 | the grouping loop yields the signatures in insertion order and the failing results of each |
| Patterns.PatternsOver | analyze_promptfoo.py:82-89 | each pattern carries a signature that meets the threshold, its exact count and its test indices |
| Patterns.TestIdxs | analyze_promptfoo.py:88 | `[i['testIdx'] for i in instances]`: one test index per instance, in order |
| Patterns.ProblematicPatterns | analyze_promptfoo.py:71-91 | the patterns over the grouping's keys, in insertion order |
| Patterns.PatternIff | analyze_promptfoo.py:82-89 | a signature is reported if and only if at least 3 failing results carry it |
| Patterns.PatternFields | analyze_promptfoo.py:83-88 | `frequency` is the exact count (at least 3), and `affected_tests` are the `testIdx` values of its instances in input order, as many as the frequency |
| Patterns.PatternOrder | analyze_promptfoo.py:82-91 | patterns come out in the order in which their signatures first appear among the failing results |
| Patterns.PatternsOverOrder | analyze_promptfoo.py:82-89 | patterns keep the order of the grouping's keys |
| Analyzer.PromptfooAnalyzer.IdentifyProblematicPatterns | analyze_promptfoo.py:71-91 | the two loops return exactly the list of problematic patterns |
| Patterns.Instances | analyze_promptfoo.py:131-136 | one record per failing result, in order, holding its test index, provider, variables and prompt |
| Patterns.InstanceOf | analyze_promptfoo.py:131-136 | the per-failure dict holds the result's own test index and provider, its variables (`{}` when absent) and its prompt (`""` when absent) |
| Patterns.TracksInstancesSnoc | analyze_promptfoo.py:128-136 | one loop iteration appends the failing result's record to its signature's list, and a success changes nothing |
| Analyzer.PromptfooAnalyzer.GroupInstances | analyze_promptfoo.py:127-136 | the grouping loop yields the signatures in insertion order and the records of each |
| Patterns.Models | analyze_promptfoo.py:141 | every instance's provider is in the set, which has no more elements than there are instances |
| Patterns.ModelsOnly | analyze_promptfoo.py:141 | every provider in the set is the provider of one of the instances |
| Patterns.PromptsOnly | analyze_promptfoo.py:142 | every prompt in the set is the prompt of one of the instances |
| Patterns.Prompts | analyze_promptfoo.py:142 | every instance's prompt is in the set, which has no more elements than there are instances |
| Patterns.InsightOf | analyze_promptfoo.py:143-148 | the insight dict of a signature: the signature, the number of instances, the set of their providers, the set of their prompts and the first instance's variables |
| Patterns.InsightsOver | analyze_promptfoo.py:139-149 | one insight per signature that meets the threshold, in key order, with the exact frequency |
| Patterns.InsightsOverAt | analyze_promptfoo.py:140-148 | each insight is built from the failing results of its signature, which number at least 3 |
| Patterns.ErrorInsights | analyze_promptfoo.py:125-151 | the insights over the grouping's keys, in insertion order |
| Patterns.DetectorsAgree | analyze_promptfoo.py:139-149 | both detectors report the same signatures with the same frequencies in the same order |
| Patterns.InsightOfGroup | analyze_promptfoo.py:141-148 | the affected models are providers of the input and no more than the frequency, the prompts are no more than the frequency, and the example variables are those of the first failing result |
| Patterns.InsightFacts | analyze_promptfoo.py:139-149 | each reported insight has at least 3 instances, models that are provider ids and number at most the frequency, and the first instance's variables (`{}` when absent) |
| Analyzer.PromptfooAnalyzer.AnalyzeErrorPatterns | analyze_promptfoo.py:125-151 | the two loops return exactly the list of error insights |
| Efficiency.SuccessProviders | analyze_promptfoo.py:98-103 | the keys of `cost_per_success` are duplicate-free and are exactly the providers that have a successful result |
| Efficiency.SuccessProvidersHaveSuccesses | analyze_promptfoo.py:101-103 | every key of `cost_per_success` has at least one success |
| Efficiency.TracksSuccessCostsSnoc | analyze_promptfoo.py:101-103 | a successful result adds its cost and one success to its provider's entry, created empty when needed |
| Efficiency.CostEntry | analyze_promptfoo.py:98-103 | after the loop, each provider's entry is the cost and count of its successful results |
| Efficiency.CostAccOf | analyze_promptfoo.py:98-103 | a provider's entry: the cost of its successful results and their number |
| Efficiency.AddSuccess | analyze_promptfoo.py:102-103 | one successful result adds its cost and one success to an entry |
| Analyzer.PromptfooAnalyzer.AccumulateSuccessCosts | analyze_promptfoo.py:98-103 | the loop over successes yields the keys in insertion order and the entries that track the successful results |
| Efficiency.EfficienciesOver | analyze_promptfoo.py:106-110 | no more pairs than keys; each pair names one of the keys, which has successes, and holds the cost of its successful results divided by their number |
| Efficiency.EfficienciesOverDistinct | analyze_promptfoo.py:106-110 | over duplicate-free keys, no two pairs name the same provider: at most one pair per key |
| Efficiency.Efficiencies | analyze_promptfoo.py:106-110 | the pairs over the keys of `cost_per_success`, in insertion order |
| Efficiency.EfficienciesOverAll | analyze_promptfoo.py:106-110 | for keys that all have successes, there is exactly one pair per key, in key order |
| Efficiency.EfficienciesCoverSuccessProviders | analyze_promptfoo.py:106-110 | the filter `successes > 0` drops no provider: one pair per provider with a success, in first-appearance order |
| Efficiency.EfficienciesNonEmpty | analyze_promptfoo.py:106-115 | there is a pair exactly when some result succeeded |
| Analyzer.PromptfooAnalyzer.CollectEfficiencies | analyze_promptfoo.py:98-110 | the two loops before the sort return exactly the unsorted pairs |
| Efficiency.SortByEffFacts | analyze_promptfoo.py:113 | the sorted list is non-decreasing in efficiency and is a permutation of the pairs |
| Efficiency.Insert | analyze_promptfoo.py:113 | one step of a stable insertion sort: the result is one pair longer |
| Efficiency.SortByEff | analyze_promptfoo.py:113 | the stable sort by efficiency, as repeated insertion; it keeps the length |
| Efficiency.InsertSplit | analyze_promptfoo.py:113 | insertion places a pair right after the last one whose efficiency is at most its own, which keeps the sort stable |
| Efficiency.FirstMin | analyze_promptfoo.py:118 | the index of the first pair of least efficiency |
| Efficiency.LastMax | analyze_promptfoo.py:119 | the index of the last pair of greatest efficiency |
| Efficiency.SortByEffEnds | analyze_promptfoo.py:113-119 | because the sort is stable, its first pair is the first of least efficiency and its last pair the last of greatest efficiency |
| Efficiency.InsertLast | analyze_promptfoo.py:113 | shifting the larger pairs right inserts `a[i]` into the sorted prefix and leaves the rest of the array alone |
| Efficiency.SortInPlace | analyze_promptfoo.py:113 | the in-place sort leaves the array holding the stable sort of its old contents |
| Analyzer.PromptfooAnalyzer.SortedEfficiencies | analyze_promptfoo.py:106-113 | the pairs after `efficiencies.sort(key=lambda x: x[1])` |
| Efficiency.CostInsightOf | analyze_promptfoo.py:115-121 | there is one insight exactly when the sorted list is non-empty, otherwise none |
| Efficiency.Spread | analyze_promptfoo.py:120 | `efficiencies[-1][1] - efficiencies[0][1]` |
| Efficiency.CostEfficiency | analyze_promptfoo.py:93-123 | the list `analyze_cost_efficiency` returns: the insight built from the sorted pairs |
| Efficiency.CostEfficiencyFacts | analyze_promptfoo.py:115-121 | there is an insight exactly when some result succeeded; it names the first cheapest and the last dearest provider per successful test, and its range is never negative |
| Analyzer.PromptfooAnalyzer.AnalyzeCostEfficiency | analyze_promptfoo.py:93-123 | the method returns exactly the cost-efficiency insight list |
| Recommendations.BelowHalfIff | analyze_promptfoo.py:158 | the success-rate rule fires exactly when there are fewer successes than failures, so a rate of exactly 0.5 emits nothing |
| Recommendations.BelowHalf | analyze_promptfoo.py:158 | `successes / (successes + failures) < 0.5` on the counters |
| Recommendations.RateRecommendations | analyze_promptfoo.py:157-169 | the success-rate rule contributes at most one recommendation |
| Recommendations.Twice | analyze_promptfoo.py:188 | `x * 2` doubles a finite value and keeps `inf` infinite |
| Recommendations.Less | analyze_promptfoo.py:188 | Python's `<` on floats with `inf`: finite values compare as reals, `inf` is above every finite value and not below itself |
| Recommendations.CostPerSuccess | analyze_promptfoo.py:181-184 | a provider's value is `inf` exactly when it has no successful result |
| Recommendations.CostsOver | analyze_promptfoo.py:181-184 | one item per key, in key order, holding that provider's cost per success |
| Recommendations.CostsPerSuccess | analyze_promptfoo.py:181-184 | `cost_per_success.items()`: the items over the keys of `model_costs`, in insertion order |
| Recommendations.ModelTotalsSnoc | analyze_promptfoo.py:174-178 | one loop iteration adds the result's cost to its provider, and one success when it succeeded |
| Recommendations.ModelSuccessesSnoc | analyze_promptfoo.py:177-178 | `model_successes` read through the defaultdict gives each provider's number of successes |
| Recommendations.AddCost | analyze_promptfoo.py:176 | `model_costs[provider] += result.get('cost', 0)` on the current value |
| Recommendations.SuccessCount | analyze_promptfoo.py:182 | `model_successes[model]` read through the defaultdict: 0 for a missing key |
| Recommendations.Increment | analyze_promptfoo.py:178 | `model_successes[provider] += 1`: that key's count grows by one and no other key changes |
| Recommendations.CostPerSuccessFrom | analyze_promptfoo.py:181-184 | with both dicts filled, the comprehension's value for a provider is its cost per success |
| Analyzer.PromptfooAnalyzer.AccumulateModelCosts | analyze_promptfoo.py:172-178 | the loop yields the providers in insertion order and both dicts that track all the results |
| Analyzer.PromptfooAnalyzer.CostsPerSuccessItems | analyze_promptfoo.py:181-184 | the comprehension over `model_costs` returns exactly the cost-per-success items |
| Recommendations.MinIndex | analyze_promptfoo.py:186 | `min` picks an item of least value, the first such in insertion order |
| Recommendations.MaxIndex | analyze_promptfoo.py:187 | `max` picks an item of greatest value, the first such in insertion order |
| Recommendations.CostRuleIff | analyze_promptfoo.py:185-188 | with more than one provider, comparing only the extremes is the same as asking whether some value is strictly more than twice another |
| Recommendations.CostRuleFires | analyze_promptfoo.py:185-188 | `len(cost_per_success) > 1` and the value of the item `max` picks is strictly more than twice the value of the item `min` picks |
| Recommendations.CostRuleAllInf | analyze_promptfoo.py:182-188 | when every value is `inf` the rule never fires (`inf > inf * 2` is false) |
| Recommendations.CostRuleMixed | analyze_promptfoo.py:182-188 | a provider without successes beside one with successes always makes the rule fire |
| Recommendations.CostRecommendations | analyze_promptfoo.py:185-199 | one recommendation exactly when the rule fires, naming the least efficient provider and then the most efficient |
| Analyzer.PromptfooAnalyzer.AppendCostSpread | analyze_promptfoo.py:185-199 | the cost rule appends exactly its recommendations to the list |
| Recommendations.CoveringErrors | analyze_promptfoo.py:203-204 | no more errors than insights |
| Recommendations.CoveringErrorsIff | analyze_promptfoo.py:203-204 | an error is listed exactly when one of its insights has as many affected models as there are providers |
| Recommendations.CoversAll | analyze_promptfoo.py:204 | `len(pattern['affected_models']) == len(model_costs)` |
| Recommendations.CoversAllIff | analyze_promptfoo.py:204 | comparing the counts is the same as the affected models being every provider of the input |
| Recommendations.PatternRecommendationsFor | analyze_promptfoo.py:205-215 | one systematic-error recommendation per listed error, in the same order |
| Recommendations.PatternRecommendationsSnoc | analyze_promptfoo.py:203-215 | one more pattern adds its recommendation exactly when it covers all providers |
| Recommendations.PatternRecommendations | analyze_promptfoo.py:203-215 | one recommendation per insight that covers all providers, in insight order |
| Recommendations.CategoryName | analyze_promptfoo.py:160-206 | the `category` strings "Success Rate", "Cost Optimization" and "Error Pattern" |
| Recommendations.SeverityName | analyze_promptfoo.py:161-207 | the `severity` strings "High" and "Medium" |
| Recommendations.CategoryOf | analyze_promptfoo.py:160-206 | each rule's category |
| Recommendations.SeverityOf | analyze_promptfoo.py:161-207 | the cost rule is Medium, the other two High |
| Recommendations.Finding | analyze_promptfoo.py:162-208 | each rule's `finding` text, naming the least efficient provider or the error |
| Recommendations.Impact | analyze_promptfoo.py:163-209 | each rule's `impact` text |
| Recommendations.Actions | analyze_promptfoo.py:164-214 | each rule's three `actions`; the cost rule's name the least and the most efficient provider |
| Recommendations.EntryOf | analyze_promptfoo.py:159-214 | the dict a rule appends: category, severity, finding, impact and actions |
| Recommendations.Entries | analyze_promptfoo.py:155-217 | the dicts of the recommendations, in the same order |
| Analyzer.PromptfooAnalyzer.AppendSystematicErrors | analyze_promptfoo.py:202-215 | the loop appends exactly the error-pattern recommendations, in pattern order |
| Recommendations.RecommendationsFromShape | analyze_promptfoo.py:155-217 | at most `2 + |patterns|` recommendations; the rules contribute in order (rate, cost, patterns); the rate recommendation comes first exactly when there are fewer successes than failures |
| Recommendations.RecommendationsShape | analyze_promptfoo.py:153-217 | the same ordering and bounds for the recommendations of a result set |
| Recommendations.RecommendationsFrom | analyze_promptfoo.py:155-217 | the rate rule, then the cost rule, then the pattern rule, concatenated in that order |
| Recommendations.RecommendationsOf | analyze_promptfoo.py:153-217 | the list `generate_recommendations` returns, from the counters, the cost items and the error insights |
| Recommendations.Rank | analyze_promptfoo.py:157-215 | the position of each rule in the order of evaluation |
| Analyzer.PromptfooAnalyzer.GenerateRecommendations | analyze_promptfoo.py:153-217 | the method returns exactly the recommendations the three rules give |
| Report.JoinAppend | analyze_promptfoo.py:271 | joining two non-empty lists of lines is joining their texts with one newline |
| Report.Join | analyze_promptfoo.py:271 | `"\n".join(report)`: the lines with a newline between neighbours |
| Report.HeaderLines | analyze_promptfoo.py:226-227 | the header has two lines, the first is the title |
| Report.SummaryLines | analyze_promptfoo.py:230-235 | the summary has five lines, and its test count is `successes + failures` from the counters |
| Report.OverallRate | analyze_promptfoo.py:232 | `successes / (successes + failures) * 100` on the counters |
| Report.Heading | analyze_promptfoo.py:241 | `"\n[" + severity + " Priority] " + category` |
| Report.RecommendationLines | analyze_promptfoo.py:241-246 | a recommendation block has `4 + 3` lines and starts with its severity and category |
| Report.RecommendationsLines | analyze_promptfoo.py:240-246 | seven lines per recommendation; the `k`-th block starts at line `7k` |
| Report.FindingsLines | analyze_promptfoo.py:238-246 | a two-line heading, then the recommendation blocks in order |
| Report.ProviderLines | analyze_promptfoo.py:252-256 | a provider block has five lines |
| Report.TestsRunLine | analyze_promptfoo.py:254 | the bulleted "Tests Run" line of a provider block |
| Report.ProvidersLines | analyze_promptfoo.py:251-256 | five lines per provider in key order, the name first and the test count two lines further down |
| Report.PerformanceLines | analyze_promptfoo.py:249-256 | a two-line heading, then the provider blocks in the table's key order |
| Report.VarLines | analyze_promptfoo.py:268-269 | one bulleted `name: value` line per example variable, in order |
| Report.InsightLines | analyze_promptfoo.py:264-269 | an insight block has four lines plus one per example variable, and starts with its error |
| Report.InsightsLinesCount | analyze_promptfoo.py:263-269 | the insight blocks together have four lines per insight plus one per example variable |
| Report.InsightsLines | analyze_promptfoo.py:263-269 | the insight blocks, in insight order |
| Report.ErrorLines | analyze_promptfoo.py:260-269 | the error analysis is empty exactly when there are no insights |
| Report.LayoutFacts | analyze_promptfoo.py:221-271 | the sections in their fixed order: 11 fixed lines, 7 per recommendation, 5 per provider, then the error analysis; with the positions of the title, the test count, each recommendation heading and each provider's name and test count |
| Report.Layout | analyze_promptfoo.py:221-269 | the five sections concatenated in order: header, summary, findings, performance, error analysis |
| Report.ReportLines | analyze_promptfoo.py:221-269 | the report lines of a result set, from its recommendations, table and insights |
| Report.DetailedReport | analyze_promptfoo.py:219-271 | the string `generate_detailed_report` returns: the report lines joined with newlines |
| Report.ReportSummary | analyze_promptfoo.py:232-234 | the report's "Total Tests Run" is the counters' total, not a recount of the results |
| Report.ReportProviders | analyze_promptfoo.py:251-254 | the `k`-th provider block names the `k`-th provider in first-appearance order and gives the number of its results |
| Report.LayoutProvider | analyze_promptfoo.py:251-254 | a layout whose table holds each provider's test count puts that count in the provider's block |
| Report.ReportErrors | analyze_promptfoo.py:259-262 | the report has an error-analysis section exactly when some failure pattern is reported |
| Analyzer.PromptfooAnalyzer.AppendFindings | analyze_promptfoo.py:238-246 | the loops append exactly the findings section |
| Analyzer.PromptfooAnalyzer.AppendPerformance | analyze_promptfoo.py:249-256 | the loop appends exactly the performance section |
| Analyzer.PromptfooAnalyzer.AppendErrorAnalysis | analyze_promptfoo.py:259-269 | nothing without insights, else exactly the error-analysis section |
| Analyzer.PromptfooAnalyzer.AppendInsight | analyze_promptfoo.py:264-269 | the loop over example variables appends exactly one insight block |
| Analyzer.PromptfooAnalyzer.GenerateDetailedReport | analyze_promptfoo.py:219-271 | the method returns exactly the joined report lines |
| Seqs.DistinctFirstAppearance | analyze_promptfoo.py:82 | a dict filled in a loop yields its keys in the order of their first insertion |

## Left out

- Reading the file is not modelled: `_load_json_file` (analyze_promptfoo.py:22-48), with its encoding retries, `print` diagnostics and JSON parsing. The constructor takes the parsed `results` list and `stats` counters instead.
- `main` (analyze_promptfoo.py:273-289) is not modelled: argument handling, `print` and the exit status are process plumbing.
- The clock is a parameter. `datetime.now().strftime(...)` becomes the `generatedOn` string of `GenerateDetailedReport`.
- Number formatting is a parameter. `:.1f`, `:.4f` and `str(int)` are the function fields of `Report.Formatter`, left uninterpreted.
- The order of `', '.join(list(set))` is a parameter: `Formatter.joinModels`. Python does not fix the order of a set, so `affected_models` and `affected_prompts` stay sets.
- Floating point is not modelled. Costs, latencies and rates are exact `real`s, with no rounding. `float('inf')` is the `Inf` constructor of `Recommendations.Ext`, and `Less` and `Twice` give it Python's ordering and doubling.
- Performance.ModelPerformance: the success rate and the mean latency are not stored. The entry keeps the success count and the latency sum, and `SuccessRate()` and `AvgLatency()` compute the quotients. The latency list becomes its sum once the loop is done.
- The constant `'type'` tags of the pattern and insight dicts (analyze_promptfoo.py:85, 117) are not modelled. They are the same for every entry and nothing reads them.
- Recommendations are the datatype `Recommendations.Recommendation`, one variant per rule. `EntryOf` renders the dict's `category`, `severity`, `finding`, `impact` and `actions` strings from it. `actions` is a fixed triple, since every rule gives exactly three.
- Records.VarsOf: a variable's value is kept as the string the report line prints. The program formats any JSON value with an f-string at line 269; that rendering is not modelled.
- Records.CostOf, Records.ErrorOf, Records.VarsOf and Records.PromptOf: `Option` does not tell an absent field from one present as JSON `null`. With `null`, `.get` returns `None` instead of the default. A failure with `"error": null` is grouped under `None` and printed as "Error: None". `"cost": null` raises `TypeError` at lines 58, 102 and 176, `"prompt": null` fails at line 135, and `"vars": null` fails at line 268. The model reads `null` as an absent field.
- A record missing a required field (`provider.id`, `success`, `latencyMs`, `testIdx`) cannot be expressed: the `KeyError` the program would raise is ruled out by the type of `TestResult`.
- The section icons are kept as the code points that stand in the program text, as opaque constants.
- Analyzer.PromptfooAnalyzer.GenerateRecommendations requires `successes + failures > 0`. On two zero counters the program raises `ZeroDivisionError` (analyze_promptfoo.py:158). Report.SummaryLines and Analyzer.PromptfooAnalyzer.GenerateDetailedReport carry the same precondition for line 232.
- Analyzer.PromptfooAnalyzer.CostsPerSuccessItems does not model one side effect of the comprehension: reading `model_successes[model]` inserts a zero entry for a key that was missing. Nothing reads the dict afterwards. The model reads a missing key as 0 without inserting it.
- Efficiency.SortInPlace: Python's list sort is modelled as a stable insertion sort on an array. Any stable sort gives the same list, but the model does not capture Timsort's steps.
- Several Python loops are split over more than one method, so that each proof stays small: `AccumulateSuccessCosts`, `CollectEfficiencies`, `AppendCostSpread`, `AppendSystematicErrors`, `AccumulateModelCosts` and the `Append...` section writers of the report. They run in the program's order over the same data.
