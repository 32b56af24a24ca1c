/** The text report of `generate_detailed_report`: a list of lines joined with
    newlines. The sections are a header, the executive summary, the findings (one
    block per recommendation), the per-provider comparison, and the error analysis,
    which is present only when there are error insights. Number rendering, the
    order of `', '.join` over a set and the clock are parameters. */
module Report {
  import opened Records
  import opened Seqs
  import opened Performance
  import opened Patterns
  import opened Recommendations

  /** How numbers and model sets are rendered: `:.1f`, `:.4f`, `str(int)`, and
      `', '.join(list(set))`, whose order Python does not fix. */
  datatype Formatter = Formatter(
    fixed1: real -> string,
    fixed4: real -> string,
    integer: int -> string,
    joinModels: set<string> -> string)

  // The section icons as they stand in the program text (UTF-8 emoji bytes read
  // back as Windows-1252 characters).
  const SummaryIcon: string := "\U{f0}\U{178}\U{201c}\U{160}"
  const FindingsIcon: string := "\U{f0}\U{178}\U{201d}"
  const PerformanceIcon: string := "\U{f0}\U{178}\U{201c}\U{2c6}"
  const ErrorsIcon: string := "\U{e2}\U{152}"
  const Bullet: string := "  \U{e2}\U{20ac}\U{a2} "

  const Title: string := "=== Promptfoo Analysis Report ==="

  /** `"\n".join(lines)` */
  function Join(lines: seq<string>): string
  {
    if lines == [] then ""
    else if |lines| == 1 then lines[0]
    else Join(lines[..|lines| - 1]) + "\n" + lines[|lines| - 1]
  }

  /** Joining two non-empty lists of lines is joining their texts with a newline. */
  lemma {:induction false} JoinAppend(a: seq<string>, b: seq<string>)
    requires a != [] && b != []
    ensures Join(a + b) == Join(a) + "\n" + Join(b)
  {
    var ab := a + b;
    if |b| == 1 {
      assert ab[..|ab| - 1] == a;
    } else {
      var front, last := b[..|b| - 1], b[|b| - 1];
      assert ab[..|ab| - 1] == a + front;
      JoinAppend(a, front);
      var ja, jf := Join(a) + "\n", Join(front);
      AppendAssoc(ja, jf, "\n");
      AppendAssoc(ja, jf + "\n", last);
    }
  }

  // ----- header and summary -----

  function HeaderLines(generatedOn: string): (ls: seq<string>)
    ensures |ls| == 2 && ls[0] == Title
  {
    [Title, "Generated on: " + generatedOn + "\n"]
  }

  /** `successes / (successes + failures) * 100` */
  function OverallRate(stats: Stats): real
    requires stats.successes + stats.failures > 0
  {
    (stats.successes as real) / ((stats.successes + stats.failures) as real) * 100.0
  }

  /** The executive summary; `totalCost` is the sum of the results' costs. */
  function SummaryLines(stats: Stats, totalCost: real, fmt: Formatter): (ls: seq<string>)
    requires stats.successes + stats.failures > 0
    ensures |ls| == 5
    ensures ls[3] == "Total Tests Run: " + fmt.integer(stats.successes + stats.failures)
  {
    [SummaryIcon + " EXECUTIVE SUMMARY",
     "-----------------",
     "Overall Success Rate: " + fmt.fixed1(OverallRate(stats)) + "%",
     "Total Tests Run: " + fmt.integer(stats.successes + stats.failures),
     "Total Cost: $" + fmt.fixed4(totalCost) + "\n"]
  }

  // ----- findings -----

  /** The heading line of a recommendation's block. */
  function Heading(e: Entry): string
  {
    "\n[" + e.severity + " Priority] " + e.category
  }

  /** The block of one recommendation: its heading, finding, impact and its three
      actions. */
  function RecommendationLines(e: Entry): (ls: seq<string>)
    ensures |ls| == 7
    ensures ls[0] == Heading(e)
  {
    [Heading(e), "Finding: " + e.finding, "Impact: " + e.impact, "Recommended Actions:",
     Bullet + e.actions.first, Bullet + e.actions.second, Bullet + e.actions.third]
  }

  /** The blocks of the recommendations, in order; the `k`-th starts at line `7 * k`. */
  function RecommendationsLines(recs: seq<Entry>): (ls: seq<string>)
    ensures |ls| == 7 * |recs|
    ensures forall k :: 0 <= k < |recs| ==> ls[7 * k] == Heading(recs[k])
  {
    if recs == [] then []
    else
      var front := recs[..|recs| - 1];
      var lf := RecommendationsLines(front);
      assert forall k :: 0 <= k < |front| ==> front[k] == recs[k];
      lf + RecommendationLines(recs[|recs| - 1])
  }

  function FindingsLines(recs: seq<Entry>): (ls: seq<string>)
    ensures |ls| == 2 + 7 * |recs|
    ensures forall k :: 0 <= k < |recs| ==> ls[2 + 7 * k] == Heading(recs[k])
  {
    [FindingsIcon + " KEY FINDINGS & RECOMMENDATIONS", "-------------------------------"]
      + RecommendationsLines(recs)
  }

  // ----- model performance comparison -----

  /** The line of a provider block that gives its number of tests. */
  function TestsRunLine(n: nat, fmt: Formatter): string
  {
    Bullet + "Tests Run: " + fmt.integer(n)
  }

  /** The block of one provider. */
  function ProviderLines(p: string, m: ModelPerformance, fmt: Formatter): (ls: seq<string>)
    requires m.totalTests > 0
    ensures |ls| == 5
  {
    ["\n" + p + ":",
     Bullet + "Success Rate: " + fmt.fixed1(m.SuccessRate()) + "%",
     TestsRunLine(m.totalTests, fmt),
     Bullet + "Total Cost: $" + fmt.fixed4(m.totalCost),
     Bullet + "Avg Latency: " + fmt.fixed1(m.AvgLatency()) + "ms"]
  }

  /** The blocks of the providers `ks`, in the order of `ks`; the `k`-th block starts
      at line `5 * k` with the provider's name and reports its test count two lines
      further down. */
  function ProvidersLines(t: Table<ModelPerformance>, ks: seq<string>, fmt: Formatter): (ls: seq<string>)
    requires forall k :: k in ks ==> k in t.entries && t.entries[k].totalTests > 0
    ensures |ls| == 5 * |ks|
    ensures forall k :: 0 <= k < |ks| ==>
      && ls[5 * k] == "\n" + ks[k] + ":"
      && ls[5 * k + 2] == TestsRunLine(t.entries[ks[k]].totalTests, fmt)
  {
    if ks == [] then []
    else
      var front, p := ks[..|ks| - 1], ks[|ks| - 1];
      assert forall k :: 0 <= k < |front| ==> front[k] == ks[k];
      ProvidersLines(t, front, fmt) + ProviderLines(p, t.entries[p], fmt)
  }

  function PerformanceLines(t: Table<ModelPerformance>, fmt: Formatter): (ls: seq<string>)
    requires forall k :: k in t.keys ==> k in t.entries && t.entries[k].totalTests > 0
    ensures |ls| == 2 + 5 * |t.keys|
    ensures forall k :: 0 <= k < |t.keys| ==>
      && ls[2 + 5 * k] == "\n" + t.keys[k] + ":"
      && ls[4 + 5 * k] == TestsRunLine(t.entries[t.keys[k]].totalTests, fmt)
  {
    ["\n" + PerformanceIcon + " MODEL PERFORMANCE COMPARISON", "-----------------------------"]
      + ProvidersLines(t, t.keys, fmt)
  }

  // ----- error analysis -----

  function VarLines(vs: Vars): (ls: seq<string>)
    ensures |ls| == |vs|
    ensures forall i :: 0 <= i < |vs| ==> ls[i] == Bullet + vs[i].0 + ": " + vs[i].1
  {
    if vs == [] then []
    else
      var v := vs[|vs| - 1];
      VarLines(vs[..|vs| - 1]) + [Bullet + v.0 + ": " + v.1]
  }

  /** The block of one error insight. */
  function InsightLines(ins: ErrorInsight, fmt: Formatter): (ls: seq<string>)
    ensures |ls| == 4 + |ins.exampleVars|
    ensures ls[0] == "\nError: " + ins.error
  {
    ["\nError: " + ins.error,
     "Frequency: " + fmt.integer(ins.frequency) + " occurrences",
     "Affected Models: " + fmt.joinModels(ins.affectedModels),
     "Example Test Variables:"]
      + VarLines(ins.exampleVars)
  }

  function InsightsLines(insights: seq<ErrorInsight>, fmt: Formatter): (ls: seq<string>)
  {
    if insights == [] then []
    else InsightsLines(insights[..|insights| - 1], fmt) + InsightLines(insights[|insights| - 1], fmt)
  }

  /** The number of lines of the insight blocks: four each, plus one per example
      variable. */
  function InsightsLineCount(insights: seq<ErrorInsight>): nat
  {
    if insights == [] then 0
    else InsightsLineCount(insights[..|insights| - 1]) + 4 + |insights[|insights| - 1].exampleVars|
  }

  lemma {:induction false} InsightsLinesCount(insights: seq<ErrorInsight>, fmt: Formatter)
    ensures |InsightsLines(insights, fmt)| == InsightsLineCount(insights)
  {
    if insights != [] {
      InsightsLinesCount(insights[..|insights| - 1], fmt);
    }
  }

  /** The error analysis: absent without insights, else a heading and one block per
      insight. */
  function ErrorLines(insights: seq<ErrorInsight>, fmt: Formatter): (ls: seq<string>)
    ensures ls == [] <==> insights == []
  {
    if insights == [] then []
    else ["\n" + ErrorsIcon + " ERROR ANALYSIS", "---------------"] + InsightsLines(insights, fmt)
  }

  // ----- one more block -----

  lemma RecommendationsLinesSnoc(recs: seq<Entry>, k: nat)
    requires k < |recs|
    ensures RecommendationsLines(recs[..k + 1]) == RecommendationsLines(recs[..k]) + RecommendationLines(recs[k])
  {
    assert recs[..k + 1][..k] == recs[..k];
  }

  lemma ProvidersLinesSnoc(t: Table<ModelPerformance>, ks: seq<string>, fmt: Formatter, j: nat)
    requires forall k :: k in ks ==> k in t.entries && t.entries[k].totalTests > 0
    requires j < |ks|
    ensures forall k :: k in ks[..j + 1] ==> k in ks
    ensures ProvidersLines(t, ks[..j + 1], fmt) == ProvidersLines(t, ks[..j], fmt) + ProviderLines(ks[j], t.entries[ks[j]], fmt)
  {
    assert ks[..j + 1][..j] == ks[..j];
  }

  lemma InsightsLinesSnoc(insights: seq<ErrorInsight>, fmt: Formatter, k: nat)
    requires k < |insights|
    ensures InsightsLines(insights[..k + 1], fmt) == InsightsLines(insights[..k], fmt) + InsightLines(insights[k], fmt)
  {
    assert insights[..k + 1][..k] == insights[..k];
  }

  lemma VarLinesSnoc(vs: Vars, m: nat)
    requires m < |vs|
    ensures VarLines(vs[..m + 1]) == VarLines(vs[..m]) + [Bullet + vs[m].0 + ": " + vs[m].1]
  {
    assert vs[..m + 1][..m] == vs[..m];
  }

  // ----- the whole report -----

  /** The lines of the report from what `generate_detailed_report` computes first:
      the counters, the total cost, the recommendations, the per-provider table and
      the error insights. */
  function Layout(generatedOn: string, stats: Stats, totalCost: real, recs: seq<Entry>,
                  t: Table<ModelPerformance>, insights: seq<ErrorInsight>, fmt: Formatter): seq<string>
    requires stats.successes + stats.failures > 0
    requires forall k :: k in t.keys ==> k in t.entries && t.entries[k].totalTests > 0
  {
    HeaderLines(generatedOn)
      + SummaryLines(stats, totalCost, fmt)
      + FindingsLines(recs)
      + PerformanceLines(t, fmt)
      + ErrorLines(insights, fmt)
  }

  /** Where things stand in the report: eleven fixed lines, then seven lines per
      recommendation starting with its heading, then five per provider starting
      with its name and giving its test count two lines further down, then the error
      analysis, which is empty exactly when there are no insights. */
  lemma LayoutFacts(generatedOn: string, stats: Stats, totalCost: real, recs: seq<Entry>,
                    t: Table<ModelPerformance>, insights: seq<ErrorInsight>, fmt: Formatter)
    requires stats.successes + stats.failures > 0
    requires forall k :: k in t.keys ==> k in t.entries && t.entries[k].totalTests > 0
    ensures var ls := Layout(generatedOn, stats, totalCost, recs, t, insights, fmt);
      var n, m := |recs|, |t.keys|;
      && |ls| == 11 + 7 * n + 5 * m + |ErrorLines(insights, fmt)|
      && ls[0] == Title
      && ls[5] == "Total Tests Run: " + fmt.integer(stats.successes + stats.failures)
      && (forall k :: 0 <= k < n ==> ls[9 + 7 * k] == Heading(recs[k]))
      && (forall k :: 0 <= k < m ==> ls[11 + 7 * n + 5 * k] == "\n" + t.keys[k] + ":")
      && (forall k :: 0 <= k < m ==>
            ls[13 + 7 * n + 5 * k] == TestsRunLine(t.entries[t.keys[k]].totalTests, fmt))
      && ls[11 + 7 * n + 5 * m..] == ErrorLines(insights, fmt)
  {
    var h, su, f := HeaderLines(generatedOn), SummaryLines(stats, totalCost, fmt), FindingsLines(recs);
    var p, e := PerformanceLines(t, fmt), ErrorLines(insights, fmt);
    InSecond(h, su, f, p, e, 3);
    forall k | 0 <= k < |recs|
      ensures (h + su + f + p + e)[9 + 7 * k] == f[2 + 7 * k]
    {
      InThird(h, su, f, p, e, 2 + 7 * k);
    }
    forall k | 0 <= k < |t.keys|
      ensures (h + su + f + p + e)[11 + 7 * |recs| + 5 * k] == p[2 + 5 * k]
      ensures (h + su + f + p + e)[13 + 7 * |recs| + 5 * k] == p[4 + 5 * k]
    {
      InFourth(h, su, f, p, e, 2 + 5 * k);
      InFourth(h, su, f, p, e, 4 + 5 * k);
    }
    assert (h + su + f + p + e)[|h + su + f + p|..] == e;
  }

  function ReportLines(rs: seq<TestResult>, stats: Stats, fmt: Formatter, generatedOn: string): seq<string>
    requires stats.successes + stats.failures > 0
  {
    Layout(generatedOn, stats, TotalCost(rs), Entries(RecommendationsOf(rs, stats)), ModelPerformanceOf(rs), ErrorInsights(rs), fmt)
  }

  /** The string `generate_detailed_report` returns. */
  function DetailedReport(rs: seq<TestResult>, stats: Stats, fmt: Formatter, generatedOn: string): string
    requires stats.successes + stats.failures > 0
  {
    Join(ReportLines(rs, stats, fmt, generatedOn))
  }

  /** The summary of a result set's report gives the counters' total, and one block
      of seven lines per recommendation follows the eleven fixed lines before the
      per-provider blocks. */
  lemma ReportSummary(rs: seq<TestResult>, stats: Stats, fmt: Formatter, generatedOn: string)
    requires stats.successes + stats.failures > 0
    ensures var ls := ReportLines(rs, stats, fmt, generatedOn);
      && |ls| >= 11 + 7 * |RecommendationsOf(rs, stats)| + 5 * |Providers(rs)|
      && ls[5] == "Total Tests Run: " + fmt.integer(stats.successes + stats.failures)
  {
    var recs, t, ins := Entries(RecommendationsOf(rs, stats)), ModelPerformanceOf(rs), ErrorInsights(rs);
    LayoutFacts(generatedOn, stats, TotalCost(rs), recs, t, ins, fmt);
  }

  /** The report of a result set has one block per provider, in order of first
      appearance: the `k`-th gives the provider's name and the number of its results. */
  lemma ReportProviders(rs: seq<TestResult>, stats: Stats, fmt: Formatter, generatedOn: string, k: nat)
    requires stats.successes + stats.failures > 0
    requires k < |Providers(rs)|
    ensures var ls, n := ReportLines(rs, stats, fmt, generatedOn), |RecommendationsOf(rs, stats)|;
      && 13 + 7 * n + 5 * k < |ls|
      && ls[11 + 7 * n + 5 * k] == "\n" + Providers(rs)[k] + ":"
      && ls[13 + 7 * n + 5 * k] == TestsRunLine(|Group(rs, Providers(rs)[k])|, fmt)
  {
    var recs, t, ins := Entries(RecommendationsOf(rs, stats)), ModelPerformanceOf(rs), ErrorInsights(rs);
    LayoutProvider(generatedOn, stats, TotalCost(rs), recs, t, ins, fmt, rs, k);
    var ls := Layout(generatedOn, stats, TotalCost(rs), recs, t, ins, fmt);
    assert ReportLines(rs, stats, fmt, generatedOn) == ls;
    assert |recs| == |RecommendationsOf(rs, stats)|;
    var n, p := |recs|, Providers(rs)[k];
    assert ls[13 + 7 * n + 5 * k] == TestsRunLine(|Group(rs, p)|, fmt);
  }

  /** The `k`-th provider block of a layout whose table has one entry per provider
      of `rs`, holding the number of its results. */
  lemma LayoutProvider(generatedOn: string, stats: Stats, totalCost: real, recs: seq<Entry>,
                       t: Table<ModelPerformance>, insights: seq<ErrorInsight>, fmt: Formatter,
                       rs: seq<TestResult>, k: nat)
    requires stats.successes + stats.failures > 0
    requires forall k :: k in t.keys ==> k in t.entries && t.entries[k].totalTests > 0
    requires t.keys == Providers(rs)
    requires forall p :: p in t.entries ==> t.entries[p].totalTests == |Group(rs, p)|
    requires k < |Providers(rs)|
    ensures var ls, n, p := Layout(generatedOn, stats, totalCost, recs, t, insights, fmt), |recs|, Providers(rs)[k];
      && 13 + 7 * n + 5 * k < |ls|
      && ls[11 + 7 * n + 5 * k] == "\n" + p + ":"
      && ls[13 + 7 * n + 5 * k] == TestsRunLine(|Group(rs, p)|, fmt)
  {
    LayoutFacts(generatedOn, stats, totalCost, recs, t, insights, fmt);
    assert t.keys[k] in t.keys;
  }

  /** The report of a result set ends with an error analysis exactly when some
      failure pattern is reported. */
  lemma ReportErrors(rs: seq<TestResult>, stats: Stats, fmt: Formatter, generatedOn: string)
    requires stats.successes + stats.failures > 0
    ensures var ls := ReportLines(rs, stats, fmt, generatedOn);
      |ls| == 11 + 7 * |RecommendationsOf(rs, stats)| + 5 * |Providers(rs)| <==> ProblematicPatterns(rs) == []
  {
    var recs, t, ins := Entries(RecommendationsOf(rs, stats)), ModelPerformanceOf(rs), ErrorInsights(rs);
    LayoutFacts(generatedOn, stats, TotalCost(rs), recs, t, ins, fmt);
    DetectorsAgree(rs);
  }

  // ----- indexing into the five sections -----

  lemma InSecond(a: seq<string>, b: seq<string>, c: seq<string>, d: seq<string>, e: seq<string>, i: nat)
    requires i < |b|
    ensures |a| + i < |a + b + c + d + e|
    ensures (a + b + c + d + e)[|a| + i] == b[i]
  {
    assert (a + b + c + d + e) == (a + b) + (c + d + e);
  }

  lemma InThird(a: seq<string>, b: seq<string>, c: seq<string>, d: seq<string>, e: seq<string>, i: nat)
    requires i < |c|
    ensures |a| + |b| + i < |a + b + c + d + e|
    ensures (a + b + c + d + e)[|a| + |b| + i] == c[i]
  {
    assert (a + b + c + d + e) == (a + b) + c + (d + e);
  }

  lemma InFourth(a: seq<string>, b: seq<string>, c: seq<string>, d: seq<string>, e: seq<string>, i: nat)
    requires i < |d|
    ensures |a| + |b| + |c| + i < |a + b + c + d + e|
    ensures (a + b + c + d + e)[|a| + |b| + |c| + i] == d[i]
  {
    assert (a + b + c + d + e) == (a + b + c) + d + e;
  }
}
