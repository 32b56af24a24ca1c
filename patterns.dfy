/** Failure-pattern detection. The failing results are grouped by their error
    string (a missing error reads as "Unknown error"); a signature shared by at least
    `Threshold` failing results is a pattern. `identify_problematic_patterns` reports
    each pattern's frequency and test indices; `analyze_error_patterns` repeats the
    grouping and reports the affected providers, prompts and the first instance's
    variables. */
module Patterns {
  import opened Records
  import opened Seqs

  /** A signature is reported when it occurs at least this often. */
  const Threshold: nat := 3

  /** The failing results whose error signature is `e`, in input order. */
  function ErrorGroup(rs: seq<TestResult>, e: string): (g: seq<TestResult>)
    ensures |g| <= |rs|
    ensures forall i :: 0 <= i < |g| ==> !g[i].success && ErrorOf(g[i]) == e
    ensures forall i :: 0 <= i < |g| ==> g[i] in rs
  {
    if rs == [] then []
    else
      var front, r := rs[..|rs| - 1], rs[|rs| - 1];
      var g := ErrorGroup(front, e);
      assert forall i :: 0 <= i < |g| ==> g[i] in rs by {
        assert forall x :: x in front ==> x in rs;
      }
      if !r.success && ErrorOf(r) == e then g + [r] else g
  }

  /** The error signatures of the failing results, in input order. */
  function FailureErrors(rs: seq<TestResult>): (es: seq<string>)
    ensures |es| + |Successes(rs)| == |rs|
  {
    if rs == [] then []
    else
      var front, r := rs[..|rs| - 1], rs[|rs| - 1];
      if r.success then FailureErrors(front) else FailureErrors(front) + [ErrorOf(r)]
  }

  /** A signature is listed exactly when some failing result carries it. */
  lemma {:induction false} FailureErrorsIff(rs: seq<TestResult>, e: string)
    ensures e in FailureErrors(rs) <==> exists i :: 0 <= i < |rs| && !rs[i].success && ErrorOf(rs[i]) == e
  {
    if rs != [] {
      var front := rs[..|rs| - 1];
      FailureErrorsIff(front, e);
      if exists i :: 0 <= i < |rs| && !rs[i].success && ErrorOf(rs[i]) == e {
        var i :| 0 <= i < |rs| && !rs[i].success && ErrorOf(rs[i]) == e;
        if i < |front| {
          assert front[i] == rs[i];
        }
      }
      if exists i :: 0 <= i < |front| && !front[i].success && ErrorOf(front[i]) == e {
        var i :| 0 <= i < |front| && !front[i].success && ErrorOf(front[i]) == e;
        assert rs[i] == front[i];
      }
    }
  }

  /** The keys of the grouping: distinct signatures in order of first appearance. */
  function Signatures(rs: seq<TestResult>): (sigs: seq<string>)
    ensures NoDup(sigs)
    ensures forall e :: e in sigs <==> e in FailureErrors(rs)
  {
    Distinct(FailureErrors(rs))
  }

  /** A signature only has failing results when it occurs among the failures. */
  lemma {:induction false} GroupNonEmpty(rs: seq<TestResult>, e: string)
    ensures |ErrorGroup(rs, e)| > 0 <==> e in FailureErrors(rs)
  {
    if rs != [] {
      var front, r := rs[..|rs| - 1], rs[|rs| - 1];
      GroupNonEmpty(front, e);
    }
  }

  lemma SignaturesLast(rs: seq<TestResult>)
    requires rs != []
    ensures var front, r := rs[..|rs| - 1], rs[|rs| - 1];
      Signatures(rs) ==
        if r.success || ErrorOf(r) in Signatures(front) then Signatures(front)
        else Signatures(front) + [ErrorOf(r)]
  {
    var front, r := rs[..|rs| - 1], rs[|rs| - 1];
    if !r.success {
      var es := FailureErrors(rs);
      assert es[..|es| - 1] == FailureErrors(front);
    }
  }

  lemma ErrorGroupSnoc(rs: seq<TestResult>, r: TestResult, e: string)
    ensures ErrorGroup(rs + [r], e) ==
      if !r.success && ErrorOf(r) == e then ErrorGroup(rs, e) + [r] else ErrorGroup(rs, e)
  {
    assert (rs + [r])[..|rs|] == rs;
  }

  lemma SignaturesSnoc(rs: seq<TestResult>, r: TestResult)
    ensures Signatures(rs + [r]) ==
      if r.success || ErrorOf(r) in Signatures(rs) then Signatures(rs) else Signatures(rs) + [ErrorOf(r)]
  {
    SignaturesLast(rs + [r]);
    assert (rs + [r])[..|rs|] == rs;
  }

  /** The failing results with signature `e` after one more result; a signature
      not seen so far had none. */
  lemma ErrorGroupStep(rs: seq<TestResult>, r: TestResult, e: string)
    ensures ErrorGroup(rs + [r], e) ==
      if r.success || ErrorOf(r) != e then ErrorGroup(rs, e)
      else (if e in Signatures(rs) then ErrorGroup(rs, e) else []) + [r]
  {
    ErrorGroupSnoc(rs, r, e);
    GroupNonEmpty(rs, e);
  }

  /** `groups[e].append(x)` on a `defaultdict(list)`. */
  function AppendTo<V>(groups: map<string, seq<V>>, e: string, x: V): map<string, seq<V>>
  {
    groups[e := (if e in groups then groups[e] else []) + [x]]
  }

  /** `groups` is the `error_patterns` dict of `identify_problematic_patterns` after
      the results `rs`: one entry per signature seen, holding its failing results. */
  ghost predicate TracksFailures(rs: seq<TestResult>, groups: map<string, seq<TestResult>>)
  {
    SignatureKeys(rs, groups) && FailureValues(rs, groups)
  }

  /** The keys of a dict keyed by signature after the results `rs`: the signatures
      of the failures among them. */
  ghost predicate SignatureKeys<V>(rs: seq<TestResult>, groups: map<string, V>)
  {
    forall e :: e in groups <==> e in Signatures(rs)
  }

  ghost predicate FailureValues(rs: seq<TestResult>, groups: map<string, seq<TestResult>>)
  {
    forall e :: e in groups ==> groups[e] == ErrorGroup(rs, e)
  }

  /** The keys of a dict keyed by signature after one more result: a failing
      result adds its signature. */
  lemma SignatureKeysSnoc<V>(rs: seq<TestResult>, r: TestResult, groups: map<string, V>, groups': map<string, V>)
    requires SignatureKeys(rs, groups)
    requires forall e :: e in groups' <==> e in groups || (!r.success && e == ErrorOf(r))
    ensures SignatureKeys(rs + [r], groups')
  {
    SignaturesSnoc(rs, r);
  }

  /** The loop body: a failing result is appended to the list of its signature,
      which the defaultdict creates empty when needed; a success changes nothing. */
  lemma TracksFailuresSnoc(rs: seq<TestResult>, r: TestResult, groups: map<string, seq<TestResult>>)
    requires TracksFailures(rs, groups)
    ensures var e := ErrorOf(r);
      TracksFailures(rs + [r],
        if r.success then groups else AppendTo(groups, e, r))
  {
    var sig := ErrorOf(r);
    var groups' := if r.success then groups else AppendTo(groups, sig, r);
    SignatureKeysSnoc(rs, r, groups, groups');
    FailureValuesSnoc(rs, r, groups, groups');
  }

  lemma FailureValuesSnoc(rs: seq<TestResult>, r: TestResult, groups: map<string, seq<TestResult>>,
                          groups': map<string, seq<TestResult>>)
    requires TracksFailures(rs, groups)
    requires var e := ErrorOf(r);
      groups' == if r.success then groups else AppendTo(groups, e, r)
    ensures FailureValues(rs + [r], groups')
  {
    forall e | e in groups'
      ensures groups'[e] == ErrorGroup(rs + [r], e)
    {
      ErrorGroupStep(rs, r, e);
    }
  }

  // ----- identify_problematic_patterns -----

  datatype ProblemPattern = ProblemPattern(error: string, frequency: nat, affectedTests: seq<int>)

  /** The `testIdx` values of a group, in input order. */
  function TestIdxs(g: seq<TestResult>): (ts: seq<int>)
    ensures |ts| == |g|
    ensures forall i :: 0 <= i < |g| ==> ts[i] == g[i].testIdx
  {
    if g == [] then [] else TestIdxs(g[..|g| - 1]) + [g[|g| - 1].testIdx]
  }

  /** The signatures of `sigs` that occur at least `Threshold` times, in the order of
      `sigs`: what both detectors report. */
  function Reported(rs: seq<TestResult>, sigs: seq<string>): (es: seq<string>)
    ensures |es| <= |sigs|
  {
    if sigs == [] then []
    else
      var e := sigs[|sigs| - 1];
      Reported(rs, sigs[..|sigs| - 1]) + (if |ErrorGroup(rs, e)| >= Threshold then [e] else [])
  }

  /** A signature is reported exactly when it is one of `sigs` and at least
      `Threshold` failing results carry it. */
  lemma {:induction false} ReportedIff(rs: seq<TestResult>, sigs: seq<string>, e: string)
    ensures e in Reported(rs, sigs) <==> e in sigs && |ErrorGroup(rs, e)| >= Threshold
  {
    if sigs != [] {
      var front := sigs[..|sigs| - 1];
      ReportedIff(rs, front, e);
      assert sigs == front + [sigs[|sigs| - 1]];
    }
  }

  /** The patterns among the signatures `sigs`, in the order of `sigs`: each carries a
      signature of `sigs` that meets the threshold, its exact count and its test
      indices. */
  function PatternsOver(rs: seq<TestResult>, sigs: seq<string>): (ps: seq<ProblemPattern>)
    ensures |ps| == |Reported(rs, sigs)|
    ensures forall k :: 0 <= k < |ps| ==> ps[k].error == Reported(rs, sigs)[k]
    ensures forall k :: 0 <= k < |ps| ==> ps[k].error in sigs
    ensures forall k :: 0 <= k < |ps| ==>
      && ps[k].frequency == |ErrorGroup(rs, ps[k].error)| >= Threshold
      && ps[k].affectedTests == TestIdxs(ErrorGroup(rs, ps[k].error))
  {
    if sigs == [] then []
    else
      var front, e := sigs[..|sigs| - 1], sigs[|sigs| - 1];
      var g := ErrorGroup(rs, e);
      assert forall x :: x in front ==> x in sigs;
      var f := PatternsOver(rs, front);
      var t := if |g| >= Threshold then [ProblemPattern(e, |g|, TestIdxs(g))] else [];
      assert Reported(rs, sigs) == Reported(rs, front) + (if |g| >= Threshold then [e] else []);
      f + t
  }

  /** The list `identify_problematic_patterns` returns. */
  function ProblematicPatterns(rs: seq<TestResult>): seq<ProblemPattern>
  {
    PatternsOver(rs, Signatures(rs))
  }

  /** The patterns keep the order of `sigs`. */
  lemma {:induction false} PatternsOverOrder(rs: seq<TestResult>, sigs: seq<string>, k1: nat, k2: nat)
    requires NoDup(sigs)
    requires k1 < k2 < |PatternsOver(rs, sigs)|
    ensures IndexOf(sigs, PatternsOver(rs, sigs)[k1].error) < IndexOf(sigs, PatternsOver(rs, sigs)[k2].error)
  {
    var front, e := sigs[..|sigs| - 1], sigs[|sigs| - 1];
    var pf, ps := PatternsOver(rs, front), PatternsOver(rs, sigs);
    assert NoDup(front);
    assert ps[k1] == pf[k1];
    IndexOfPrefix(sigs, front, pf[k1].error);
    if k2 < |pf| {
      assert ps[k2] == pf[k2];
      PatternsOverOrder(rs, front, k1, k2);
      IndexOfPrefix(sigs, front, pf[k2].error);
    } else {
      assert ps[k2].error == e;
      assert e !in front by {
        assert forall j :: 0 <= j < |front| ==> front[j] == sigs[j];
      }
      IndexOfLast(sigs, e);
    }
  }

  /** A signature is reported if and only if it occurs at least `Threshold` times
      among the failing results. */
  lemma PatternIff(rs: seq<TestResult>, e: string)
    ensures (exists k :: 0 <= k < |ProblematicPatterns(rs)| && ProblematicPatterns(rs)[k].error == e)
        <==> |ErrorGroup(rs, e)| >= Threshold
  {
    var ps := ProblematicPatterns(rs);
    if |ErrorGroup(rs, e)| >= Threshold {
      GroupNonEmpty(rs, e);
      PatternPresent(rs, Signatures(rs), e);
    }
    if k :| 0 <= k < |ps| && ps[k].error == e {
      assert ps[k].frequency == |ErrorGroup(rs, e)|;
    }
  }

  lemma {:induction false} PatternPresent(rs: seq<TestResult>, sigs: seq<string>, e: string)
    requires e in sigs && |ErrorGroup(rs, e)| >= Threshold
    ensures exists k :: 0 <= k < |PatternsOver(rs, sigs)| && PatternsOver(rs, sigs)[k].error == e
  {
    var front, last := sigs[..|sigs| - 1], sigs[|sigs| - 1];
    var ps := PatternsOver(rs, sigs);
    if last == e {
      assert ps[|ps| - 1].error == e;
    } else {
      assert e in front;
      PatternPresent(rs, front, e);
      var k :| 0 <= k < |PatternsOver(rs, front)| && PatternsOver(rs, front)[k].error == e;
      assert ps[k] == PatternsOver(rs, front)[k];
    }
  }

  /** Each pattern's frequency is the exact number of failing results with its
      signature, and there are as many test indices as the frequency. */
  lemma PatternFields(rs: seq<TestResult>, k: nat)
    requires k < |ProblematicPatterns(rs)|
    ensures var p := ProblematicPatterns(rs)[k];
      && p.frequency == |ErrorGroup(rs, p.error)| >= Threshold
      && |p.affectedTests| == p.frequency
      && forall j :: 0 <= j < p.frequency ==> p.affectedTests[j] == ErrorGroup(rs, p.error)[j].testIdx
  {
  }

  /** Patterns come out in the order in which their signatures first appear among
      the failing results, each signature at most once. */
  lemma PatternOrder(rs: seq<TestResult>, k1: nat, k2: nat)
    requires k1 < k2 < |ProblematicPatterns(rs)|
    ensures var ps := ProblematicPatterns(rs);
      && ps[k1].error in FailureErrors(rs) && ps[k2].error in FailureErrors(rs)
      && IndexOf(FailureErrors(rs), ps[k1].error) < IndexOf(FailureErrors(rs), ps[k2].error)
  {
    var sigs := Signatures(rs);
    var ps := ProblematicPatterns(rs);
    PatternsOverOrder(rs, sigs, k1, k2);
    var i, j := IndexOf(sigs, ps[k1].error), IndexOf(sigs, ps[k2].error);
    DistinctFirstAppearance(FailureErrors(rs), i, j);
  }

  // ----- analyze_error_patterns -----

  /** What the second detector records of each failing result. */
  datatype Instance = Instance(testIdx: int, provider: string, vars: Vars, prompt: string)

  /** The record as the dict of lines 131-136 holds it: the result's own test index
      and provider, its variables (`{}` when absent) and its prompt. */
  function InstanceOf(r: TestResult): (i: Instance)
    ensures i.testIdx == r.testIdx && i.provider == r.provider
    ensures i.vars == VarsOf(r) && i.prompt == PromptOf(r)
  {
    Instance(r.testIdx, r.provider, VarsOf(r), PromptOf(r))
  }

  function Instances(g: seq<TestResult>): (insts: seq<Instance>)
    ensures |insts| == |g|
    ensures forall i :: 0 <= i < |g| ==> insts[i] == InstanceOf(g[i])
  {
    if g == [] then [] else Instances(g[..|g| - 1]) + [InstanceOf(g[|g| - 1])]
  }

  lemma InstancesSnoc(g: seq<TestResult>, r: TestResult)
    ensures Instances(g + [r]) == Instances(g) + [InstanceOf(r)]
  {
    assert (g + [r])[..|g|] == g;
  }

  /** `groups` is the `error_patterns` dict of `analyze_error_patterns` after the
      results `rs`: one entry per signature seen, holding the records of its
      failing results. */
  ghost predicate TracksInstances(rs: seq<TestResult>, groups: map<string, seq<Instance>>)
  {
    SignatureKeys(rs, groups) && InstanceValues(rs, groups)
  }

  ghost predicate InstanceValues(rs: seq<TestResult>, groups: map<string, seq<Instance>>)
  {
    forall e :: e in groups ==> groups[e] == Instances(ErrorGroup(rs, e))
  }

  /** The records of the failing results with signature `e` after one more result. */
  lemma InstanceGroupStep(rs: seq<TestResult>, r: TestResult, e: string)
    ensures Instances(ErrorGroup(rs + [r], e)) ==
      if r.success || ErrorOf(r) != e then Instances(ErrorGroup(rs, e))
      else (if e in Signatures(rs) then Instances(ErrorGroup(rs, e)) else []) + [InstanceOf(r)]
  {
    ErrorGroupStep(rs, r, e);
    if !r.success && e == ErrorOf(r) {
      InstancesSnoc(if e in Signatures(rs) then ErrorGroup(rs, e) else [], r);
    }
  }

  /** The loop body: a failing result's record is appended to the list of its
      signature; a success changes nothing. */
  lemma TracksInstancesSnoc(rs: seq<TestResult>, r: TestResult, groups: map<string, seq<Instance>>)
    requires TracksInstances(rs, groups)
    ensures var e := ErrorOf(r);
      TracksInstances(rs + [r],
        if r.success then groups else AppendTo(groups, e, InstanceOf(r)))
  {
    var sig := ErrorOf(r);
    var groups' := if r.success then groups else AppendTo(groups, sig, InstanceOf(r));
    SignatureKeysSnoc(rs, r, groups, groups');
    InstanceValuesSnoc(rs, r, groups, groups');
  }

  lemma InstanceValuesSnoc(rs: seq<TestResult>, r: TestResult, groups: map<string, seq<Instance>>,
                           groups': map<string, seq<Instance>>)
    requires TracksInstances(rs, groups)
    requires var e := ErrorOf(r);
      groups' == if r.success then groups else AppendTo(groups, e, InstanceOf(r))
    ensures InstanceValues(rs + [r], groups')
  {
    forall e | e in groups'
      ensures groups'[e] == Instances(ErrorGroup(rs + [r], e))
    {
      InstanceGroupStep(rs, r, e);
    }
  }

  datatype ErrorInsight = ErrorInsight(
    error: string,
    frequency: nat,
    affectedModels: set<string>,
    affectedPrompts: set<string>,
    exampleVars: Vars)

  /** The providers of the instances; no more of them than instances. */
  function Models(insts: seq<Instance>): (ms: set<string>)
    ensures forall k :: 0 <= k < |insts| ==> insts[k].provider in ms
    ensures |ms| <= |insts|
  {
    if insts == [] then {} else Models(insts[..|insts| - 1]) + {insts[|insts| - 1].provider}
  }

  /** Every provider in `Models(insts)` is the provider of one of the instances. */
  lemma {:induction false} ModelsOnly(insts: seq<Instance>, m: string)
    requires m in Models(insts)
    ensures exists k :: 0 <= k < |insts| && insts[k].provider == m
  {
    var front := insts[..|insts| - 1];
    if m != insts[|insts| - 1].provider {
      ModelsOnly(front, m);
      var k :| 0 <= k < |front| && front[k].provider == m;
      assert insts[k] == front[k];
    }
  }

  /** The prompts of the instances; no more of them than instances. */
  function Prompts(insts: seq<Instance>): (ps: set<string>)
    ensures forall k :: 0 <= k < |insts| ==> insts[k].prompt in ps
    ensures |ps| <= |insts|
  {
    if insts == [] then {} else Prompts(insts[..|insts| - 1]) + {insts[|insts| - 1].prompt}
  }

  /** Every prompt in `Prompts(insts)` is the prompt of one of the instances. */
  lemma {:induction false} PromptsOnly(insts: seq<Instance>, q: string)
    requires q in Prompts(insts)
    ensures exists k :: 0 <= k < |insts| && insts[k].prompt == q
  {
    var front := insts[..|insts| - 1];
    if q != insts[|insts| - 1].prompt {
      PromptsOnly(front, q);
      var k :| 0 <= k < |front| && front[k].prompt == q;
      assert insts[k] == front[k];
    }
  }

  function InsightOf(e: string, insts: seq<Instance>): ErrorInsight
    requires |insts| > 0
  {
    ErrorInsight(e, |insts|, Models(insts), Prompts(insts), insts[0].vars)
  }

  /** The insights among the signatures `sigs`: one per reported signature, in the
      same order, built from that signature's failing results. */
  function InsightsOver(rs: seq<TestResult>, sigs: seq<string>): (ins: seq<ErrorInsight>)
    ensures |ins| == |Reported(rs, sigs)|
    ensures forall k :: 0 <= k < |ins| ==>
      ins[k].error == Reported(rs, sigs)[k] && ins[k].frequency == |ErrorGroup(rs, ins[k].error)|
  {
    if sigs == [] then []
    else
      var e := sigs[|sigs| - 1];
      var insts := Instances(ErrorGroup(rs, e));
      var f := InsightsOver(rs, sigs[..|sigs| - 1]);
      var t := if |insts| >= Threshold then [InsightOf(e, insts)] else [];
      assert Reported(rs, sigs) == Reported(rs, sigs[..|sigs| - 1])
        + (if |insts| >= Threshold then [e] else []);
      f + t
  }

  /** Each insight is built from the failing results of its signature, which
      meets the threshold. */
  lemma {:induction false} InsightsOverAt(rs: seq<TestResult>, sigs: seq<string>, k: nat)
    requires k < |InsightsOver(rs, sigs)|
    ensures var e := InsightsOver(rs, sigs)[k].error;
      && |ErrorGroup(rs, e)| >= Threshold
      && InsightsOver(rs, sigs)[k] == InsightOf(e, Instances(ErrorGroup(rs, e)))
  {
    var front := sigs[..|sigs| - 1];
    var f := InsightsOver(rs, front);
    if k < |f| {
      InsightsOverAt(rs, front, k);
      assert InsightsOver(rs, sigs)[k] == f[k];
    }
  }

  /** One more signature for `InsightsOver`. */
  lemma InsightsOverSnoc(rs: seq<TestResult>, sigs: seq<string>, j: nat)
    requires j < |sigs|
    ensures var insts := Instances(ErrorGroup(rs, sigs[j]));
      InsightsOver(rs, sigs[..j + 1]) ==
        InsightsOver(rs, sigs[..j]) + (if |insts| >= Threshold then [InsightOf(sigs[j], insts)] else [])
  {
    assert sigs[..j + 1][..j] == sigs[..j];
  }

  /** The list `analyze_error_patterns` returns. */
  function ErrorInsights(rs: seq<TestResult>): seq<ErrorInsight>
  {
    InsightsOver(rs, Signatures(rs))
  }

  /** The two detectors find the same signatures, with the same frequencies, in the
      same order. */
  lemma DetectorsAgree(rs: seq<TestResult>)
    ensures |ErrorInsights(rs)| == |ProblematicPatterns(rs)|
    ensures forall k :: 0 <= k < |ProblematicPatterns(rs)| ==>
      && ErrorInsights(rs)[k].error == ProblematicPatterns(rs)[k].error
      && ErrorInsights(rs)[k].frequency == ProblematicPatterns(rs)[k].frequency
  {
  }

  /** The sets of a group's instances: the providers are providers of the input,
      there are no more of them than instances, and the example variables are those of
      the first failing result with that signature. */
  lemma {:induction false} InsightOfGroup(rs: seq<TestResult>, e: string)
    requires |ErrorGroup(rs, e)| > 0
    ensures var g := ErrorGroup(rs, e);
      var ins := InsightOf(e, Instances(g));
      && (forall m :: m in ins.affectedModels ==> m in ProviderIds(rs))
      && |ins.affectedModels| <= ins.frequency == |g|
      && |ins.affectedPrompts| <= ins.frequency
      && ins.exampleVars == VarsOf(g[0])
  {
    var g := ErrorGroup(rs, e);
    var insts := Instances(g);
    forall m | m in Models(insts) ensures m in ProviderIds(rs) {
      ModelsOnly(insts, m);
      var k :| 0 <= k < |insts| && insts[k].provider == m;
      var j :| 0 <= j < |rs| && rs[j] == g[k];
      assert ProviderIds(rs)[j] == m;
    }
  }

  /** Each insight's providers are providers of the input, at most as many as its
      frequency; its example variables are those of its first failing result, `{}`
      when that result has none. */
  lemma InsightFacts(rs: seq<TestResult>, k: nat)
    requires k < |ErrorInsights(rs)|
    ensures var ins := ErrorInsights(rs)[k];
      var g := ErrorGroup(rs, ins.error);
      && |g| >= Threshold && ins.frequency == |g|
      && (forall m :: m in ins.affectedModels ==> m in ProviderIds(rs))
      && |ins.affectedModels| <= ins.frequency
      && |ins.affectedPrompts| <= ins.frequency
      && ins.exampleVars == VarsOf(g[0])
  {
    InsightsOverAt(rs, Signatures(rs), k);
    InsightOfGroup(rs, ErrorInsights(rs)[k].error);
  }
}
