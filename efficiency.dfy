/** Cost efficiency (`analyze_cost_efficiency`): for every provider with at least
    one successful result, the cost of its successful results divided by their
    number; the pairs are sorted by that quotient with a stable sort, and the first
    and the last pair of the sorted list are reported together with the spread. */
module Efficiency {
  import opened Records
  import opened Seqs
  import opened Performance

  /** A `(provider, cost per successful test)` pair. */
  type Efficiency = (string, real)

  // ----- the accumulation over successful results -----

  /** The keys of `cost_per_success`: only a successful result touches the dict, so
      these are the providers of the successful results, in order of first appearance. */
  function SuccessProviders(rs: seq<TestResult>): (ps: seq<string>)
    ensures NoDup(ps)
    ensures forall p :: p in ps <==> p in ProviderIds(Successes(rs))
  {
    Providers(Successes(rs))
  }

  /** Every key of `cost_per_success` has at least one success. */
  lemma SuccessProvidersHaveSuccesses(rs: seq<TestResult>, p: string)
    requires p in SuccessProviders(rs)
    ensures |Group(Successes(rs), p)| >= 1
  {
  }

  /** A `cost_per_success` entry: `{'cost': ..., 'successes': ...}`. */
  datatype CostAcc = CostAcc(cost: real, successes: nat)

  /** The entry of a provider whose successful results are `g`. */
  function CostAccOf(g: seq<TestResult>): CostAcc
  {
    CostAcc(TotalCost(g), |g|)
  }

  /** One successful result added to an entry. */
  function AddSuccess(a: CostAcc, r: TestResult): CostAcc
  {
    CostAcc(a.cost + CostOf(r), a.successes + 1)
  }

  /** `acc` is the `cost_per_success` dict after the successful results `ss`: one
      entry per provider, holding the cost and the number of its results. */
  ghost predicate TracksSuccessCosts(ss: seq<TestResult>, acc: map<string, CostAcc>)
  {
    CostKeys(ss, acc) && CostValues(ss, acc)
  }

  /** The keys of `acc` are the providers of `ss`. */
  ghost predicate CostKeys(ss: seq<TestResult>, acc: map<string, CostAcc>)
  {
    forall p :: p in acc <==> p in Providers(ss)
  }

  /** Every entry of `acc` is the one its provider's results in `ss` give. */
  ghost predicate CostValues(ss: seq<TestResult>, acc: map<string, CostAcc>)
  {
    forall p :: p in acc ==> acc[p] == CostAccOf(Group(ss, p))
  }

  /** The entry `acc` holds for a provider of `ss`. */
  lemma CostEntry(ss: seq<TestResult>, acc: map<string, CostAcc>, p: string)
    requires TracksSuccessCosts(ss, acc)
    requires p in Providers(ss)
    ensures p in acc && acc[p] == CostAccOf(Group(ss, p))
  {
  }

  lemma SuccessesSnoc(rs: seq<TestResult>, r: TestResult)
    ensures Successes(rs + [r]) == if r.success then Successes(rs) + [r] else Successes(rs)
  {
    assert (rs + [r])[..|rs|] == rs;
  }

  /** The entry of provider `q` after one more successful result. */
  lemma CostAccOfSnoc(ss: seq<TestResult>, r: TestResult, q: string)
    ensures CostAccOf(Group(ss + [r], q)) ==
      if q != r.provider then CostAccOf(Group(ss, q))
      else AddSuccess(if q in Providers(ss) then CostAccOf(Group(ss, q)) else CostAcc(0.0, 0), r)
  {
    GroupSnoc(ss, r, q);
    if q == r.provider {
      var g := Group(ss, q);
      assert (g + [r])[..|g|] == g;
      assert TotalCost(g + [r]) == TotalCost(g) + CostOf(r);
      if q !in Providers(ss) {
        assert g == [];
      }
    }
  }

  /** The loop body for a successful result: it adds its cost and one success to
      its provider's entry, which the defaultdict creates empty when needed. */
  lemma TracksSuccessCostsSnoc(ss: seq<TestResult>, r: TestResult, acc: map<string, CostAcc>)
    requires TracksSuccessCosts(ss, acc)
    ensures var p := r.provider;
      TracksSuccessCosts(ss + [r], acc[p := AddSuccess(if p in acc then acc[p] else CostAcc(0.0, 0), r)])
  {
    var p := r.provider;
    var acc' := acc[p := AddSuccess(if p in acc then acc[p] else CostAcc(0.0, 0), r)];
    SuccessCostKeys(ss, r, acc, acc');
    SuccessCostValues(ss, r, acc, acc');
  }

  lemma SuccessCostKeys(ss: seq<TestResult>, r: TestResult, acc: map<string, CostAcc>, acc': map<string, CostAcc>)
    requires CostKeys(ss, acc)
    requires forall q :: q in acc' <==> q in acc || q == r.provider
    ensures CostKeys(ss + [r], acc')
  {
    ProvidersSnoc(ss, r);
  }

  lemma SuccessCostValues(ss: seq<TestResult>, r: TestResult, acc: map<string, CostAcc>, acc': map<string, CostAcc>)
    requires TracksSuccessCosts(ss, acc)
    requires var p := r.provider; acc' == acc[p := AddSuccess(if p in acc then acc[p] else CostAcc(0.0, 0), r)]
    ensures CostValues(ss + [r], acc')
  {
    forall q | q in acc'
      ensures acc'[q] == CostAccOf(Group(ss + [r], q))
    {
      CostAccOfSnoc(ss, r, q);
    }
  }

  lemma EfficienciesOverSnoc(rs: seq<TestResult>, ks: seq<string>, j: nat)
    requires j < |ks|
    ensures var g := Group(Successes(rs), ks[j]);
      EfficienciesOver(rs, ks[..j + 1]) ==
        EfficienciesOver(rs, ks[..j]) + (if |g| > 0 then [(ks[j], TotalCost(g) / (|g| as real))] else [])
  {
    assert ks[..j + 1][..j] == ks[..j];
  }

  /** The pair `e` holds a provider with successes and the cost of its successful
      results divided by their number. */
  predicate EfficiencyOf(rs: seq<TestResult>, e: Efficiency)
  {
    var g := Group(Successes(rs), e.0);
    |g| > 0 && e.1 == TotalCost(g) / (|g| as real)
  }

  /** The efficiencies for the keys `ks`, in the order of `ks`, skipping a key
      without successes. */
  function EfficienciesOver(rs: seq<TestResult>, ks: seq<string>): (es: seq<Efficiency>)
    ensures |es| <= |ks|
    ensures forall i :: 0 <= i < |es| ==> es[i].0 in ks && EfficiencyOf(rs, es[i])
  {
    if ks == [] then []
    else
      var p := ks[|ks| - 1];
      var g := Group(Successes(rs), p);
      EfficienciesOver(rs, ks[..|ks| - 1])
        + (if |g| > 0 then [(p, TotalCost(g) / (|g| as real))] else [])
  }

  /** No two pairs name the same provider. */
  predicate DistinctProviders(es: seq<Efficiency>)
  {
    forall i, j :: 0 <= i < j < |es| ==> es[i].0 != es[j].0
  }

  lemma DistinctProvidersSnoc(f: seq<Efficiency>, x: Efficiency, ks: seq<string>)
    requires DistinctProviders(f)
    requires forall i :: 0 <= i < |f| ==> f[i].0 in ks
    requires x.0 !in ks
    ensures DistinctProviders(f + [x])
  {
    var es := f + [x];
    forall i, j | 0 <= i < j < |es| ensures es[i].0 != es[j].0 {
      assert es[i] == f[i];
      if j < |f| {
        assert es[j] == f[j];
      }
    }
  }

  /** Over duplicate-free keys, no two pairs name the same provider. */
  lemma {:induction false} EfficienciesOverDistinct(rs: seq<TestResult>, ks: seq<string>)
    requires NoDup(ks)
    ensures DistinctProviders(EfficienciesOver(rs, ks))
  {
    if ks != [] {
      var front, p := ks[..|ks| - 1], ks[|ks| - 1];
      assert NoDup(front) by {
        forall i, j | 0 <= i < j < |front| ensures front[i] != front[j] {
          assert front[i] == ks[i] && front[j] == ks[j];
        }
      }
      assert p !in front by {
        forall k | 0 <= k < |front| ensures front[k] != p {
          assert front[k] == ks[k];
        }
      }
      EfficienciesOverDistinct(rs, front);
      var g := Group(Successes(rs), p);
      if |g| > 0 {
        DistinctProvidersSnoc(EfficienciesOver(rs, front), (p, TotalCost(g) / (|g| as real)), front);
      }
    }
  }

  /** The list `efficiencies` before sorting. */
  function Efficiencies(rs: seq<TestResult>): seq<Efficiency>
  {
    EfficienciesOver(rs, SuccessProviders(rs))
  }

  lemma {:induction false} EfficienciesOverAll(rs: seq<TestResult>, ks: seq<string>)
    requires forall k :: k in ks ==> k in ProviderIds(Successes(rs))
    ensures |EfficienciesOver(rs, ks)| == |ks|
    ensures forall i :: 0 <= i < |ks| ==> EfficienciesOver(rs, ks)[i].0 == ks[i]
  {
    if ks != [] {
      var front := ks[..|ks| - 1];
      assert forall k :: k in front ==> k in ks;
      EfficienciesOverAll(rs, front);
      var p := ks[|ks| - 1];
      var g := Group(Successes(rs), p);
      assert p in ks;
      assert |g| > 0;
      var ef, es := EfficienciesOver(rs, front), EfficienciesOver(rs, ks);
      assert es == ef + [(p, TotalCost(g) / (|g| as real))];
      forall i | 0 <= i < |ks|
        ensures es[i].0 == ks[i]
      {
        if i < |front| {
          assert es[i] == ef[i] && ks[i] == front[i];
        }
      }
    }
  }

  /** The filter `stats['successes'] > 0` never drops a provider: there is one pair
      per provider with a successful result, in order of first appearance. */
  lemma EfficienciesCoverSuccessProviders(rs: seq<TestResult>)
    ensures |Efficiencies(rs)| == |SuccessProviders(rs)|
    ensures forall i :: 0 <= i < |Efficiencies(rs)| ==> Efficiencies(rs)[i].0 == SuccessProviders(rs)[i]
  {
    EfficienciesOverAll(rs, SuccessProviders(rs));
  }

  /** There is a pair exactly when some result succeeded. */
  lemma EfficienciesNonEmpty(rs: seq<TestResult>)
    ensures Efficiencies(rs) != [] <==> Successes(rs) != []
  {
    EfficienciesCoverSuccessProviders(rs);
    if Successes(rs) != [] {
      var ids := ProviderIds(Successes(rs));
      assert ids[0] in SuccessProviders(rs);
    }
  }

  // ----- the stable sort by efficiency -----

  predicate SortedByEff(s: seq<Efficiency>)
  {
    forall i, j :: 0 <= i < j < |s| ==> s[i].1 <= s[j].1
  }

  /** Insert `x` into `t` after every pair whose efficiency is at most that of `x`:
      the step of a stable insertion sort. */
  function Insert(t: seq<Efficiency>, x: Efficiency): (u: seq<Efficiency>)
    ensures |u| == |t| + 1
  {
    if t == [] || t[|t| - 1].1 <= x.1 then t + [x]
    else Insert(t[..|t| - 1], x) + [t[|t| - 1]]
  }

  /** `efficiencies.sort(key=lambda x: x[1])`: stable, so pairs with equal
      efficiency keep their order. */
  function SortByEff(xs: seq<Efficiency>): (s: seq<Efficiency>)
    ensures |s| == |xs|
  {
    if xs == [] then [] else Insert(SortByEff(xs[..|xs| - 1]), xs[|xs| - 1])
  }

  /** Inserting a pair keeps every efficiency at most a bound that `t` and `x` keep. */
  lemma {:induction false} InsertBound(t: seq<Efficiency>, x: Efficiency, b: real)
    requires forall i :: 0 <= i < |t| ==> t[i].1 <= b
    requires x.1 <= b
    ensures forall i :: 0 <= i < |Insert(t, x)| ==> Insert(t, x)[i].1 <= b
  {
    if t != [] && t[|t| - 1].1 > x.1 {
      InsertBound(t[..|t| - 1], x, b);
    }
  }

  lemma {:induction false} InsertSorted(t: seq<Efficiency>, x: Efficiency)
    requires SortedByEff(t)
    ensures SortedByEff(Insert(t, x))
  {
    if t != [] && t[|t| - 1].1 > x.1 {
      var front, y := t[..|t| - 1], t[|t| - 1];
      InsertSorted(front, x);
      InsertBound(front, x, y.1);
    }
  }

  lemma {:induction false} InsertMultiset(t: seq<Efficiency>, x: Efficiency)
    ensures multiset(Insert(t, x)) == multiset(t) + multiset{x}
  {
    if t != [] && t[|t| - 1].1 > x.1 {
      var front, y := t[..|t| - 1], t[|t| - 1];
      InsertMultiset(front, x);
      assert t == front + [y];
    }
  }

  /** The sorted list is ordered by efficiency and holds the same pairs. */
  lemma {:induction false} SortByEffFacts(xs: seq<Efficiency>)
    ensures SortedByEff(SortByEff(xs))
    ensures multiset(SortByEff(xs)) == multiset(xs)
  {
    if xs != [] {
      var front := xs[..|xs| - 1];
      SortByEffFacts(front);
      InsertSorted(SortByEff(front), xs[|xs| - 1]);
      InsertMultiset(SortByEff(front), xs[|xs| - 1]);
      assert xs == front + [xs[|xs| - 1]];
    }
  }

  /** The index of the first pair of least efficiency. */
  function FirstMin(xs: seq<Efficiency>): (m: nat)
    requires xs != []
    ensures m < |xs|
    ensures forall j :: 0 <= j < |xs| ==> xs[m].1 <= xs[j].1
    ensures forall j :: 0 <= j < m ==> xs[m].1 < xs[j].1
  {
    if |xs| == 1 then 0
    else
      var m := FirstMin(xs[..|xs| - 1]);
      if xs[|xs| - 1].1 < xs[m].1 then |xs| - 1 else m
  }

  /** The index of the last pair of greatest efficiency. */
  function LastMax(xs: seq<Efficiency>): (m: nat)
    requires xs != []
    ensures m < |xs|
    ensures forall j :: 0 <= j < |xs| ==> xs[j].1 <= xs[m].1
    ensures forall j :: m < j < |xs| ==> xs[j].1 < xs[m].1
  {
    if |xs| == 1 then 0
    else
      var m := LastMax(xs[..|xs| - 1]);
      if xs[|xs| - 1].1 >= xs[m].1 then |xs| - 1 else m
  }

  lemma InsertEnds(t: seq<Efficiency>, x: Efficiency)
    requires t != [] && SortedByEff(t)
    ensures Insert(t, x)[0] == if x.1 < t[0].1 then x else t[0]
    ensures Insert(t, x)[|t|] == if t[|t| - 1].1 <= x.1 then x else t[|t| - 1]
  {
    if t[|t| - 1].1 > x.1 {
      var front := t[..|t| - 1];
      if front == [] {
        assert Insert(t, x) == [x, t[0]];
      } else {
        InsertEnds(front, x);
        assert front[0] == t[0];
      }
    }
  }

  /** Because the sort is stable, its first pair is the first pair of least
      efficiency and its last pair the last pair of greatest efficiency. */
  lemma {:induction false} SortByEffEnds(xs: seq<Efficiency>)
    requires xs != []
    ensures SortByEff(xs)[0] == xs[FirstMin(xs)]
    ensures SortByEff(xs)[|xs| - 1] == xs[LastMax(xs)]
  {
    if |xs| > 1 {
      var front, x := xs[..|xs| - 1], xs[|xs| - 1];
      var s := SortByEff(front);
      SortByEffEnds(front);
      SortByEffFacts(front);
      InsertEnds(s, x);
      assert xs[FirstMin(front)] == front[FirstMin(front)];
      assert xs[LastMax(front)] == front[LastMax(front)];
    }
  }

  // ----- the insight -----

  datatype CostInsight = CostInsight(mostEfficient: Efficiency, leastEfficient: Efficiency, efficiencyRange: real)

  /** `least_efficient[1] - most_efficient[1]` */
  function Spread(most: Efficiency, least: Efficiency): real
  {
    least.1 - most.1
  }

  /** The list `analyze_cost_efficiency` returns: empty, or one insight built from
      the ends of the sorted pairs. */
  function CostInsightOf(sorted: seq<Efficiency>): (ins: seq<CostInsight>)
    ensures |ins| <= 1
    ensures |ins| == 1 <==> sorted != []
  {
    if sorted == [] then []
    else
      var lo, hi := sorted[0], sorted[|sorted| - 1];
      [CostInsight(lo, hi, Spread(lo, hi))]
  }

  function CostEfficiency(rs: seq<TestResult>): seq<CostInsight>
  {
    CostInsightOf(SortByEff(Efficiencies(rs)))
  }

  /** The insight names the first cheapest and the last dearest provider per
      successful test, the spread is never negative, and there is an insight exactly
      when some result succeeded. */
  lemma CostEfficiencyFacts(rs: seq<TestResult>)
    ensures |CostEfficiency(rs)| == 1 <==> Successes(rs) != []
    ensures var es := Efficiencies(rs);
      CostEfficiency(rs) != [] ==>
        && CostEfficiency(rs)[0].mostEfficient == es[FirstMin(es)]
        && CostEfficiency(rs)[0].leastEfficient == es[LastMax(es)]
        && CostEfficiency(rs)[0].efficiencyRange >= 0.0
  {
    var es := Efficiencies(rs);
    EfficienciesNonEmpty(rs);
    if es != [] {
      SortByEffEnds(es);
    }
  }

  /** `efficiencies.sort(...)` on an array: a stable insertion sort in place. */
  method SortInPlace(a: array<Efficiency>)
    modifies a
    ensures a[..] == SortByEff(old(a[..]))
  {
    ghost var xs := a[..];
    for i := 0 to a.Length
      invariant a[..i] == SortByEff(xs[..i])
      invariant a[i..] == xs[i..]
    {
      assert xs[..i + 1][..i] == xs[..i];
      InsertLast(a, i);
    }
    assert a[..] == a[..a.Length] && xs == xs[..a.Length];
  }

  /** Moves `a[i]` to its place in the sorted prefix `a[..i]`, shifting the larger
      pairs one place to the right. */
  method InsertLast(a: array<Efficiency>, i: nat)
    requires i < a.Length
    modifies a
    ensures a[..i + 1] == Insert(old(a[..i]), old(a[i]))
    ensures a[i + 1..] == old(a[i + 1..])
  {
    var x := a[i];
    ghost var t := a[..i];
    var j := i;
    while j > 0 && a[j - 1].1 > x.1
      invariant 0 <= j <= i
      invariant forall k :: 0 <= k < j ==> a[k] == t[k]
      invariant forall k :: j < k <= i ==> a[k] == t[k - 1]
      invariant a[i + 1..] == old(a[i + 1..])
      invariant forall k :: j <= k < i ==> t[k].1 > x.1
    {
      a[j] := a[j - 1];
      j := j - 1;
    }
    a[j] := x;
    InsertSplit(t, j, x);
    ghost var u := t[..j] + [x] + t[j..];
    assert forall k :: 0 <= k <= i ==> a[k] == u[k];
    assert a[..i + 1] == u;
  }

  /** `Insert` places `x` right after the last pair whose efficiency is at most its
      own. */
  lemma {:induction false} InsertSplit(t: seq<Efficiency>, j: nat, x: Efficiency)
    requires j <= |t| && (j == 0 || t[j - 1].1 <= x.1)
    requires forall k :: j <= k < |t| ==> t[k].1 > x.1
    ensures Insert(t, x) == t[..j] + [x] + t[j..]
  {
    if j < |t| {
      var front := t[..|t| - 1];
      InsertSplit(front, j, x);
      assert front[..j] == t[..j];
      assert t[j..] == front[j..] + [t[|t| - 1]];
    } else {
      assert t[..j] == t;
    }
  }
}
