/** The result set the analyzer works on: one record per evaluated test, plus the
    summary counters that accompany the list. Fields the analyzer reads with a
    plain subscript are required; fields it reads with a default are optional and
    the defaults are applied by the selector functions below. */
module Records {

  datatype Option<+T> = None | Some(value: T) {
    function GetOr(default: T): (r: T)
      ensures Some? ==> r == value
      ensures None? ==> r == default
    {
      match this
      case Some(v) => v
      case None => default
    }
  }

  /** Test variables, as a JSON object: name/value pairs in the file's order.
      Values are kept in their rendered form. */
  type Vars = seq<(string, string)>

  /** One test outcome: `provider.id`, `success`, `latencyMs` and `testIdx` are
      read unconditionally; `cost`, `error`, `vars` and `prompt.raw` have defaults. */
  datatype TestResult = TestResult(
    provider: string,
    success: bool,
    latencyMs: real,
    testIdx: int,
    cost: Option<real>,
    error: Option<string>,
    vars: Option<Vars>,
    promptRaw: Option<string>)

  /** The `stats` counters. */
  datatype Stats = Stats(successes: nat, failures: nat)

  const UnknownError: string := "Unknown error"

  /** `result.get('cost', 0)` */
  function CostOf(r: TestResult): (c: real)
    ensures r.cost.None? ==> c == 0.0
    ensures r.cost.Some? ==> c == r.cost.value
  {
    r.cost.GetOr(0.0)
  }

  /** `result.get('error', 'Unknown error')` */
  function ErrorOf(r: TestResult): (e: string)
    ensures r.error.None? ==> e == UnknownError
    ensures r.error.Some? ==> e == r.error.value
  {
    r.error.GetOr(UnknownError)
  }

  /** `result.get('vars', {})` */
  function VarsOf(r: TestResult): (v: Vars)
    ensures r.vars.None? ==> v == []
    ensures r.vars.Some? ==> v == r.vars.value
  {
    r.vars.GetOr([])
  }

  /** `result.get('prompt', {}).get('raw', '')` */
  function PromptOf(r: TestResult): (p: string)
    ensures r.promptRaw.None? ==> p == ""
    ensures r.promptRaw.Some? ==> p == r.promptRaw.value
  {
    r.promptRaw.GetOr("")
  }

  /** The provider ids of the results, in input order. */
  function ProviderIds(rs: seq<TestResult>): (ids: seq<string>)
    ensures |ids| == |rs|
    ensures forall i :: 0 <= i < |rs| ==> ids[i] == rs[i].provider
  {
    if rs == [] then [] else ProviderIds(rs[..|rs| - 1]) + [rs[|rs| - 1].provider]
  }

  /** The successful results, in input order. */
  function Successes(rs: seq<TestResult>): (ss: seq<TestResult>)
    ensures |ss| <= |rs|
    ensures forall i :: 0 <= i < |ss| ==> ss[i].success
  {
    if rs == [] then []
    else
      var front := Successes(rs[..|rs| - 1]);
      if rs[|rs| - 1].success then front + [rs[|rs| - 1]] else front
  }

  /** The number of successful results. */
  function CountSuccesses(rs: seq<TestResult>): (n: nat)
    ensures n == |Successes(rs)|
  {
    if rs == [] then 0
    else CountSuccesses(rs[..|rs| - 1]) + (if rs[|rs| - 1].success then 1 else 0)
  }

  /** Sum of the costs, a missing cost counting as 0. */
  function TotalCost(rs: seq<TestResult>): real
  {
    if rs == [] then 0.0 else TotalCost(rs[..|rs| - 1]) + CostOf(rs[|rs| - 1])
  }

  /** Sum of a sequence of reals. */
  function Sum(xs: seq<real>): real
  {
    if xs == [] then 0.0 else Sum(xs[..|xs| - 1]) + xs[|xs| - 1]
  }
}
