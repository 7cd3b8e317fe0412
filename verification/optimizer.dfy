/** `src/optimization/optimizer.py`: parameter grids, the grid search over
    their Cartesian product, the ordering of its results and the fitness
    functions. The strategy runner and the fitness function are parameters;
    either may raise, which skips that combination. */
module Optimizer {
  import opened Common

  // ---------------------------------------------------------------------------
  // Parameter grids
  // ---------------------------------------------------------------------------

  datatype OptimizationParam = OptimizationParam(name: string, minValue: real, maxValue: real, step: real)

  /** The `get_values` loop never ends: the first value is within range and
      a step that is not positive never leaves it. */
  predicate Diverges(p: OptimizationParam)
  {
    p.minValue <= p.maxValue && p.step <= 0.0
  }

  /** The value after `i` steps. */
  function GridPoint(p: OptimizationParam, i: nat): real
  {
    p.minValue + (i as real) * p.step
  }

  /** The number of values the loop produces for a positive step: every
      point before it is within range and the point it stops at is not. */
  function GridCount(p: OptimizationParam): (n: nat)
    requires p.step > 0.0
    ensures p.minValue > p.maxValue ==> n == 0
    ensures forall i: nat :: i < n ==> GridPoint(p, i) <= p.maxValue
    ensures GridPoint(p, n) > p.maxValue
  {
    if p.minValue > p.maxValue then 0
    else
      var q := (p.maxValue - p.minValue) / p.step;
      var n := q.Floor + 1;
      forall i: nat | i < n
        ensures GridPoint(p, i) <= p.maxValue
      {
        GridStepBelow(i as real, q, p.step);
      }
      GridStepBelow(q, n as real, p.step);
      n
  }

  lemma GridStepBelow(a: real, b: real, step: real)
    requires step > 0.0 && a <= b
    ensures a * step <= b * step
  {
  }

  /** `get_values`: `min_value`, `min_value + step`, ... while the value does
      not exceed `max_value`; None stands for the loop that never ends. */
  function GetValues(p: OptimizationParam): (r: Option<seq<real>>)
    ensures r.None? <==> Diverges(p)
    ensures r.Some? ==> (|r.value| == 0 <==> p.minValue > p.maxValue)
    ensures r.Some? && |r.value| > 0 ==> r.value[0] == p.minValue
    ensures r.Some? ==> forall i :: 0 <= i < |r.value| ==> r.value[i] <= p.maxValue
    ensures r.Some? ==> forall i :: 0 <= i < |r.value| - 1 ==> r.value[i + 1] - r.value[i] == p.step
    ensures r.Some? && p.minValue <= p.maxValue ==> p.minValue + (|r.value| as real) * p.step > p.maxValue
  {
    if p.minValue > p.maxValue then Some([])
    else if p.step <= 0.0 then None
    else
      var n := GridCount(p);
      var s := seq(n, i requires 0 <= i < n => GridPoint(p, i));
      forall i | 0 <= i < n - 1
        ensures s[i + 1] - s[i] == p.step
      {
        GridPointStep(p, i);
      }
      assert s[0] == GridPoint(p, 0) == p.minValue;
      Some(s)
  }

  lemma GridPointStep(p: OptimizationParam, i: nat)
    ensures GridPoint(p, i + 1) - GridPoint(p, i) == p.step
  {
    assert ((i + 1) as real) * p.step == (i as real) * p.step + p.step;
  }

  /** Any list that starts at the minimum, moves by the step, stays within
      the maximum and stops at the first value beyond it is the list
      `get_values` returns. */
  lemma GetValuesUnique(p: OptimizationParam, s: seq<real>)
    requires p.step > 0.0 && p.minValue <= p.maxValue
    requires |s| > 0 && s[0] == p.minValue
    requires forall i :: 0 <= i < |s| ==> s[i] <= p.maxValue
    requires forall i :: 0 <= i < |s| - 1 ==> s[i + 1] - s[i] == p.step
    requires p.minValue + (|s| as real) * p.step > p.maxValue
    ensures GetValues(p) == Some(s)
  {
    var n := GridCount(p);
    assert GridPoint(p, |s|) > p.maxValue;
    if |s| > n {
      ArithmeticGrid(p, s, n);
    }
    var g := GetValues(p).value;
    assert |g| == |s|;
    forall i | 0 <= i < |s| ensures s[i] == g[i] {
      ArithmeticGrid(p, s, i);
    }
    assert g == s;
  }

  lemma {:induction false} ArithmeticGrid(p: OptimizationParam, s: seq<real>, k: nat)
    requires k < |s| && |s| > 0 && s[0] == p.minValue
    requires forall i :: 0 <= i < |s| - 1 ==> s[i + 1] - s[i] == p.step
    ensures s[k] == GridPoint(p, k)
  {
    if k > 0 {
      ArithmeticGrid(p, s, k - 1);
    }
  }

  // ---------------------------------------------------------------------------
  // Results and their order
  // ---------------------------------------------------------------------------

  datatype OptimizationResult = OptimizationResult(
    parameters: seq<(string, real)>,
    fitnessScore: real,
    metrics: seq<(string, real)>)

  /** `OptimizationResult.__lt__`: "less" means a higher fitness, so an
      ascending sort puts the best result first. */
  predicate Less(a: OptimizationResult, b: OptimizationResult)
  {
    a.fitnessScore > b.fitnessScore
  }

  /** `a < b` holds exactly when `a` is the fitter result, so the order is
      irreflexive and asymmetric. */
  lemma LessMeansFitter(a: OptimizationResult, b: OptimizationResult)
    ensures Less(a, b) <==> b.fitnessScore < a.fitnessScore
    ensures Less(a, b) ==> a != b && !Less(b, a)
  {
  }

  predicate Descending(s: seq<OptimizationResult>)
  {
    forall i, j :: 0 <= i < j < |s| ==> s[i].fitnessScore >= s[j].fitnessScore
  }

  /** Place a result before the first one it is not less than, behind every
      result it ranks below. */
  function Insert(x: OptimizationResult, s: seq<OptimizationResult>): (r: seq<OptimizationResult>)
    requires Descending(s)
    ensures Descending(r)
    ensures multiset(r) == multiset(s) + multiset{x}
    ensures |r| == |s| + 1
  {
    if |s| == 0 then [x]
    else if !Less(s[0], x) then
      [x] + s
    else
      var rest := Insert(x, s[1..]);
      assert s == [s[0]] + s[1..];
      HeadDominates(s[0], s[1..], x, rest);
      ConsDescending(s[0], rest);
      [s[0]] + rest
  }

  /** A result ranked no lower than every element of a list and than `x`
      ranks no lower than any element of a permutation of the two. */
  lemma HeadDominates(h: OptimizationResult, t: seq<OptimizationResult>, x: OptimizationResult, rest: seq<OptimizationResult>)
    requires Descending([h] + t) && h.fitnessScore >= x.fitnessScore
    requires multiset(rest) == multiset(t) + multiset{x}
    ensures forall k :: 0 <= k < |rest| ==> h.fitnessScore >= rest[k].fitnessScore
  {
    forall k | 0 <= k < |rest|
      ensures h.fitnessScore >= rest[k].fitnessScore
    {
      assert rest[k] in multiset(rest);
      if rest[k] != x {
        assert rest[k] in multiset(t);
        var j :| 0 <= j < |t| && t[j] == rest[k];
        assert ([h] + t)[0] == h && ([h] + t)[j + 1] == rest[k];
      }
    }
  }

  lemma ConsDescending(h: OptimizationResult, t: seq<OptimizationResult>)
    requires Descending(t)
    requires forall k :: 0 <= k < |t| ==> h.fitnessScore >= t[k].fitnessScore
    ensures Descending([h] + t)
  {
    var r := [h] + t;
    forall i, j | 0 <= i < j < |r| ensures r[i].fitnessScore >= r[j].fitnessScore {
      assert r[j] == t[j - 1];
      if i > 0 {
        assert r[i] == t[i - 1];
      }
    }
  }

  /** `list.sort()` with `__lt__`: the results in descending fitness. */
  function SortResults(s: seq<OptimizationResult>): (r: seq<OptimizationResult>)
    ensures Descending(r)
    ensures multiset(r) == multiset(s)
    ensures |r| == |s|
  {
    if |s| == 0 then []
    else
      assert s == [s[0]] + s[1..];
      Insert(s[0], SortResults(s[1..]))
  }

  /** A descending list is already in the order the sort produces: no
      result is less than one before it. */
  lemma SortedHasNoInversion(s: seq<OptimizationResult>)
    ensures forall i, j :: 0 <= i < j < |SortResults(s)| ==> !Less(SortResults(s)[j], SortResults(s)[i])
  {
  }

  // ---------------------------------------------------------------------------
  // The Cartesian product
  // ---------------------------------------------------------------------------

  /** `x` put in front of each tail, in order. */
  function PrependEach(x: real, tails: seq<seq<real>>): (r: seq<seq<real>>)
    ensures |r| == |tails|
    ensures forall i :: 0 <= i < |tails| ==> r[i] == [x] + tails[i]
  {
    seq(|tails|, i requires 0 <= i < |tails| => [x] + tails[i])
  }

  function PrependAll(xs: seq<real>, tails: seq<seq<real>>): (r: seq<seq<real>>)
    ensures |r| == |xs| * |tails|
    decreases |xs|
  {
    if |xs| == 0 then []
    else PrependEach(xs[0], tails) + PrependAll(xs[1..], tails)
  }

  /** The product of the list lengths: `total_combinations`. */
  function LengthProduct(lists: seq<seq<real>>): nat
    decreases |lists|
  {
    if |lists| == 0 then 1 else |lists[0]| * LengthProduct(lists[1..])
  }

  /** `itertools.product(*lists)`: the first list varies slowest. */
  function Product(lists: seq<seq<real>>): (r: seq<seq<real>>)
    ensures |r| == LengthProduct(lists)
    decreases |lists|
  {
    if |lists| == 0 then [[]] else PrependAll(lists[0], Product(lists[1..]))
  }

  /** A combination picks one value from each list, in order. */
  predicate Picks(c: seq<real>, lists: seq<seq<real>>)
  {
    |c| == |lists| && forall i :: 0 <= i < |c| ==> c[i] in lists[i]
  }

  lemma {:induction false} PrependAllMembers(xs: seq<real>, tails: seq<seq<real>>, c: seq<real>)
    ensures c in PrependAll(xs, tails) <==> |c| > 0 && c[0] in xs && c[1..] in tails
    decreases |xs|
  {
    if |xs| > 0 {
      PrependAllMembers(xs[1..], tails, c);
      var front := PrependEach(xs[0], tails);
      assert c in front <==> |c| > 0 && c[0] == xs[0] && c[1..] in tails by {
        if c in front {
          var i :| 0 <= i < |front| && front[i] == c;
          assert c[1..] == tails[i];
        }
        if |c| > 0 && c[0] == xs[0] && c[1..] in tails {
          var i :| 0 <= i < |tails| && tails[i] == c[1..];
          assert front[i] == c;
        }
      }
      if |c| > 0 {
        assert c[0] in xs <==> c[0] == xs[0] || c[0] in xs[1..] by {
          assert xs == [xs[0]] + xs[1..];
        }
      }
    }
  }

  /** `grid_search` evaluates exactly the combinations that pick one value
      per parameter. */
  lemma {:induction false} ProductMembers(lists: seq<seq<real>>, c: seq<real>)
    ensures c in Product(lists) <==> Picks(c, lists)
    decreases |lists|
  {
    if |lists| > 0 {
      PrependAllMembers(lists[0], Product(lists[1..]), c);
      if |c| > 0 {
        ProductMembers(lists[1..], c[1..]);
        assert Picks(c, lists) <==> c[0] in lists[0] && Picks(c[1..], lists[1..]) by {
          if c[0] in lists[0] && Picks(c[1..], lists[1..]) {
            forall i | 0 <= i < |c| ensures c[i] in lists[i] {
              if i > 0 {
                assert c[i] == c[1..][i - 1] && lists[i] == lists[1..][i - 1];
              }
            }
          }
          if Picks(c, lists) {
            forall i | 0 <= i < |c[1..]| ensures c[1..][i] in lists[1..][i] {
              assert c[1..][i] == c[i + 1] && lists[1..][i] == lists[i + 1];
            }
          }
        }
      }
    } else {
      assert Picks(c, lists) <==> c == [];
    }
  }

  // ---------------------------------------------------------------------------
  // grid_search
  // ---------------------------------------------------------------------------

  /** `{params[i].name: values[i]}`: a later parameter of the same name
      overwrites an earlier one. */
  function ParamsDict(params: seq<OptimizationParam>, values: seq<real>): (r: seq<(string, real)>)
    requires |values| == |params|
    ensures DistinctKeys(r)
    ensures forall k :: HasKey(r, k) <==> exists i :: 0 <= i < |params| && params[i].name == k
    decreases |params|
  {
    if |params| == 0 then []
    else
      var n := |params| - 1;
      var prior := ParamsDict(params[..n], values[..n]);
      PutKeepsDistinct(prior, params[n].name, values[n]);
      forall k | true
        ensures HasKey(Put(prior, params[n].name, values[n]), k) <==> exists i :: 0 <= i < |params| && params[i].name == k
      {
        PutKeys(prior, params[n].name, values[n], k);
        if exists i :: 0 <= i < |params| && params[i].name == k {
          var i :| 0 <= i < |params| && params[i].name == k;
          if i < n {
            assert params[..n][i].name == k;
          }
        }
        if exists i :: 0 <= i < |params[..n]| && params[..n][i].name == k {
          var i :| 0 <= i < |params[..n]| && params[..n][i].name == k;
          assert params[i].name == k;
        }
      }
      Put(prior, params[n].name, values[n])
  }

  /** With distinct names each parameter maps to its own value. */
  lemma {:induction false} ParamsDictLookup(params: seq<OptimizationParam>, values: seq<real>, i: nat)
    requires |values| == |params| && i < |params|
    requires forall a, b :: 0 <= a < b < |params| ==> params[a].name != params[b].name
    ensures Lookup(ParamsDict(params, values), params[i].name) == Some(values[i])
    decreases |params|
  {
    var n := |params| - 1;
    PutThenLookup(ParamsDict(params[..n], values[..n]), params[n].name, values[n], params[i].name);
    if i < n {
      ParamsDictLookup(params[..n], values[..n], i);
    }
  }

  /** One combination: run, score, and keep the result; an exception from
      either call drops the combination. */
  function EvaluateCombination(params: seq<OptimizationParam>, combo: seq<real>,
                               runner: seq<(string, real)> -> Result<seq<(string, real)>>,
                               fitness: seq<(string, real)> -> Result<real>): (r: Option<OptimizationResult>)
    requires |combo| == |params|
    ensures r.Some? <==> runner(ParamsDict(params, combo)).Ok? && fitness(runner(ParamsDict(params, combo)).value).Ok?
    ensures r.Some? ==>
      && r.value.parameters == ParamsDict(params, combo)
      && r.value.metrics == runner(ParamsDict(params, combo)).value
      && r.value.fitnessScore == fitness(r.value.metrics).value
  {
    var d := ParamsDict(params, combo);
    match runner(d)
    case Err(_) => None
    case Ok(m) =>
      match fitness(m)
      case Err(_) => None
      case Ok(f) => Some(OptimizationResult(d, f, m))
  }

  /** The results of the combinations that did not raise, in product order. */
  function EvaluateAll(params: seq<OptimizationParam>, combos: seq<seq<real>>,
                       runner: seq<(string, real)> -> Result<seq<(string, real)>>,
                       fitness: seq<(string, real)> -> Result<real>): (r: seq<OptimizationResult>)
    requires forall c :: c in combos ==> |c| == |params|
    ensures |r| <= |combos|
    ensures forall x :: x in r <==> exists c :: c in combos && EvaluateCombination(params, c, runner, fitness) == Some(x)
    decreases |combos|
  {
    if |combos| == 0 then []
    else
      var rest := EvaluateAll(params, combos[1..], runner, fitness);
      assert forall c :: c in combos <==> c == combos[0] || c in combos[1..] by {
        assert combos == [combos[0]] + combos[1..];
      }
      match EvaluateCombination(params, combos[0], runner, fitness)
      case None => rest
      case Some(x) => [x] + rest
  }

  /** Python's `s[:n]`: a negative `n` counts from the end. */
  function PrefixSlice<T>(s: seq<T>, n: int): (r: seq<T>)
    ensures n >= 0 ==> |r| == if n < |s| then n else |s|
    ensures n < 0 ==> |r| == if |s| + n > 0 then |s| + n else 0
    ensures |r| <= |s| && r == s[..|r|]
  {
    if n >= 0 then (if n < |s| then s[..n] else s)
    else if |s| + n > 0 then s[..|s| + n]
    else []
  }

  datatype Optimizer = Optimizer(params: seq<OptimizationParam>, verbose: bool, results: seq<OptimizationResult>)

  /** Whether every parameter's value loop ends. */
  predicate AllGridsEnd(params: seq<OptimizationParam>)
  {
    forall i :: 0 <= i < |params| ==> !Diverges(params[i])
  }

  function Grids(params: seq<OptimizationParam>): (r: seq<seq<real>>)
    requires AllGridsEnd(params)
    ensures |r| == |params|
    ensures forall i :: 0 <= i < |params| ==> Some(r[i]) == GetValues(params[i])
  {
    seq(|params|, i requires 0 <= i < |params| => GetValues(params[i]).value)
  }

  /** `grid_search`: None when some value loop never ends. Otherwise the
      stored results are the successful evaluations of the whole product in
      descending fitness, and the first `top_n` of them are returned; with
      `verbose` on and nothing stored, reading `results[0]` for the summary
      line is an `IndexError`. */
  function GridSearch(opt: Optimizer,
                      runner: seq<(string, real)> -> Result<seq<(string, real)>>,
                      fitness: seq<(string, real)> -> Result<real>,
                      topN: int): (r: Option<(Optimizer, Result<seq<OptimizationResult>>)>)
    ensures r.None? <==> !AllGridsEnd(opt.params)
    ensures r.Some? ==>
      var (o, out) := r.value;
      && o.params == opt.params && o.verbose == opt.verbose
      && Descending(o.results)
      && |o.results| <= LengthProduct(Grids(opt.params))
      && (forall x :: x in o.results <==>
            exists c :: Picks(c, Grids(opt.params)) && EvaluateCombination(opt.params, c, runner, fitness) == Some(x))
      && (out.Err? <==> opt.verbose && |o.results| == 0)
      && (out.Err? ==> out.error == IndexError)
      && (out.Ok? ==> out.value == PrefixSlice(o.results, topN))
  {
    if !AllGridsEnd(opt.params) then None
    else
      var grids := Grids(opt.params);
      var combos := Product(grids);
      forall c | c in combos ensures |c| == |opt.params| {
        ProductMembers(grids, c);
      }
      forall c ensures c in combos <==> Picks(c, grids) {
        ProductMembers(grids, c);
      }
      var evaluated := EvaluateAll(opt.params, combos, runner, fitness);
      var sorted := SortResults(evaluated);
      assert forall x :: x in sorted <==> x in evaluated by {
        forall x ensures x in sorted <==> x in evaluated {
          assert x in sorted <==> x in multiset(sorted);
          assert x in evaluated <==> x in multiset(evaluated);
        }
      }
      var o := opt.(results := sorted);
      if opt.verbose && |sorted| == 0 then Some((o, Err(IndexError)))
      else Some((o, Ok(PrefixSlice(sorted, topN))))
  }

  /** `grid_search` returns at most `top_n` results, the best ones first. */
  lemma GridSearchTopN(opt: Optimizer,
                       runner: seq<(string, real)> -> Result<seq<(string, real)>>,
                       fitness: seq<(string, real)> -> Result<real>,
                       topN: nat)
    requires AllGridsEnd(opt.params)
    ensures var (o, out) := GridSearch(opt, runner, fitness, topN).value;
      out.Ok? ==>
        && |out.value| <= topN
        && Descending(out.value)
        && forall i, j :: 0 <= i < |out.value| && |out.value| <= j < |o.results| ==>
             out.value[i].fitnessScore >= o.results[j].fitnessScore
  {
  }

  /** `get_best`: the first stored result, or None before any search. */
  function GetBest(opt: Optimizer): (r: Option<OptimizationResult>)
    ensures r.None? <==> |opt.results| == 0
    ensures r.Some? ==> r.value in opt.results
    ensures r.Some? && Descending(opt.results) ==>
      forall i :: 0 <= i < |opt.results| ==> opt.results[i].fitnessScore <= r.value.fitnessScore
  {
    if |opt.results| == 0 then None else Some(opt.results[0])
  }

  function GetTopN(opt: Optimizer, n: int): (r: seq<OptimizationResult>)
    ensures |r| <= |opt.results| && r == opt.results[..|r|]
    ensures n >= 0 ==> |r| == if n < |opt.results| then n else |opt.results|
  {
    PrefixSlice(opt.results, n)
  }

  // ---------------------------------------------------------------------------
  // FitnessCalculator
  // ---------------------------------------------------------------------------

  /** `metrics.get(name, default)`. */
  function MetricOr(metrics: seq<(string, real)>, name: string, default: real): (v: real)
    ensures HasKey(metrics, name) ==> Some(v) == Lookup(metrics, name)
    ensures !HasKey(metrics, name) ==> v == default
  {
    Lookup(metrics, name).GetOr(default)
  }

  function SharpeFitness(metrics: seq<(string, real)>): (r: real)
    ensures HasKey(metrics, "sharpe_ratio") ==> Some(r) == Lookup(metrics, "sharpe_ratio")
    ensures !HasKey(metrics, "sharpe_ratio") ==> r == 0.0
  {
    MetricOr(metrics, "sharpe_ratio", 0.0)
  }

  function ProfitFactorFitness(metrics: seq<(string, real)>): (r: real)
    ensures HasKey(metrics, "profit_factor") ==> Some(r) == Lookup(metrics, "profit_factor")
    ensures !HasKey(metrics, "profit_factor") ==> r == 0.0
  {
    MetricOr(metrics, "profit_factor", 0.0)
  }

  /** `return_per_drawdown`: the annual return per percent of drawdown; 0
      for a zero drawdown, and the return itself when the drawdown is
      missing, since it defaults to 1. */
  function ReturnPerDrawdown(metrics: seq<(string, real)>): (r: real)
    ensures var dd := MetricOr(metrics, "max_drawdown_percent", 1.0);
      && (dd == 0.0 ==> r == 0.0)
      && (dd != 0.0 ==> r * dd == MetricOr(metrics, "annual_return_percent", 0.0))
    ensures !HasKey(metrics, "max_drawdown_percent") ==> r == MetricOr(metrics, "annual_return_percent", 0.0)
  {
    var annual := MetricOr(metrics, "annual_return_percent", 0.0);
    var dd := MetricOr(metrics, "max_drawdown_percent", 1.0);
    if dd == 0.0 then 0.0 else Quotient(annual, dd)
  }

  /** `win_rate_weighted`: the win fraction times the profit factor, which
      defaults to 1. */
  function WinRateWeighted(metrics: seq<(string, real)>): (r: real)
    ensures r * 100.0 == MetricOr(metrics, "win_rate", 0.0) * MetricOr(metrics, "profit_factor", 1.0)
    ensures !HasKey(metrics, "win_rate") ==> r == 0.0
  {
    (MetricOr(metrics, "win_rate", 0.0) / 100.0) * MetricOr(metrics, "profit_factor", 1.0)
  }

  /** `custom_score`: the weighted sum over the weights in order, a missing
      metric counting as 0. */
  function CustomScore(metrics: seq<(string, real)>, weights: seq<(string, real)>): (r: real)
    ensures r == Sum(Terms(metrics, weights))
    decreases |weights|
  {
    if |weights| == 0 then 0.0
    else
      var init := weights[..|weights| - 1];
      assert Terms(metrics, weights) == Terms(metrics, init) + [Term(metrics, weights[|weights| - 1])];
      CustomScore(metrics, init) + Term(metrics, weights[|weights| - 1])
  }

  /** Each weight's contribution, in the order of the weights. */
  function Terms(metrics: seq<(string, real)>, weights: seq<(string, real)>): (r: seq<real>)
    ensures |r| == |weights|
    ensures forall i :: 0 <= i < |weights| ==> r[i] == Term(metrics, weights[i])
  {
    seq(|weights|, i requires 0 <= i < |weights| => Term(metrics, weights[i]))
  }

  /** One weight's contribution. */
  function Term(metrics: seq<(string, real)>, w: (string, real)): real
  {
    MetricOr(metrics, w.0, 0.0) * w.1
  }

  /** The score of two weight lists together is the sum of their scores. */
  lemma {:induction false} CustomScoreAppend(metrics: seq<(string, real)>, w1: seq<(string, real)>, w2: seq<(string, real)>)
    ensures CustomScore(metrics, w1 + w2) == CustomScore(metrics, w1) + CustomScore(metrics, w2)
    decreases |w2|
  {
    if |w2| > 0 {
      var n := |w2| - 1;
      assert (w1 + w2)[..|w1 + w2| - 1] == w1 + w2[..n];
      CustomScoreAppend(metrics, w1, w2[..n]);
    } else {
      assert w1 + w2 == w1;
    }
  }

  /** A weight on a metric that is not reported adds nothing. */
  lemma CustomScoreIgnoresMissing(metrics: seq<(string, real)>, weights: seq<(string, real)>, name: string, w: real)
    requires !HasKey(metrics, name)
    ensures CustomScore(metrics, weights + [(name, w)]) == CustomScore(metrics, weights)
  {
    CustomScoreAppend(metrics, weights, [(name, w)]);
    assert [(name, w)][..0] == [];
  }
}
