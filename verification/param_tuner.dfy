/** `src/optimization/param_tuner.py`: a tuner that keeps a base and a
    current parameter dictionary with a history of clamped updates, and a
    rule-driven adjuster that moves parameters according to performance
    metrics. Dictionaries are association lists with distinct keys. */
module ParamTuner {
  import opened Common
  import opened Helpers

  /** A parameter value: scaling touches only numbers (`isinstance(value,
      (int, float))`), so anything else is kept apart. */
  datatype ParamValue = Number(x: real) | NonNumeric

  /** One history record: the parameter, what it held before (None when it
      was absent) and the value stored. */
  datatype Adjustment = Adjustment(parameter: string, oldValue: Option<ParamValue>, newValue: real)

  datatype Tuner = Tuner(
    base: seq<(string, ParamValue)>,
    current: seq<(string, ParamValue)>,
    history: seq<Adjustment>)

  predicate Valid(t: Tuner)
  {
    DistinctKeys(t.base) && DistinctKeys(t.current)
  }

  /** The parameter exists and holds a number. */
  predicate NumericAt(params: seq<(string, ParamValue)>, name: string)
  {
    Lookup(params, name).Some? && Lookup(params, name).value.Number?
  }

  /** `__init__`: base and current are both copies of the given values. */
  function NewTuner(params: seq<(string, ParamValue)>): (t: Tuner)
    requires DistinctKeys(params)
    ensures Valid(t) && t.history == []
    ensures forall k :: Lookup(t.base, k) == Lookup(params, k) && Lookup(t.current, k) == Lookup(params, k)
  {
    Tuner(params, params, [])
  }

  // ---------------------------------------------------------------------------
  // The three adjustment formulas
  // ---------------------------------------------------------------------------

  /** `adjust_linear`: a step of `adjustment` in the given direction. */
  function AdjustLinear(current: real, direction: int, adjustment: real): (r: real)
    ensures direction == 1 ==> r - current == adjustment
    ensures direction == -1 ==> current - r == adjustment
  {
    current + (direction as real) * adjustment
  }

  /** A linear step undone by the step in the opposite direction. */
  lemma LinearRoundTrip(current: real, direction: int, adjustment: real)
    ensures AdjustLinear(AdjustLinear(current, direction, adjustment), -direction, adjustment) == current
  {
  }

  /** `adjust_exponential`: multiply by the factor for a positive direction
      and divide by it otherwise, which is a `ZeroDivisionError` for a zero
      factor. */
  function AdjustExponential(current: real, direction: int, factor: real): (r: Result<real>)
    ensures r.Err? <==> direction <= 0 && factor == 0.0
    ensures r.Err? ==> r.error == ZeroDivision
    ensures r.Ok? && direction > 0 ==> r.value == current * factor
    ensures r.Ok? && direction <= 0 ==> r.value * factor == current
  {
    if direction > 0 then Ok(current * factor)
    else if factor == 0.0 then Err(ZeroDivision)
    else Ok(Quotient(current, factor))
  }

  /** A multiplication by a non-zero factor undone by the division. */
  lemma ExponentialRoundTrip(current: real, factor: real)
    requires factor != 0.0
    ensures var up := AdjustExponential(current, 1, factor);
      up.Ok? && AdjustExponential(up.value, -1, factor) == Ok(current)
  {
    assert AdjustExponential(current, 1, factor) == Ok(current * factor);
    var q := AdjustExponential(current * factor, -1, factor).value;
    assert q * factor == current * factor;
    assert (q - current) * factor == 0.0;
    assert q == current;
  }

  /** `adjust_adaptive`: move by `sensitivity` times the relative deviation
      of the performance from its target; a zero target gives deviation 0. */
  function AdjustAdaptive(current: real, performance: real, target: real, sensitivity: real): (r: real)
    ensures target == 0.0 ==> r == current
    ensures target != 0.0 ==> (r - current) * target == current * (performance - target) * sensitivity
  {
    var deviation := if target != 0.0 then Quotient(performance - target, target) else 0.0;
    current + current * deviation * sensitivity
  }

  /** On target, the adaptive rule leaves the value alone. */
  lemma AdaptiveOnTargetUnchanged(current: real, target: real, sensitivity: real)
    ensures AdjustAdaptive(current, target, target, sensitivity) == current
  {
  }

  // ---------------------------------------------------------------------------
  // Tuner state changes
  // ---------------------------------------------------------------------------

  /** `update_param`: clamp, record the previous value, store. */
  function UpdateParam(t: Tuner, name: string, newValue: real, minValue: real, maxValue: real)
    : (r: (Tuner, real))
    requires Valid(t)
    ensures Valid(r.0)
    ensures minValue <= maxValue ==> minValue <= r.1 <= maxValue
    ensures minValue <= newValue <= maxValue ==> r.1 == newValue
    ensures minValue > maxValue ==> r.1 == minValue
    ensures Lookup(r.0.current, name) == Some(Number(r.1))
    ensures forall k :: k != name ==> Lookup(r.0.current, k) == Lookup(t.current, k)
    ensures r.0.history == t.history + [Adjustment(name, Lookup(t.current, name), r.1)]
    ensures r.0.base == t.base
  {
    var v := Clamp(newValue, minValue, maxValue);
    var current := Put(t.current, name, Number(v));
    PutKeepsDistinct(t.current, name, Number(v));
    forall k | true
      ensures Lookup(current, k) == if k == name then Some(Number(v)) else Lookup(t.current, k)
    {
      PutThenLookup(t.current, name, Number(v), k);
    }
    (Tuner(t.base, current, t.history + [Adjustment(name, Lookup(t.current, name), v)]), v)
  }

  /** A clamped update stores the value only once: repeating it with the
      same bounds changes nothing but the history. */
  lemma UpdateParamIdempotent(t: Tuner, name: string, v: real, minValue: real, maxValue: real)
    requires Valid(t)
    ensures var (t1, v1) := UpdateParam(t, name, v, minValue, maxValue);
      var (t2, v2) := UpdateParam(t1, name, v, minValue, maxValue);
      && v2 == v1
      && (forall k :: Lookup(t2.current, k) == Lookup(t1.current, k))
      && |t2.history| == |t.history| + 2
      && t2.history[|t.history| + 1].oldValue == Some(Number(v1))
  {
  }

  /** One entry of `scale_parameters`. */
  function ScaleEntry(entry: (string, ParamValue), factor: real, exclude: seq<string>): (r: (string, ParamValue))
    ensures r.0 == entry.0
    ensures entry.0 in exclude || entry.1.NonNumeric? ==> r == entry
    ensures entry.0 !in exclude && entry.1.Number? ==> r.1 == Number(entry.1.x * factor)
  {
    if entry.0 !in exclude && entry.1.Number? then (entry.0, Number(entry.1.x * factor)) else entry
  }

  /** `scale_parameters`: multiply every numeric, non-excluded parameter by
      the factor, keep the rest, and return a copy of the result. The
      history is not touched. */
  function ScaleParameters(t: Tuner, factor: real, exclude: seq<string>): (r: (Tuner, seq<(string, ParamValue)>))
    requires Valid(t)
    ensures Valid(r.0)
    ensures r.1 == r.0.current && r.0.base == t.base && r.0.history == t.history
    ensures Keys(r.0.current) == Keys(t.current)
    ensures forall i :: 0 <= i < |t.current| ==> r.0.current[i] == ScaleEntry(t.current[i], factor, exclude)
  {
    var scaled := seq(|t.current|, i requires 0 <= i < |t.current| => ScaleEntry(t.current[i], factor, exclude));
    assert Keys(scaled) == Keys(t.current);
    assert DistinctKeys(scaled) by {
      forall i, j | 0 <= i < j < |scaled| ensures scaled[i].0 != scaled[j].0 {
        assert scaled[i].0 == t.current[i].0 && scaled[j].0 == t.current[j].0;
      }
    }
    (t.(current := scaled), scaled)
  }

  /** Scaling by a non-zero factor and then by its inverse gives back the
      parameters, whatever was excluded. */
  lemma ScaleRoundTrip(t: Tuner, factor: real, exclude: seq<string>)
    requires Valid(t) && factor != 0.0
    ensures var once := ScaleParameters(t, factor, exclude).0;
      ScaleParameters(once, 1.0 / factor, exclude).0 == t
  {
    var once := ScaleParameters(t, factor, exclude).0;
    var twice := ScaleParameters(once, 1.0 / factor, exclude).0;
    assert factor * (1.0 / factor) == 1.0;
    forall i | 0 <= i < |t.current|
      ensures twice.current[i] == t.current[i]
    {
      var e := t.current[i];
      assert once.current[i] == ScaleEntry(e, factor, exclude);
      assert twice.current[i] == ScaleEntry(once.current[i], 1.0 / factor, exclude);
      if e.0 !in exclude && e.1.Number? {
        var o := once.current[i];
        assert o == ScaleEntry(e, factor, exclude);
        assert o.0 == e.0 && o.1 == Number(e.1.x * factor);
        assert twice.current[i].1 == Number(o.1.x * (1.0 / factor));
        assert o.1.x * (1.0 / factor) == e.1.x * (factor * (1.0 / factor));
        assert twice.current[i].0 == e.0 && twice.current[i].1 == e.1;
      } else {
        assert once.current[i] == e;
      }
    }
    assert twice.current == t.current;
  }

  /** `reset_to_base`: current becomes the base again. */
  function ResetToBase(t: Tuner): (r: Tuner)
    ensures forall k :: Lookup(r.current, k) == Lookup(t.base, k)
    ensures r.base == t.base && r.history == t.history
    ensures Valid(t) ==> Valid(r)
  {
    t.(current := t.base)
  }

  /** The base survives updates and scaling, so a reset after either
      restores the parameters the tuner was built with. */
  lemma ResetRestoresBase(params: seq<(string, ParamValue)>, name: string, v: real, lo: real, hi: real, factor: real, exclude: seq<string>)
    requires DistinctKeys(params)
    ensures var t1 := UpdateParam(NewTuner(params), name, v, lo, hi).0;
      var t2 := ScaleParameters(t1, factor, exclude).0;
      forall k :: Lookup(ResetToBase(t2).current, k) == Lookup(params, k)
  {
  }

  /** `get_parameter`: the current value, or the default when absent. */
  function GetParameter(t: Tuner, name: string, default: Option<ParamValue>): (r: Option<ParamValue>)
    ensures HasKey(t.current, name) ==> r == Lookup(t.current, name)
    ensures !HasKey(t.current, name) ==> r == default
  {
    match Lookup(t.current, name)
    case Some(v) => Some(v)
    case None => default
  }

  function GetAdjustmentCount(t: Tuner): (n: nat)
    ensures n == |t.history|
  {
    |t.history|
  }

  // ---------------------------------------------------------------------------
  // DynamicParameterAdjuster
  // ---------------------------------------------------------------------------

  /** A `ParameterAdjustment` rule; any type other than "linear" and
      "exponential" is treated as "dynamic". */
  datatype Rule = Rule(
    parameterName: string,
    adjustmentType: string,
    sensitivity: real,
    minValue: real,
    maxValue: real,
    triggerMetric: string)

  datatype Adjuster = Adjuster(tuner: Tuner, rules: seq<Rule>)

  function AddRule(a: Adjuster, rule: Rule): (r: Adjuster)
    ensures r.rules == a.rules + [rule] && r.tuner == a.tuner
  {
    a.(rules := a.rules + [rule])
  }

  /** `1 if trigger_value > 0 else -1`. */
  function Direction(trigger: real): (d: int)
    ensures d == 1 <==> trigger > 0.0
    ensures d == -1 <==> trigger <= 0.0
  {
    if trigger > 0.0 then 1 else -1
  }

  /** The value a rule proposes before clamping, from a numeric current
      value and the trigger. */
  function Proposed(rule: Rule, current: real, trigger: real): (r: Result<real>)
    ensures rule.adjustmentType == "linear" ==> r == Ok(AdjustLinear(current, Direction(trigger), rule.sensitivity))
    ensures rule.adjustmentType == "exponential" ==> r == AdjustExponential(current, Direction(trigger), 1.0 + rule.sensitivity)
    ensures rule.adjustmentType != "linear" && rule.adjustmentType != "exponential" ==> r == Ok(current)
  {
    if rule.adjustmentType == "linear" then Ok(AdjustLinear(current, Direction(trigger), rule.sensitivity))
    else if rule.adjustmentType == "exponential" then AdjustExponential(current, Direction(trigger), 1.0 + rule.sensitivity)
    else Ok(AdjustAdaptive(current, trigger, 0.0, rule.sensitivity))
  }

  /** Whether a rule whose trigger is present raises: its parameter is
      missing or not a number (the arithmetic on `None` is a `TypeError`), or
      it divides by a zero factor. */
  predicate RuleFails(params: seq<(string, ParamValue)>, rule: Rule, metrics: seq<(string, real)>)
  {
    && HasKey(metrics, rule.triggerMetric)
    && (|| !NumericAt(params, rule.parameterName)
        || (rule.adjustmentType == "exponential"
            && !(Lookup(metrics, rule.triggerMetric).value > 0.0) && rule.sensitivity == -1.0))
  }

  /** One rule of `evaluate`: skipped without a trigger; otherwise adjusted
      and clamped through `update_param`. A failing rule changes nothing. */
  function EvaluateRule(t: Tuner, rule: Rule, metrics: seq<(string, real)>): (r: (Tuner, Option<Error>))
    requires Valid(t)
    ensures Valid(r.0) && r.0.base == t.base
    ensures r.1.Some? <==> RuleFails(t.current, rule, metrics)
    ensures r.1.Some? || !HasKey(metrics, rule.triggerMetric) ==> r.0 == t
    ensures r.1.None? && HasKey(metrics, rule.triggerMetric) ==>
      && |r.0.history| == |t.history| + 1
      && r.0.history[..|t.history|] == t.history
      && r.0.history[|t.history|].parameter == rule.parameterName
    ensures forall k :: NumericAt(r.0.current, k) <==> NumericAt(t.current, k)
    ensures forall k :: k != rule.parameterName ==> Lookup(r.0.current, k) == Lookup(t.current, k)
  {
    match Lookup(metrics, rule.triggerMetric)
    case None => (t, None)
    case Some(trigger) =>
      var value := Lookup(t.current, rule.parameterName);
      if value.None? then (t, Some(TypeError("unsupported operand type(s): 'NoneType'")))
      else if value.value.NonNumeric? then (t, Some(TypeError("unsupported operand type(s)")))
      else
        match Proposed(rule, value.value.x, trigger)
        case Err(e) => (t, Some(e))
        case Ok(v) =>
          var updated := UpdateParam(t, rule.parameterName, v, rule.minValue, rule.maxValue).0;
          assert forall k :: NumericAt(updated.current, k) <==> NumericAt(t.current, k) by {
            forall k | true ensures NumericAt(updated.current, k) <==> NumericAt(t.current, k) {
              if k != rule.parameterName {
                assert Lookup(updated.current, k) == Lookup(t.current, k);
              }
            }
          }
          (updated, None)
  }

  /** A dynamic rule always proposes target 0, so it never moves a value
      that already lies within its bounds: dynamic rules only clamp. */
  lemma DynamicOnlyClamps(t: Tuner, rule: Rule, metrics: seq<(string, real)>, current: real)
    requires Valid(t)
    requires rule.adjustmentType != "linear" && rule.adjustmentType != "exponential"
    requires HasKey(metrics, rule.triggerMetric)
    requires Lookup(t.current, rule.parameterName) == Some(Number(current))
    ensures var (r, err) := EvaluateRule(t, rule, metrics);
      && err.None?
      && Lookup(r.current, rule.parameterName) == Some(Number(Clamp(current, rule.minValue, rule.maxValue)))
      && (rule.minValue <= current <= rule.maxValue ==> Lookup(r.current, rule.parameterName) == Lookup(t.current, rule.parameterName))
  {
  }

  /** A linear rule steps by its sensitivity, up exactly when the trigger
      is positive, and then clamps. */
  lemma LinearRuleSteps(t: Tuner, rule: Rule, metrics: seq<(string, real)>, current: real, trigger: real)
    requires Valid(t)
    requires rule.adjustmentType == "linear"
    requires Lookup(metrics, rule.triggerMetric) == Some(trigger)
    requires Lookup(t.current, rule.parameterName) == Some(Number(current))
    ensures var (r, err) := EvaluateRule(t, rule, metrics);
      && err.None?
      && Lookup(r.current, rule.parameterName) == Some(Number(Clamp(
           if trigger > 0.0 then current + rule.sensitivity else current - rule.sensitivity,
           rule.minValue, rule.maxValue)))
  {
  }

  /** Whether a rule's trigger metric is present. */
  function Applies(metrics: seq<(string, real)>): Rule -> bool
  {
    (rule: Rule) => HasKey(metrics, rule.triggerMetric)
  }

  /** `evaluate`: the rules in order, each seeing the previous ones' updates;
      the first raising rule stops the loop and keeps what came before. */
  function Evaluate(t: Tuner, rules: seq<Rule>, metrics: seq<(string, real)>): (r: (Tuner, Option<Error>))
    requires Valid(t)
    ensures Valid(r.0) && r.0.base == t.base
    ensures forall k :: NumericAt(r.0.current, k) <==> NumericAt(t.current, k)
    ensures |t.history| <= |r.0.history| && r.0.history[..|t.history|] == t.history
    decreases |rules|
  {
    if |rules| == 0 then (t, None)
    else
      match EvaluateRule(t, rules[0], metrics)
      case (t1, Some(e)) => (t1, Some(e))
      case (t1, None) =>
        var r := Evaluate(t1, rules[1..], metrics);
        assert r.0.history[..|t.history|] == r.0.history[..|t1.history|][..|t.history|];
        r
  }

  /** Which parameters hold numbers never changes during `evaluate`, so
      whether a rule raises depends only on the starting parameters: the
      loop raises exactly when some rule would, and when none does it
      records one adjustment per rule whose trigger is present and keeps
      every parameter no rule names. */
  lemma EvaluateOutcome(t: Tuner, rules: seq<Rule>, metrics: seq<(string, real)>)
    requires Valid(t)
    ensures var (r, err) := Evaluate(t, rules, metrics);
      && (err.Some? <==> exists i :: 0 <= i < |rules| && RuleFails(t.current, rules[i], metrics))
      && (err.None? ==> |r.history| == |t.history| + Count(rules, Applies(metrics)))
      && (forall k :: (forall i :: 0 <= i < |rules| ==> rules[i].parameterName != k) ==>
            Lookup(r.current, k) == Lookup(t.current, k))
  {
    EvaluateRaises(t, rules, metrics);
    EvaluateCounts(t, rules, metrics);
    forall k | forall i :: 0 <= i < |rules| ==> rules[i].parameterName != k
      ensures Lookup(Evaluate(t, rules, metrics).0.current, k) == Lookup(t.current, k)
    {
      EvaluateKeepsUnnamed(t, rules, metrics, k);
    }
  }

  /** The loop raises exactly when some rule fails on the starting
      parameters: no rule changes which parameters hold numbers. */
  lemma {:induction false} EvaluateRaises(t: Tuner, rules: seq<Rule>, metrics: seq<(string, real)>)
    requires Valid(t)
    ensures Evaluate(t, rules, metrics).1.Some? <==>
      exists i :: 0 <= i < |rules| && RuleFails(t.current, rules[i], metrics)
    decreases |rules|
  {
    if |rules| > 0 {
      var (t1, e1) := EvaluateRule(t, rules[0], metrics);
      if e1.None? {
        var tail := rules[1..];
        EvaluateRaises(t1, tail, metrics);
        assert Evaluate(t, rules, metrics) == Evaluate(t1, tail, metrics);
        forall i | 0 <= i < |tail|
          ensures RuleFails(t1.current, tail[i], metrics) <==> RuleFails(t.current, rules[i + 1], metrics)
        {
          assert tail[i] == rules[i + 1];
          assert NumericAt(t1.current, tail[i].parameterName) <==> NumericAt(t.current, tail[i].parameterName);
        }
        assert !RuleFails(t.current, rules[0], metrics);
      }
    }
  }

  /** A loop that does not raise records one adjustment per rule whose
      trigger metric is present. */
  lemma {:induction false} EvaluateCounts(t: Tuner, rules: seq<Rule>, metrics: seq<(string, real)>)
    requires Valid(t)
    ensures var (r, err) := Evaluate(t, rules, metrics);
      err.None? ==> |r.history| == |t.history| + Count(rules, Applies(metrics))
    decreases |rules|
  {
    if |rules| > 0 {
      var (t1, e1) := EvaluateRule(t, rules[0], metrics);
      if e1.None? {
        EvaluateCounts(t1, rules[1..], metrics);
        assert Evaluate(t, rules, metrics) == Evaluate(t1, rules[1..], metrics);
        assert Applies(metrics)(rules[0]) <==> HasKey(metrics, rules[0].triggerMetric);
      }
    }
  }

  /** A parameter no rule names keeps its value. */
  lemma {:induction false} EvaluateKeepsUnnamed(t: Tuner, rules: seq<Rule>, metrics: seq<(string, real)>, k: string)
    requires Valid(t)
    requires forall i :: 0 <= i < |rules| ==> rules[i].parameterName != k
    ensures Lookup(Evaluate(t, rules, metrics).0.current, k) == Lookup(t.current, k)
    decreases |rules|
  {
    if |rules| > 0 {
      var (t1, e1) := EvaluateRule(t, rules[0], metrics);
      if e1.None? {
        var tail := rules[1..];
        forall i | 0 <= i < |tail| ensures tail[i].parameterName != k {
          assert tail[i] == rules[i + 1];
        }
        EvaluateKeepsUnnamed(t1, tail, metrics, k);
      }
    }
  }
}
