/** How `perturb_params` and `create_controlled_knockdown_multipliers` change
    parameter columns: knockdown multipliers drawn from seeded samplers,
    knockout by a fixed value or by multipliers, and the bookkeeping columns
    that record what was applied. */
module Engine {
  import opened Wrappers
  import opened Seqs
  import opened Text
  import opened Frames
  import opened Schema

  /** The seeded samplers. Every call site reseeds with 42, so a draw depends
      only on the distribution and the sample size: `beta(a, b, n, i)` is the
      i-th of n draws from Beta(a, b), and `truncnorm(kdMeanEff, maxKdPct, n, i)`
      is the i-th of n knockdown multipliers of the truncated-normal
      approach (`10 ** min(shift, -0.004)` for a truncated-normal log shift). */
  datatype Rng = Rng(beta: (real, real, nat, nat) -> real, truncnorm: (real, real, nat, nat) -> real)

  /** Draws of a real Beta distribution lie in [0, 1]. */
  predicate UnitDraws(rng: Rng, a: real, b: real, n: nat) {
    forall i :: 0 <= i < n ==> 0.0 <= rng.beta(a, b, n, i) <= 1.0
  }

  // ----- numpy on arrays of floats -----

  function Sum(xs: seq<real>): real {
    if xs == [] then 0.0 else Sum(xs[..|xs| - 1]) + xs[|xs| - 1]
  }

  function Numbers(xs: seq<Value>): seq<real>
    requires forall i :: 0 <= i < |xs| ==> xs[i].Num?
  {
    seq(|xs|, i requires 0 <= i < |xs| => xs[i].x)
  }

  /** `np.mean`: NaN for an empty array or one holding a NaN. */
  function Mean(xs: seq<Value>): Value {
    if xs != [] && forall i :: 0 <= i < |xs| ==> xs[i].Num? then Num(Sum(Numbers(xs)) / |xs| as real) else NaN
  }

  /** `np.clip(x, lo, hi)`, which is `min(max(x, lo), hi)`. */
  function Clip(v: Value, lo: real, hi: real): Value {
    match v
    case Num(x) => Num(if x < lo then (if lo < hi then lo else hi) else if x > hi then hi else x)
    case _ => NaN
  }

  /** `np.clip(values * (target / np.mean(values)), lo, hi)`. A zero or NaN
      mean makes every entry NaN. */
  function Rescale(values: seq<Value>, target: real, lo: real, hi: real): (r: seq<Value>)
    ensures |r| == |values|
  {
    var m := Mean(values);
    seq(|values|, i requires 0 <= i < |values| =>
      if m.Num? && m.x != 0.0 then Clip(Mul(values[i], Num(target / m.x)), lo, hi) else NaN)
  }

  /** `abs(np.mean(values) - target) < 0.001`; false for a NaN mean. */
  predicate Close(m: Value, target: real) {
    m.Num? && -0.001 < m.x - target < 0.001
  }

  /** The fine-tuning loop with `passes` passes left. */
  function FineTune(values: seq<Value>, target: real, lo: real, hi: real, passes: nat): (r: seq<Value>)
    ensures |r| == |values|
    decreases passes
  {
    if passes == 0 || Close(Mean(values), target) then values
    else FineTune(Rescale(values, target, lo, hi), target, lo, hi, passes - 1)
  }

  /** The Beta shape chosen from the spread factor. */
  function BetaShape(spread: real): (real, real) {
    if spread <= 0.3 then (4.0, 3.0)
    else if spread <= 0.5 then (2.0, 2.0)
    else (2.0, 6.8)
  }

  function ScaledDraws(rng: Rng, n: nat, lo: real, hi: real, spread: real): (r: seq<Value>)
    ensures |r| == n
  {
    var shape := BetaShape(spread);
    seq(n, i requires 0 <= i < n => Num(Lerp(lo, hi, rng.beta(shape.0, shape.1, n, i))))
  }

  /** What `create_controlled_knockdown_multipliers` returns. */
  function ControlledMultipliers(rng: Rng, n: nat, target: real, lo: real, hi: real, spread: real): (r: seq<Value>)
    ensures |r| == n
  {
    FineTune(Rescale(ScaledDraws(rng, n, lo, hi, spread), target, lo, hi), target, lo, hi, 3)
  }

  /** `create_controlled_knockdown_multipliers`: scale Beta draws into
      [lo, hi], move their mean to the target, then up to three passes of
      fine-tuning that stop once the mean is within 0.001 of the target. */
  method CreateControlledKnockdownMultipliers(rng: Rng, n: nat, target: real, lo: real, hi: real, spread: real)
    returns (values: seq<Value>, passes: nat)
    ensures values == ControlledMultipliers(rng, n, target, lo, hi, spread)
    ensures passes <= 3 && (passes < 3 ==> Close(Mean(values), target))
  {
    var scaled := ScaledDraws(rng, n, lo, hi, spread);
    values := Rescale(scaled, target, lo, hi);
    ghost var start := values;
    passes := 0;
    while passes < 3
      invariant passes <= 3
      invariant FineTune(values, target, lo, hi, 3 - passes) == FineTune(start, target, lo, hi, 3)
    {
      if Close(Mean(values), target) {
        break;
      }
      values := Rescale(values, target, lo, hi);
      passes := passes + 1;
    }
  }

  predicate WithinOrNaN(values: seq<Value>, lo: real, hi: real) {
    forall i :: 0 <= i < |values| ==> values[i].NaN? || (values[i].Num? && lo <= values[i].x <= hi)
  }

  predicate Within(values: seq<Value>, lo: real, hi: real) {
    forall i :: 0 <= i < |values| ==> values[i].Num? && lo <= values[i].x <= hi
  }

  lemma RescaleWithin(values: seq<Value>, target: real, lo: real, hi: real)
    requires lo <= hi
    ensures WithinOrNaN(Rescale(values, target, lo, hi), lo, hi)
  {
  }

  lemma {:induction false} SumBounds(xs: seq<real>, lo: real)
    requires forall i :: 0 <= i < |xs| ==> xs[i] >= lo
    ensures Sum(xs) >= lo * |xs| as real
  {
    if xs != [] {
      SumBounds(xs[..|xs| - 1], lo);
    }
  }

  /** With a positive lower bound, rescaling values already in range keeps
      them numbers in range: their mean is positive. */
  lemma RescaleKeepsNumbers(values: seq<Value>, target: real, lo: real, hi: real)
    requires 0.0 < lo <= hi && Within(values, lo, hi)
    ensures Within(Rescale(values, target, lo, hi), lo, hi)
  {
    if values != [] {
      SumBounds(Numbers(values), lo);
    }
  }

  lemma {:induction false} FineTuneWithin(values: seq<Value>, target: real, lo: real, hi: real, passes: nat)
    requires lo <= hi && WithinOrNaN(values, lo, hi)
    ensures WithinOrNaN(FineTune(values, target, lo, hi, passes), lo, hi)
    decreases passes
  {
    if passes > 0 && !Close(Mean(values), target) {
      RescaleWithin(values, target, lo, hi);
      FineTuneWithin(Rescale(values, target, lo, hi), target, lo, hi, passes - 1);
    }
  }

  lemma {:induction false} FineTuneKeepsNumbers(values: seq<Value>, target: real, lo: real, hi: real, passes: nat)
    requires 0.0 < lo <= hi && Within(values, lo, hi)
    ensures Within(FineTune(values, target, lo, hi, passes), lo, hi)
    decreases passes
  {
    if passes > 0 && !Close(Mean(values), target) {
      RescaleKeepsNumbers(values, target, lo, hi);
      FineTuneKeepsNumbers(Rescale(values, target, lo, hi), target, lo, hi, passes - 1);
    }
  }

  /** `lo + d * (hi - lo)`: the point a fraction `d` of the way from lo to hi. */
  function Lerp(lo: real, hi: real, d: real): real {
    lo + d * (hi - lo)
  }

  lemma LerpWithin(lo: real, hi: real, d: real)
    requires lo <= hi && 0.0 <= d <= 1.0
    ensures lo <= Lerp(lo, hi, d) <= hi
  {
    var w := hi - lo;
    assert 0.0 <= d * w by {
      assert 0.0 <= w && 0.0 <= d;
    }
    assert 0.0 <= (1.0 - d) * w by {
      assert 0.0 <= w && 0.0 <= 1.0 - d;
    }
    assert (1.0 - d) * w == w - d * w;
  }

  lemma ScaledDrawWithin(rng: Rng, n: nat, lo: real, hi: real, spread: real, i: nat)
    requires lo <= hi && i < n
    requires 0.0 <= rng.beta(BetaShape(spread).0, BetaShape(spread).1, n, i) <= 1.0
    ensures lo <= ScaledDraws(rng, n, lo, hi, spread)[i].x <= hi
  {
    var d := rng.beta(BetaShape(spread).0, BetaShape(spread).1, n, i);
    assert ScaledDraws(rng, n, lo, hi, spread)[i] == Num(Lerp(lo, hi, d));
    LerpWithin(lo, hi, d);
  }

  lemma ScaledDrawsWithin(rng: Rng, n: nat, lo: real, hi: real, spread: real)
    requires lo <= hi && UnitDraws(rng, BetaShape(spread).0, BetaShape(spread).1, n)
    ensures Within(ScaledDraws(rng, n, lo, hi, spread), lo, hi)
  {
    var scaled := ScaledDraws(rng, n, lo, hi, spread);
    forall i | 0 <= i < n ensures lo <= scaled[i].x <= hi {
      ScaledDrawWithin(rng, n, lo, hi, spread, i);
    }
  }

  /** Controlled multipliers never leave [lo, hi] (a degenerate mean turns
      them into NaN); with 0 < lo and Beta draws in [0, 1] they are all
      numbers in [lo, hi]. */
  lemma ControlledMultipliersBounds(rng: Rng, n: nat, target: real, lo: real, hi: real, spread: real)
    requires lo <= hi
    ensures WithinOrNaN(ControlledMultipliers(rng, n, target, lo, hi, spread), lo, hi)
    ensures 0.0 < lo && UnitDraws(rng, BetaShape(spread).0, BetaShape(spread).1, n) ==>
      Within(ControlledMultipliers(rng, n, target, lo, hi, spread), lo, hi)
  {
    var scaled := ScaledDraws(rng, n, lo, hi, spread);
    RescaleWithin(scaled, target, lo, hi);
    FineTuneWithin(Rescale(scaled, target, lo, hi), target, lo, hi, 3);
    if 0.0 < lo && UnitDraws(rng, BetaShape(spread).0, BetaShape(spread).1, n) {
      ScaledDrawsWithin(rng, n, lo, hi, spread);
      RescaleKeepsNumbers(scaled, target, lo, hi);
      FineTuneKeepsNumbers(Rescale(scaled, target, lo, hi), target, lo, hi, 3);
    }
  }

  lemma {:induction false} SumAtMost(xs: seq<real>, hi: real)
    requires forall i :: 0 <= i < |xs| ==> xs[i] <= hi
    ensures Sum(xs) <= hi * |xs| as real
  {
    if xs != [] {
      SumAtMost(xs[..|xs| - 1], hi);
    }
  }

  /** The mean of values bounded above by hi is at most hi. */
  lemma MeanAtMost(values: seq<Value>, lo: real, hi: real)
    requires WithinOrNaN(values, lo, hi) && Mean(values).Num?
    ensures Mean(values).x <= hi
  {
    var xs := Numbers(values);
    SumAtMost(xs, hi);
    var n := |values| as real;
    assert Mean(values).x == Sum(xs) / n;
    assert Sum(xs) / n <= hi * n / n;
  }

  /** A target mean at least 0.001 above the upper bound is never met: all
      three fine-tuning passes run and the mean stays off target. */
  lemma UnreachableTarget(rng: Rng, n: nat, target: real, lo: real, hi: real, spread: real)
    requires lo <= hi && target >= hi + 0.001
    ensures !Close(Mean(ControlledMultipliers(rng, n, target, lo, hi, spread)), target)
  {
    var r := ControlledMultipliers(rng, n, target, lo, hi, spread);
    ControlledMultipliersBounds(rng, n, target, lo, hi, spread);
    if Mean(r).Num? {
      MeanAtMost(r, lo, hi);
    }
  }

  // ----- knockdown and overexpression multipliers -----

  /** Knockdown multipliers of the `beta` approach: `0.01 + raw * 0.99`. */
  function BetaKnockdownMultipliers(rng: Rng, a: real, b: real, n: nat): (r: seq<Value>)
    ensures |r| == n
  {
    seq(n, i requires 0 <= i < n => Num(0.01 + rng.beta(a, b, n, i) * 0.99))
  }

  /** Beta knockdown keeps between 1% and 100% of a parameter. */
  lemma BetaKnockdownBounds(rng: Rng, a: real, b: real, n: nat)
    requires UnitDraws(rng, a, b, n)
    ensures Within(BetaKnockdownMultipliers(rng, a, b, n), 0.01, 1.0)
  {
  }

  function TruncnormMultipliers(rng: Rng, kdMeanEff: real, maxKdPct: real, n: nat): (r: seq<Value>)
    ensures |r| == n
  {
    seq(n, i requires 0 <= i < n => Num(rng.truncnorm(kdMeanEff, maxKdPct, n, i)))
  }

  /** Overexpression multipliers of the `beta` method: `1 + (max_mult - 1) * raw`. */
  function BetaOverexpressionMultipliers(rng: Rng, a: real, b: real, maxMult: real, n: nat): (r: seq<Value>)
    ensures |r| == n
  {
    seq(n, i requires 0 <= i < n => Num(1.0 + (maxMult - 1.0) * rng.beta(a, b, n, i)))
  }

  /** Beta overexpression multiplies by a factor in [1, max_mult]. */
  lemma BetaOverexpressionBounds(rng: Rng, a: real, b: real, maxMult: real, n: nat)
    requires UnitDraws(rng, a, b, n) && maxMult >= 1.0
    ensures Within(BetaOverexpressionMultipliers(rng, a, b, maxMult, n), 1.0, maxMult)
  {
    var r := BetaOverexpressionMultipliers(rng, a, b, maxMult, n);
    forall i | 0 <= i < n ensures r[i].Num? && 1.0 <= r[i].x <= maxMult {
      var d := rng.beta(a, b, n, i);
      assert (maxMult - 1.0) * d >= 0.0;
      assert (maxMult - 1.0) * (1.0 - d) >= 0.0;
    }
  }

  // ----- perturb_params -----

  /** What `perturb_params` is asked to do: a knockdown by one of the named
      approaches, or a knockout by one of the named methods (the strings are
      checked, as the source checks them). `paramMultipliers` is the optional
      per-parameter multiplier dictionary; empty stands for None and {}. */
  datatype Perturbation =
    | KnockdownBy(approach: string, betaA: real, betaB: real, kdMeanEff: real, maxKdPct: real, spread: real)
    | KnockoutBy(koMethod: string, koValue: real, koMultiplier: real, paramMultipliers: seq<(string, real)>)

  function Absent(columns: seq<string>): string -> bool {
    c => c !in columns
  }

  /** The multiplier each row of a parameter column is multiplied by. */
  function Factors(factor: (string, nat) -> Value, p: string, n: nat): (f: seq<Value>)
    ensures |f| == n
  {
    seq(n, j requires 0 <= j < n => factor(p, j))
  }

  /** `df[p] = df[p] * multipliers` for each parameter in turn. */
  function ScaleParams(t: Table, params: seq<string>, factor: (string, nat) -> Value): (r: Table)
    ensures |r.rows| == |t.rows|
    decreases |params|
  {
    if params == [] then t
    else
      var prev := ScaleParams(t, params[..|params| - 1], factor);
      var p := params[|params| - 1];
      Assign(prev, p, Times(Column(prev, p), Factors(factor, p, |prev.rows|)))
  }

  /** `df[p] = value` for each parameter in turn. */
  function SetParams(t: Table, params: seq<string>, v: Value): (r: Table)
    ensures |r.rows| == |t.rows|
    decreases |params|
  {
    if params == [] then t
    else
      var prev := SetParams(t, params[..|params| - 1], v);
      Assign(prev, params[|params| - 1], Fill(|prev.rows|, v))
  }

  /** The column recording a custom knockout multiplier: the text after the
      last dot of the parameter name. */
  function MultiplierColumn(param: string): string {
    "knockout_mult_" + Last(Split(param, '.'))
  }

  /** One `knockout_mult_*` column per custom multiplier whose parameter is
      among the targets, in dictionary order. */
  function MarkMultipliers(t: Table, params: seq<string>, pm: seq<(string, real)>): (r: Table)
    ensures |r.rows| == |t.rows|
    decreases |pm|
  {
    if pm == [] then t
    else
      var prev := MarkMultipliers(t, params, pm[..|pm| - 1]);
      var (q, m) := pm[|pm| - 1];
      if q in params then Assign(prev, MultiplierColumn(q), Fill(|prev.rows|, Num(m))) else prev
  }

  function RowFactor(mults: seq<Value>): (string, nat) -> Value {
    (p, j) => if 0 <= j < |mults| then mults[j] else NaN
  }

  /** `param_multipliers.get(param, ko_multiplier)` */
  function KoFactor(pm: seq<(string, real)>, koMultiplier: real): (string, nat) -> Value {
    (p, j) => Num(Entry(pm, p).GetOr(koMultiplier))
  }

  /** The knockdown multipliers of a knockdown approach, None for an unknown one. */
  function KnockdownMultipliers(rng: Rng, pert: Perturbation, n: nat): (m: Option<seq<Value>>)
    requires pert.KnockdownBy?
    ensures m.Some? ==> |m.value| == n
  {
    if pert.approach == "beta" then Some(BetaKnockdownMultipliers(rng, pert.betaA, pert.betaB, n))
    else if pert.approach == "truncnorm" then Some(TruncnormMultipliers(rng, pert.kdMeanEff, pert.maxKdPct, n))
    else if pert.approach == "direct" then Some(ControlledMultipliers(rng, n, 1.0 - pert.kdMeanEff, 1.0 - pert.maxKdPct, 0.99, pert.spread))
    else None
  }

  function KnockedDown(t: Table, params: seq<string>, mults: seq<Value>): (r: Table)
    requires |mults| == |t.rows|
  {
    ScaleParams(Assign(t, KNOCKDOWN_MULTIPLIER, mults), params, RowFactor(mults))
  }

  function KnockedOutBySetting(t: Table, params: seq<string>, koValue: real): Table {
    SetParams(Assign(t, "knockout_value", Fill(|t.rows|, Num(koValue))), params, Num(koValue))
  }

  function KnockedOutByMultiplying(t: Table, params: seq<string>, koMultiplier: real, pm: seq<(string, real)>): Table {
    var scaled := ScaleParams(t, params, KoFactor(pm, koMultiplier));
    if pm != [] then MarkMultipliers(Assign(scaled, "knockout_custom_multipliers", Fill(|t.rows|, Flag(true))), params, pm)
    else Assign(scaled, "knockout_multiplier", Fill(|t.rows|, Num(koMultiplier)))
  }

  /** The table `perturb_params` returns (its second result, the multipliers,
      is discarded by every caller). Missing parameters are reported first;
      reading the first row of a parameter fails on an empty table. */
  function Perturbed(t: Table, params: seq<string>, pert: Perturbation, rng: Rng): Result<Table, Error> {
    var missing := Filter(params, Absent(t.columns));
    if missing != [] then Failure(ParametersNotFound(missing))
    else if params != [] && t.rows == [] then Failure(EmptyTable)
    else match pert
      case KnockdownBy(approach, _, _, _, _, _) =>
        var mults := KnockdownMultipliers(rng, pert, |t.rows|);
        if mults.Some? then Success(KnockedDown(t, params, mults.value))
        else Failure(UnknownKnockdownApproach(approach))
      case KnockoutBy(m, v, mult, pm) =>
        if m == "set" then Success(KnockedOutBySetting(t, params, v))
        else if m == "multiply" then Success(KnockedOutByMultiplying(t, params, mult, pm))
        else Failure(UnknownKnockoutMethod(m))
  }

  /** Scaling keeps the rows and their keys and adds only the scaled columns. */
  lemma {:induction false} ScaleParamsShape(t: Table, params: seq<string>, factor: (string, nat) -> Value)
    ensures var r := ScaleParams(t, params, factor);
      && (forall c :: c in r.columns <==> c in t.columns || c in params)
      && |t.columns| <= |r.columns| && r.columns[..|t.columns|] == t.columns
      && (forall j :: 0 <= j < |t.rows| ==> r.rows[j].key == t.rows[j].key)
    decreases |params|
  {
    if params != [] {
      var init := params[..|params| - 1];
      ScaleParamsShape(t, init, factor);
      var prev := ScaleParams(t, init, factor);
      var p := params[|params| - 1];
      AssignFacts(prev, p, Times(Column(prev, p), Factors(factor, p, |prev.rows|)));
      assert params == init + [p];
      var r := ScaleParams(t, params, factor);
      assert r.columns[..|t.columns|] == r.columns[..|prev.columns|][..|t.columns|];
    }
  }

  /** Each listed parameter (listed once) is multiplied by its factor; every
      other column is left as it was. */
  lemma {:induction false} ScaleParamsCells(t: Table, params: seq<string>, factor: (string, nat) -> Value)
    requires NoDup(params)
    ensures var r := ScaleParams(t, params, factor);
      forall j, c :: 0 <= j < |t.rows| && c in params ==> Get(r.rows[j], c) == Mul(Get(t.rows[j], c), factor(c, j))
    decreases |params|
  {
    if params != [] {
      var init := params[..|params| - 1];
      var p := params[|params| - 1];
      assert params == init + [p];
      assert NoDup(init);
      assert p !in init;
      ScaleParamsCells(t, init, factor);
      ScaleParamsOthers(t, init, factor);
      var prev := ScaleParams(t, init, factor);
      AssignFacts(prev, p, Times(Column(prev, p), Factors(factor, p, |prev.rows|)));
    }
  }

  /** Columns that are not listed keep their cells. */
  lemma {:induction false} ScaleParamsOthers(t: Table, params: seq<string>, factor: (string, nat) -> Value)
    ensures var r := ScaleParams(t, params, factor);
      forall j, c :: 0 <= j < |t.rows| && c !in params ==> Get(r.rows[j], c) == Get(t.rows[j], c)
    decreases |params|
  {
    if params != [] {
      var init := params[..|params| - 1];
      var p := params[|params| - 1];
      assert params == init + [p];
      ScaleParamsOthers(t, init, factor);
      var prev := ScaleParams(t, init, factor);
      AssignFacts(prev, p, Times(Column(prev, p), Factors(factor, p, |prev.rows|)));
    }
  }

  lemma {:induction false} SetParamsShape(t: Table, params: seq<string>, v: Value)
    ensures var r := SetParams(t, params, v);
      && (forall c :: c in r.columns <==> c in t.columns || c in params)
      && |t.columns| <= |r.columns| && r.columns[..|t.columns|] == t.columns
      && (forall j :: 0 <= j < |t.rows| ==> r.rows[j].key == t.rows[j].key)
    decreases |params|
  {
    if params != [] {
      var init := params[..|params| - 1];
      SetParamsShape(t, init, v);
      var prev := SetParams(t, init, v);
      var p := params[|params| - 1];
      AssignFacts(prev, p, Fill(|prev.rows|, v));
      assert params == init + [p];
      var r := SetParams(t, params, v);
      assert r.columns[..|t.columns|] == r.columns[..|prev.columns|][..|t.columns|];
    }
  }

  /** Every listed parameter holds the value in every row, repeated or not;
      every other column is left as it was. */
  lemma {:induction false} SetParamsCells(t: Table, params: seq<string>, v: Value)
    ensures var r := SetParams(t, params, v);
      && (forall j, c :: 0 <= j < |t.rows| && c in params ==> r.rows[j].key == t.rows[j].key && Get(r.rows[j], c) == v)
      && (forall j, c :: 0 <= j < |t.rows| && c !in params ==> Get(r.rows[j], c) == Get(t.rows[j], c))
    decreases |params|
  {
    if params != [] {
      var init := params[..|params| - 1];
      var p := params[|params| - 1];
      assert params == init + [p];
      SetParamsCells(t, init, v);
      SetParamsShape(t, init, v);
      var prev := SetParams(t, init, v);
      AssignFacts(prev, p, Fill(|prev.rows|, v));
      var r := SetParams(t, params, v);
      assert r == Assign(prev, p, Fill(|prev.rows|, v));
      forall j, c | 0 <= j < |t.rows| && c in params ensures r.rows[j].key == t.rows[j].key && Get(r.rows[j], c) == v {
        if c != p {
          assert c in init;
        }
      }
    }
  }

  const MULTIPLIER_PREFIX := "knockout_mult_"

  lemma MultiplierColumnPrefix(param: string)
    ensures StartsWith(MultiplierColumn(param), MULTIPLIER_PREFIX)
  {
    StartsWithAppend(MULTIPLIER_PREFIX, Last(Split(param, '.')));
  }

  /** Only `knockout_mult_*` columns are added, one for each custom
      multiplier of a target parameter. */
  lemma {:induction false} MarkMultipliersShape(t: Table, params: seq<string>, pm: seq<(string, real)>)
    ensures var r := MarkMultipliers(t, params, pm);
      && (forall c :: c in r.columns ==> c in t.columns || StartsWith(c, MULTIPLIER_PREFIX))
      && (forall k :: 0 <= k < |pm| && pm[k].0 in params ==> MultiplierColumn(pm[k].0) in r.columns)
      && |t.columns| <= |r.columns| && r.columns[..|t.columns|] == t.columns
      && (forall j :: 0 <= j < |t.rows| ==> r.rows[j].key == t.rows[j].key)
    decreases |pm|
  {
    if pm != [] {
      var n := |pm| - 1;
      var init := pm[..n];
      assert forall k :: 0 <= k < n ==> init[k] == pm[k];
      MarkMultipliersShape(t, params, init);
      var prev := MarkMultipliers(t, params, init);
      var r := MarkMultipliers(t, params, pm);
      var (q, m) := pm[n];
      if q in params {
        var col := MultiplierColumn(q);
        MultiplierColumnPrefix(q);
        AssignFacts(prev, col, Fill(|prev.rows|, Num(m)));
        assert r.columns[..|t.columns|] == r.columns[..|prev.columns|][..|t.columns|];
      }
    }
  }

  /** Columns other than the markers keep their cells. */
  lemma {:induction false} MarkMultipliersOthers(t: Table, params: seq<string>, pm: seq<(string, real)>)
    ensures var r := MarkMultipliers(t, params, pm);
      forall j, c :: 0 <= j < |t.rows| && !StartsWith(c, MULTIPLIER_PREFIX) ==> Get(r.rows[j], c) == Get(t.rows[j], c)
    decreases |pm|
  {
    if pm != [] {
      var n := |pm| - 1;
      MarkMultipliersOthers(t, params, pm[..n]);
      var prev := MarkMultipliers(t, params, pm[..n]);
      var (q, m) := pm[n];
      if q in params {
        MultiplierColumnPrefix(q);
        AssignFacts(prev, MultiplierColumn(q), Fill(|prev.rows|, Num(m)));
      }
    }
  }

  /** No later entry of `pm` for a target writes the same multiplier column
      as entry `k`. */
  predicate LastWriter(pm: seq<(string, real)>, params: seq<string>, k: nat)
    requires k < |pm|
  {
    forall l :: k < l < |pm| && pm[l].0 in params ==> MultiplierColumn(pm[l].0) != MultiplierColumn(pm[k].0)
  }

  /** Each marker column holds the multiplier of the last entry that writes
      it. */
  lemma {:induction false} MarkMultipliersValues(t: Table, params: seq<string>, pm: seq<(string, real)>)
    ensures var r := MarkMultipliers(t, params, pm);
      forall j, k :: 0 <= j < |t.rows| && 0 <= k < |pm| && pm[k].0 in params && LastWriter(pm, params, k) ==>
        r.rows[j].key == t.rows[j].key && Get(r.rows[j], MultiplierColumn(pm[k].0)) == Num(pm[k].1)
    decreases |pm|
  {
    if pm != [] {
      var n := |pm| - 1;
      var init := pm[..n];
      MarkMultipliersValues(t, params, init);
      MarkMultipliersShape(t, params, init);
      var prev := MarkMultipliers(t, params, init);
      var r := MarkMultipliers(t, params, pm);
      var (q, m) := pm[n];
      if q in params {
        AssignFacts(prev, MultiplierColumn(q), Fill(|prev.rows|, Num(m)));
      }
      forall j, k | 0 <= j < |t.rows| && 0 <= k < |pm| && pm[k].0 in params && LastWriter(pm, params, k)
        ensures r.rows[j].key == t.rows[j].key && Get(r.rows[j], MultiplierColumn(pm[k].0)) == Num(pm[k].1)
      {
        if k < n {
          LastWriterInit(pm, params, k);
          assert init[k] == pm[k];
          assert Get(prev.rows[j], MultiplierColumn(init[k].0)) == Num(init[k].1);
        }
      }
    }
  }

  /** The last writer of a column among all entries is its last writer among
      all entries but the last, and the last entry writes another column. */
  lemma LastWriterInit(pm: seq<(string, real)>, params: seq<string>, k: nat)
    requires k < |pm| - 1 && LastWriter(pm, params, k)
    ensures LastWriter(pm[..|pm| - 1], params, k)
    ensures pm[|pm| - 1].0 in params ==> MultiplierColumn(pm[|pm| - 1].0) != MultiplierColumn(pm[k].0)
  {
    var init := pm[..|pm| - 1];
    forall l | k < l < |init| && init[l].0 in params
      ensures MultiplierColumn(init[l].0) != MultiplierColumn(init[k].0)
    {
      assert init[l] == pm[l];
    }
  }

  /** The bookkeeping columns `perturb_params` adds beside the parameters. */
  predicate Bookkeeping(c: string) {
    c == KNOCKDOWN_MULTIPLIER || c == "knockout_value" || c == "knockout_custom_multipliers" ||
    c == "knockout_multiplier" || StartsWith(c, MULTIPLIER_PREFIX)
  }

  /** `perturb_params` fails exactly when a parameter is missing (reporting
      all the missing ones in order), when a parameter must be read from an
      empty table, or when the approach or method is unknown; in that
      order. */
  lemma PerturbedErrors(t: Table, params: seq<string>, pert: Perturbation, rng: Rng)
    ensures var r := Perturbed(t, params, pert, rng);
      && ((exists p :: p in params && p !in t.columns) <==> r == Failure(ParametersNotFound(Filter(params, Absent(t.columns)))))
      && (r == Failure(EmptyTable) <==> (forall p :: p in params ==> p in t.columns) && params != [] && t.rows == [])
      && (r.Failure? && r.error.UnknownKnockdownApproach? <==>
            (forall p :: p in params ==> p in t.columns) && (params == [] || t.rows != []) &&
            pert.KnockdownBy? && pert.approach !in {"beta", "truncnorm", "direct"})
      && (r.Failure? && r.error.UnknownKnockoutMethod? <==>
            (forall p :: p in params ==> p in t.columns) && (params == [] || t.rows != []) &&
            pert.KnockoutBy? && pert.koMethod !in {"set", "multiply"})
  {
    var missing := Filter(params, Absent(t.columns));
    assert forall p :: p in missing <==> p in params && p !in t.columns;
  }

  /** `r` keeps every row of `t`, in order and with its key, keeps the
      columns of `t` in front and adds only bookkeeping columns. */
  predicate RowsKept(r: Table, t: Table) {
    && |r.rows| == |t.rows|
    && (forall j :: 0 <= j < |t.rows| ==> r.rows[j].key == t.rows[j].key)
    && |t.columns| <= |r.columns| && r.columns[..|t.columns|] == t.columns
    && (forall c :: c in r.columns ==> c in t.columns || Bookkeeping(c))
  }

  lemma KnockedDownKeepsRows(t: Table, params: seq<string>, mults: seq<Value>)
    requires |mults| == |t.rows| && forall p :: p in params ==> p in t.columns
    ensures RowsKept(KnockedDown(t, params, mults), t)
  {
    var a := Assign(t, KNOCKDOWN_MULTIPLIER, mults);
    var r := KnockedDown(t, params, mults);
    AssignFacts(t, KNOCKDOWN_MULTIPLIER, mults);
    ScaleParamsShape(a, params, RowFactor(mults));
    assert r.columns[..|t.columns|] == r.columns[..|a.columns|][..|t.columns|];
  }

  lemma SettingKeepsRows(t: Table, params: seq<string>, v: real)
    requires forall p :: p in params ==> p in t.columns
    ensures RowsKept(KnockedOutBySetting(t, params, v), t)
  {
    var n := |t.rows|;
    var a := Assign(t, "knockout_value", Fill(n, Num(v)));
    var r := KnockedOutBySetting(t, params, v);
    AssignFacts(t, "knockout_value", Fill(n, Num(v)));
    SetParamsShape(a, params, Num(v));
    assert r.columns[..|t.columns|] == r.columns[..|a.columns|][..|t.columns|];
  }

  lemma MultiplyingKeepsRows(t: Table, params: seq<string>, mult: real, pm: seq<(string, real)>)
    requires forall p :: p in params ==> p in t.columns
    ensures RowsKept(KnockedOutByMultiplying(t, params, mult, pm), t)
  {
    var n := |t.rows|;
    var r := KnockedOutByMultiplying(t, params, mult, pm);
    var scaled := ScaleParams(t, params, KoFactor(pm, mult));
    ScaleParamsShape(t, params, KoFactor(pm, mult));
    if pm != [] {
      var a := Assign(scaled, "knockout_custom_multipliers", Fill(n, Flag(true)));
      AssignFacts(scaled, "knockout_custom_multipliers", Fill(n, Flag(true)));
      MarkMultipliersShape(a, params, pm);
      assert r.columns[..|t.columns|] == r.columns[..|a.columns|][..|scaled.columns|][..|t.columns|];
    } else {
      AssignFacts(scaled, "knockout_multiplier", Fill(n, Num(mult)));
      assert r.columns[..|t.columns|] == r.columns[..|scaled.columns|][..|t.columns|];
    }
  }

  /** A successful perturbation keeps every row, in order and with its key,
      and keeps the table's columns in front. */
  lemma PerturbedKeepsRows(t: Table, params: seq<string>, pert: Perturbation, rng: Rng)
    requires Perturbed(t, params, pert, rng).Success?
    ensures var r := Perturbed(t, params, pert, rng).value;
      && |r.rows| == |t.rows|
      && (forall j :: 0 <= j < |t.rows| ==> r.rows[j].key == t.rows[j].key)
      && |t.columns| <= |r.columns| && r.columns[..|t.columns|] == t.columns
      && (forall c :: c in r.columns ==> c in t.columns || Bookkeeping(c))
  {
    var missing := Filter(params, Absent(t.columns));
    assert forall p :: p in missing <==> p in params && p !in t.columns;
    match pert
    case KnockdownBy(_, _, _, _, _, _) => {
      KnockedDownKeepsRows(t, params, KnockdownMultipliers(rng, pert, |t.rows|).value);
    }
    case KnockoutBy(m, v, mult, pm) => {
      if m == "set" {
        SettingKeepsRows(t, params, v);
      } else {
        MultiplyingKeepsRows(t, params, mult, pm);
      }
    }
  }

  /** Knockout by setting: every target holds the knockout value in every
      row and `knockout_value` records it. */
  lemma PerturbedKnockoutSet(t: Table, params: seq<string>, koValue: real, koMultiplier: real, pm: seq<(string, real)>, rng: Rng)
    requires Perturbed(t, params, KnockoutBy("set", koValue, koMultiplier, pm), rng).Success?
    ensures var r := Perturbed(t, params, KnockoutBy("set", koValue, koMultiplier, pm), rng).value;
      && (forall j, p :: 0 <= j < |t.rows| && p in params ==> Get(r.rows[j], p) == Num(koValue))
      && (forall j :: 0 <= j < |t.rows| ==> Get(r.rows[j], "knockout_value") == Num(koValue))
  {
    var n := |t.rows|;
    var a := Assign(t, "knockout_value", Fill(n, Num(koValue)));
    var r := SetParams(a, params, Num(koValue));
    assert Perturbed(t, params, KnockoutBy("set", koValue, koMultiplier, pm), rng).value == r;
    AssignFacts(t, "knockout_value", Fill(n, Num(koValue)));
    SetParamsCells(a, params, Num(koValue));
    forall j | 0 <= j < n ensures Get(r.rows[j], "knockout_value") == Num(koValue) {
      if "knockout_value" !in params {
        assert Get(a.rows[j], "knockout_value") == Num(koValue);
      }
    }
  }

  lemma MultipliedTargets(t: Table, params: seq<string>, koMultiplier: real, pm: seq<(string, real)>)
    requires NoDup(params)
    ensures var r := KnockedOutByMultiplying(t, params, koMultiplier, pm);
      forall j, p :: 0 <= j < |t.rows| && p in params && !Bookkeeping(p) ==>
        Get(r.rows[j], p) == Mul(Get(t.rows[j], p), Num(Entry(pm, p).GetOr(koMultiplier)))
  {
    var n := |t.rows|;
    var f := KoFactor(pm, koMultiplier);
    var scaled := ScaleParams(t, params, f);
    var r := KnockedOutByMultiplying(t, params, koMultiplier, pm);
    ScaleParamsCells(t, params, f);
    forall j, p | 0 <= j < n && p in params && !Bookkeeping(p)
      ensures Get(r.rows[j], p) == Mul(Get(t.rows[j], p), Num(Entry(pm, p).GetOr(koMultiplier)))
    {
      assert f(p, j) == Num(Entry(pm, p).GetOr(koMultiplier));
      assert Get(scaled.rows[j], p) == Mul(Get(t.rows[j], p), f(p, j));
      MultipliedRecordsKeep(scaled, params, koMultiplier, pm, |t.rows|, j, p);
    }
  }

  /** The records written after scaling do not touch a target column. */
  lemma MultipliedRecordsKeep(scaled: Table, params: seq<string>, koMultiplier: real, pm: seq<(string, real)>, n: nat, j: nat, p: string)
    requires |scaled.rows| == n && j < n && !Bookkeeping(p)
    ensures var r := if pm != [] then MarkMultipliers(Assign(scaled, "knockout_custom_multipliers", Fill(n, Flag(true))), params, pm)
                     else Assign(scaled, "knockout_multiplier", Fill(n, Num(koMultiplier)));
      Get(r.rows[j], p) == Get(scaled.rows[j], p)
  {
    if pm != [] {
      var a := Assign(scaled, "knockout_custom_multipliers", Fill(n, Flag(true)));
      AssignFacts(scaled, "knockout_custom_multipliers", Fill(n, Flag(true)));
      MarkMultipliersOthers(a, params, pm);
    } else {
      AssignFacts(scaled, "knockout_multiplier", Fill(n, Num(koMultiplier)));
    }
  }

  /** The custom-multiplier flag survives the marking of the multiplier
      columns, whose names all carry the multiplier prefix. */
  lemma CustomFlagKept(scaled: Table, params: seq<string>, pm: seq<(string, real)>)
    ensures var a := Assign(scaled, "knockout_custom_multipliers", Fill(|scaled.rows|, Flag(true)));
      forall j :: 0 <= j < |scaled.rows| ==>
        Get(MarkMultipliers(a, params, pm).rows[j], "knockout_custom_multipliers") == Flag(true)
  {
    var n := |scaled.rows|;
    var c := "knockout_custom_multipliers";
    var a := Assign(scaled, c, Fill(n, Flag(true)));
    AssignFacts(scaled, c, Fill(n, Flag(true)));
    assert !StartsWith(c, MULTIPLIER_PREFIX) by {
      assert c[9] != MULTIPLIER_PREFIX[9];
    }
    MarkMultipliersOthers(a, params, pm);
    var r := MarkMultipliers(a, params, pm);
    forall j | 0 <= j < n ensures Get(r.rows[j], c) == Flag(true) {
      assert Get(r.rows[j], c) == Get(a.rows[j], c);
    }
  }

  lemma MultipliedRecords(t: Table, params: seq<string>, koMultiplier: real, pm: seq<(string, real)>)
    ensures var r := KnockedOutByMultiplying(t, params, koMultiplier, pm);
      && (forall j :: 0 <= j < |t.rows| && pm == [] ==> Get(r.rows[j], "knockout_multiplier") == Num(koMultiplier))
      && (forall j :: 0 <= j < |t.rows| && pm != [] ==> Get(r.rows[j], "knockout_custom_multipliers") == Flag(true))
  {
    var scaled := ScaleParams(t, params, KoFactor(pm, koMultiplier));
    if pm != [] {
      CustomFlagKept(scaled, params, pm);
    } else {
      AssignFacts(scaled, "knockout_multiplier", Fill(|t.rows|, Num(koMultiplier)));
    }
  }

  /** Knockout by multiplying: every target (listed once) is multiplied by
      its custom multiplier, or by the default one when it has none, and the
      multiplier used is recorded. */
  lemma PerturbedKnockoutMultiply(t: Table, params: seq<string>, koValue: real, koMultiplier: real, pm: seq<(string, real)>, rng: Rng)
    requires NoDup(params)
    requires Perturbed(t, params, KnockoutBy("multiply", koValue, koMultiplier, pm), rng).Success?
    ensures var r := Perturbed(t, params, KnockoutBy("multiply", koValue, koMultiplier, pm), rng).value;
      && (forall j, p :: 0 <= j < |t.rows| && p in params && !Bookkeeping(p) ==>
            Get(r.rows[j], p) == Mul(Get(t.rows[j], p), Num(Entry(pm, p).GetOr(koMultiplier))))
      && (forall j :: 0 <= j < |t.rows| && pm == [] ==> Get(r.rows[j], "knockout_multiplier") == Num(koMultiplier))
      && (forall j :: 0 <= j < |t.rows| && pm != [] ==> Get(r.rows[j], "knockout_custom_multipliers") == Flag(true))
  {
    assert Perturbed(t, params, KnockoutBy("multiply", koValue, koMultiplier, pm), rng).value ==
      KnockedOutByMultiplying(t, params, koMultiplier, pm);
    MultipliedTargets(t, params, koMultiplier, pm);
    MultipliedRecords(t, params, koMultiplier, pm);
  }

  /** Knockdown: every target (listed once) is multiplied row by row by the
      approach's multipliers, which `knockdown_multiplier` records. */
  lemma PerturbedKnockdown(t: Table, params: seq<string>, pert: Perturbation, rng: Rng)
    requires pert.KnockdownBy? && NoDup(params) && KNOCKDOWN_MULTIPLIER !in params
    requires Perturbed(t, params, pert, rng).Success?
    ensures KnockdownMultipliers(rng, pert, |t.rows|).Some?
    ensures var r := Perturbed(t, params, pert, rng).value;
      var mults := KnockdownMultipliers(rng, pert, |t.rows|).value;
      && (forall j, p :: 0 <= j < |t.rows| && p in params ==> Get(r.rows[j], p) == Mul(Get(t.rows[j], p), mults[j]))
      && (forall j :: 0 <= j < |t.rows| ==> Get(r.rows[j], KNOCKDOWN_MULTIPLIER) == mults[j])
  {
    var mults := KnockdownMultipliers(rng, pert, |t.rows|).value;
    assert Perturbed(t, params, pert, rng) == Success(KnockedDown(t, params, mults));
    KnockedDownCells(t, params, mults);
  }

  lemma KnockedDownCells(t: Table, params: seq<string>, mults: seq<Value>)
    requires |mults| == |t.rows| && NoDup(params) && KNOCKDOWN_MULTIPLIER !in params
    ensures var r := KnockedDown(t, params, mults);
      && (forall j, p :: 0 <= j < |t.rows| && p in params ==> Get(r.rows[j], p) == Mul(Get(t.rows[j], p), mults[j]))
      && (forall j :: 0 <= j < |t.rows| ==> Get(r.rows[j], KNOCKDOWN_MULTIPLIER) == mults[j])
  {
    var a := Assign(t, KNOCKDOWN_MULTIPLIER, mults);
    AssignFacts(t, KNOCKDOWN_MULTIPLIER, mults);
    ScaleParamsCells(a, params, RowFactor(mults));
    ScaleParamsOthers(a, params, RowFactor(mults));
  }

  /** Columns that are neither targets nor bookkeeping are untouched. */
  lemma PerturbedLeavesOthers(t: Table, params: seq<string>, pert: Perturbation, rng: Rng)
    requires Perturbed(t, params, pert, rng).Success?
    ensures var r := Perturbed(t, params, pert, rng).value;
      forall j, c :: 0 <= j < |t.rows| && c !in params && !Bookkeeping(c) ==> Get(r.rows[j], c) == Get(t.rows[j], c)
  {
    var n := |t.rows|;
    match pert
    case KnockdownBy(_, _, _, _, _, _) => {
      var mults := KnockdownMultipliers(rng, pert, n).value;
      var a := Assign(t, KNOCKDOWN_MULTIPLIER, mults);
      AssignFacts(t, KNOCKDOWN_MULTIPLIER, mults);
      ScaleParamsOthers(a, params, RowFactor(mults));
    }
    case KnockoutBy(m, v, mult, pm) => {
      if m == "set" {
        var a := Assign(t, "knockout_value", Fill(n, Num(v)));
        AssignFacts(t, "knockout_value", Fill(n, Num(v)));
        SetParamsCells(a, params, Num(v));
      } else {
        ScaleParamsOthers(t, params, KoFactor(pm, mult));
        var scaled := ScaleParams(t, params, KoFactor(pm, mult));
        if pm != [] {
          var a := Assign(scaled, "knockout_custom_multipliers", Fill(n, Flag(true)));
          AssignFacts(scaled, "knockout_custom_multipliers", Fill(n, Flag(true)));
          MarkMultipliersOthers(a, params, pm);
        } else {
          AssignFacts(scaled, "knockout_multiplier", Fill(n, Num(mult)));
        }
      }
    }
  }

  // ----- the imperative operations -----

  /** The per-parameter loop of a knockdown or of a knockout by multiplying. */
  method MultiplyColumns(t: Table, params: seq<string>, factor: (string, nat) -> Value) returns (r: Table)
    ensures r == ScaleParams(t, params, factor)
  {
    r := t;
    for i := 0 to |params|
      invariant r == ScaleParams(t, params[..i], factor)
    {
      var p := params[i];
      assert params[..i + 1][..i] == params[..i];
      r := Assign(r, p, Times(Column(r, p), Factors(factor, p, |r.rows|)));
    }
    assert params[..|params|] == params;
  }

  /** The per-parameter loop of a knockout by setting. */
  method SetColumns(t: Table, params: seq<string>, v: Value) returns (r: Table)
    ensures r == SetParams(t, params, v)
  {
    r := t;
    for i := 0 to |params|
      invariant r == SetParams(t, params[..i], v)
    {
      assert params[..i + 1][..i] == params[..i];
      r := Assign(r, params[i], Fill(|r.rows|, v));
    }
    assert params[..|params|] == params;
  }

  /** The loop over the custom multiplier dictionary. */
  method RecordMultipliers(t: Table, params: seq<string>, pm: seq<(string, real)>) returns (r: Table)
    ensures r == MarkMultipliers(t, params, pm)
  {
    r := t;
    for i := 0 to |pm|
      invariant r == MarkMultipliers(t, params, pm[..i])
    {
      assert pm[..i + 1][..i] == pm[..i];
      var (q, m) := pm[i];
      if q in params {
        r := Assign(r, MultiplierColumn(q), Fill(|r.rows|, Num(m)));
      }
    }
    assert pm[..|pm|] == pm;
  }

  /** The parameters that are not columns of the table, in order. */
  method MissingParameters(data: Table, params: seq<string>) returns (missing: seq<string>)
    ensures missing == Filter(params, Absent(data.columns))
  {
    missing := [];
    for i := 0 to |params|
      invariant missing == Filter(params[..i], Absent(data.columns))
    {
      FilterSnoc(params[..i], params[i], Absent(data.columns));
      assert params[..i + 1] == params[..i] + [params[i]];
      if params[i] !in data.columns {
        missing := missing + [params[i]];
      }
    }
    assert params[..|params|] == params;
  }

  /** `perturb_params` on a copy of the current data. */
  method PerturbParams(data: Table, params: seq<string>, pert: Perturbation, rng: Rng) returns (r: Result<Table, Error>)
    ensures r == Perturbed(data, params, pert, rng)
  {
    var missing := MissingParameters(data, params);
    if missing != [] {
      return Failure(ParametersNotFound(missing));
    }
    if params != [] && data.rows == [] {
      return Failure(EmptyTable);
    }
    match pert {
      case KnockdownBy(_, _, _, _, _, _) =>
        r := KnockDown(data, params, pert, rng);
      case KnockoutBy(_, _, _, _) =>
        r := KnockOut(data, params, pert, rng);
    }
  }

  /** The multipliers `perturb_params` draws for a knockdown, by approach;
      `None` for an approach it does not know. */
  method DrawKnockdownMultipliers(rng: Rng, pert: Perturbation, n: nat) returns (m: Option<seq<Value>>)
    requires pert.KnockdownBy?
    ensures m == KnockdownMultipliers(rng, pert, n)
  {
    if pert.approach == "beta" {
      m := Some(BetaKnockdownMultipliers(rng, pert.betaA, pert.betaB, n));
    } else if pert.approach == "truncnorm" {
      m := Some(TruncnormMultipliers(rng, pert.kdMeanEff, pert.maxKdPct, n));
    } else if pert.approach == "direct" {
      var mults, passes := CreateControlledKnockdownMultipliers(rng, n, 1.0 - pert.kdMeanEff, 1.0 - pert.maxKdPct, 0.99, pert.spread);
      m := Some(mults);
    } else {
      m := None;
    }
  }

  /** The knockdown branch of `perturb_params`, once the parameters are
      known to be readable. */
  method KnockDown(data: Table, params: seq<string>, pert: Perturbation, rng: Rng) returns (r: Result<Table, Error>)
    requires pert.KnockdownBy? && Filter(params, Absent(data.columns)) == [] && (params == [] || data.rows != [])
    ensures r == Perturbed(data, params, pert, rng)
  {
    var m := DrawKnockdownMultipliers(rng, pert, |data.rows|);
    if m.None? {
      return Failure(UnknownKnockdownApproach(pert.approach));
    }
    var t := Assign(data, KNOCKDOWN_MULTIPLIER, m.value);
    t := MultiplyColumns(t, params, RowFactor(m.value));
    r := Success(t);
  }

  /** The knockout branch of `perturb_params`, once the parameters are
      known to be readable. */
  method KnockOut(data: Table, params: seq<string>, pert: Perturbation, rng: Rng) returns (r: Result<Table, Error>)
    requires pert.KnockoutBy? && Filter(params, Absent(data.columns)) == [] && (params == [] || data.rows != [])
    ensures r == Perturbed(data, params, pert, rng)
  {
    var n := |data.rows|;
    if pert.koMethod == "set" {
      var t := Assign(data, "knockout_value", Fill(n, Num(pert.koValue)));
      t := SetColumns(t, params, Num(pert.koValue));
      r := Success(t);
    } else if pert.koMethod == "multiply" {
      var t := MultiplyColumns(data, params, KoFactor(pert.paramMultipliers, pert.koMultiplier));
      if pert.paramMultipliers != [] {
        t := Assign(t, "knockout_custom_multipliers", Fill(n, Flag(true)));
        t := RecordMultipliers(t, params, pert.paramMultipliers);
      } else {
        t := Assign(t, "knockout_multiplier", Fill(n, Num(pert.koMultiplier)));
      }
      r := Success(t);
    } else {
      r := Failure(UnknownKnockoutMethod(pert.koMethod));
    }
  }
}
