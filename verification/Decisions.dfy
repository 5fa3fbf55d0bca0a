/** Decision responses: joining answers with their raw logits, and temperature calibration in real arithmetic. */
module Decisions {
  import opened Wrappers
  import opened DecisionModel

  datatype DecisionError =
    | DuplicateLogits(id: string)
    | MissingLogits(id: string)
    | InvalidLogits(id: string)
    | InvalidCalibration
    | NotNormalisable
    | DuplicateQuestion(id: string)
    | UnmatchedLogits

  // ---------------------------------------------------------------- calibrated probabilities

  /** All that is assumed of the exponential function. */
  ghost predicate IsExponential(exp: real -> real) {
    && (forall x :: exp(x) > 0.0)
    && (forall x, y :: x < y ==> exp(x) < exp(y))
  }

  predicate AllFinite(logits: seq<Float>) { forall i :: 0 <= i < |logits| ==> logits[i].Finite? }

  predicate ValidTemperature(t: Float) { t.Finite? && t.value > 0.0 }

  predicate Calibratable(logits: seq<Float>, temperature: Float) {
    |logits| >= 2 && AllFinite(logits) && ValidTemperature(temperature)
  }

  function Scaled(logits: seq<Float>, temperature: Float): (s: seq<real>)
    requires AllFinite(logits) && ValidTemperature(temperature)
    ensures |s| == |logits|
  {
    seq(|logits|, i requires 0 <= i < |logits| => logits[i].value / temperature.value)
  }

  function Largest(values: seq<real>): real
    requires values != []
  {
    if |values| == 1 then values[0]
    else
      var front := Largest(values[..|values| - 1]);
      if front < values[|values| - 1] then values[|values| - 1] else front
  }

  function Sum(values: seq<real>): real {
    if values == [] then 0.0 else Sum(values[..|values| - 1]) + values[|values| - 1]
  }

  function Weights(exp: real -> real, scaled: seq<real>): (w: seq<real>)
    requires scaled != []
    ensures |w| == |scaled|
  {
    seq(|scaled|, i requires 0 <= i < |scaled| => exp(scaled[i] - Largest(scaled)))
  }

  function Divided(values: seq<real>, total: real): (r: seq<real>)
    requires total != 0.0
    ensures |r| == |values|
  {
    seq(|values|, i requires 0 <= i < |values| => values[i] / total)
  }

  lemma {:induction false} SumPositive(values: seq<real>)
    requires values != [] && forall i :: 0 <= i < |values| ==> values[i] > 0.0
    ensures Sum(values) > 0.0
  {
    var front := values[..|values| - 1];
    if front == [] { assert Sum(front) == 0.0; } else { SumPositive(front); }
  }

  /** The calibrated distribution. */
  function Calibrated(exp: real -> real, logits: seq<Float>, temperature: Float): seq<real>
    requires Calibratable(logits, temperature)
  {
    var weights := Weights(exp, Scaled(logits, temperature));
    if Sum(weights) == 0.0 then weights else Divided(weights, Sum(weights))
  }

  method Maximum(values: seq<real>) returns (maximum: real)
    requires values != []
    ensures maximum == Largest(values)
    ensures maximum in values && forall i :: 0 <= i < |values| ==> values[i] <= maximum
  {
    maximum := values[0];
    for i := 1 to |values|
      invariant maximum == Largest(values[..i])
      invariant maximum in values && forall j :: 0 <= j < i ==> values[j] <= maximum
    {
      assert values[..i + 1][..i] == values[..i];
      if maximum < values[i] { maximum := values[i]; }
    }
    assert values[..|values|] == values;
  }

  method Total(values: seq<real>) returns (total: real)
    ensures total == Sum(values)
  {
    total := 0.0;
    for i := 0 to |values|
      invariant total == Sum(values[..i])
    {
      assert values[..i + 1][..i] == values[..i];
      total := total + values[i];
    }
    assert values[..|values|] == values;
  }

  /** Divides every weight by the total, in place. */
  method Normalise(weights: array<real>, total: real)
    requires total != 0.0
    modifies weights
    ensures weights[..] == Divided(old(weights[..]), total)
  {
    for i := 0 to weights.Length
      invariant forall j :: 0 <= j < i ==> weights[j] == old(weights[j]) / total
      invariant forall j :: i <= j < weights.Length ==> weights[j] == old(weights[j])
    {
      weights[i] := weights[i] / total;
    }
  }

  /** The exponentials relative to the largest value, so that none exceeds one. */
  method WeightsOf(exp: real -> real, scaled: seq<real>) returns (weights: array<real>)
    requires scaled != []
    ensures fresh(weights) && weights[..] == Weights(exp, scaled)
  {
    hide Largest;
    var maximum := Maximum(scaled);
    weights := new real[|scaled|](i requires 0 <= i < |scaled| => exp(scaled[i] - maximum));
    assert weights[..] == Weights(exp, scaled);
  }

  /** Calibration as the source computes it; in real arithmetic only an invalid input can fail. */
  method CalibratedProbabilities(exp: real -> real, logits: seq<Float>, temperature: Float)
    returns (result: Result<seq<real>, DecisionError>)
    requires IsExponential(exp)
    ensures result == if Calibratable(logits, temperature) then Ok(Calibrated(exp, logits, temperature))
        else Err(InvalidCalibration)
    ensures result.Ok? && SumsToProducts(exp) ==> IsSoftmax(exp, logits, temperature, result.value)
  {
    if |logits| < 2 || !AllFinite(logits) || !temperature.Finite? || temperature.value <= 0.0 {
      return Err(InvalidCalibration);
    }
    hide Largest, Sum, IsExponential, IsSoftmax, SumsToProducts, Calibrated, Scaled, Divided, Weights;
    CalibratedIs(exp, logits, temperature);
    if SumsToProducts(exp) { CalibratedIsSoftmax(exp, logits, temperature); }
    var scaled := Scaled(logits, temperature);
    var weights := WeightsOf(exp, scaled);
    var total := Total(weights[..]);
    if total <= 0.0 { return Err(NotNormalisable); }
    Normalise(weights, total);
    result := Ok(weights[..]);
  }

  lemma {:induction false} SumDivided(values: seq<real>, total: real)
    requires total != 0.0
    ensures Sum(Divided(values, total)) == Sum(values) / total
  {
    if values != [] {
      SumDivided(values[..|values| - 1], total);
      assert Divided(values, total)[..|values| - 1] == Divided(values[..|values| - 1], total);
    }
  }

  lemma DivideKeepsOrder(a: real, b: real, t: real)
    requires t > 0.0
    ensures a < b <==> a / t < b / t
    ensures a > 0.0 ==> a / t > 0.0
  {
    var x, y := a / t, b / t;
    assert a == x * t && b == y * t;
    if a < b && !(x < y) { TimesKeepsOrder(y, x, t); }
    if x < y && !(a < b) { TimesStrict(x, y, t); }
    if a > 0.0 && !(x > 0.0) { TimesKeepsOrder(x, 0.0, t); }
  }

  lemma TimesKeepsOrder(a: real, b: real, t: real)
    requires a <= b && t > 0.0
    ensures a * t <= b * t
  {
  }

  lemma TimesStrict(a: real, b: real, t: real)
    requires a < b && t > 0.0
    ensures a * t < b * t
  {
  }

  /** A distribution: positive entries that sum to one. */
  ghost predicate IsDistribution(p: seq<real>) {
    Sum(p) == 1.0 && forall i :: 0 <= i < |p| ==> p[i] > 0.0
  }

  lemma WeightsPositive(exp: real -> real, scaled: seq<real>)
    requires IsExponential(exp) && scaled != []
    ensures Sum(Weights(exp, scaled)) > 0.0
    ensures forall i :: 0 <= i < |scaled| ==> Weights(exp, scaled)[i] > 0.0
  {
    SumPositive(Weights(exp, scaled));
  }

  lemma CalibratedIs(exp: real -> real, logits: seq<Float>, temperature: Float)
    requires IsExponential(exp) && Calibratable(logits, temperature)
    ensures
      var weights := Weights(exp, Scaled(logits, temperature));
      Sum(weights) > 0.0 && Calibrated(exp, logits, temperature) == Divided(weights, Sum(weights))
  {
    WeightsPositive(exp, Scaled(logits, temperature));
  }

  lemma PairOrder(exp: real -> real, logits: seq<Float>, temperature: Float, i: nat, j: nat)
    requires IsExponential(exp) && Calibratable(logits, temperature) && i < |logits| && j < |logits|
    ensures |Calibrated(exp, logits, temperature)| == |logits|
    ensures logits[i].value < logits[j].value
            <==> Calibrated(exp, logits, temperature)[i] < Calibrated(exp, logits, temperature)[j]
    ensures Calibrated(exp, logits, temperature)[i] > 0.0
  {
    var scaled := Scaled(logits, temperature);
    var weights := Weights(exp, scaled);
    CalibratedIs(exp, logits, temperature);
    WeightsPositive(exp, scaled);
    DivideKeepsOrder(logits[i].value, logits[j].value, temperature.value);
    WeightOrder(exp, scaled, i, j);
    hide Calibrated, Weights, IsExponential, Sum;
    DivideKeepsOrder(weights[i], weights[j], Sum(weights));
  }

  /** At every temperature the calibrated probabilities are a distribution in the order of the logits. */
  lemma CalibrationKeepsOrder(exp: real -> real, logits: seq<Float>, temperature: Float)
    requires IsExponential(exp) && Calibratable(logits, temperature)
    ensures |Calibrated(exp, logits, temperature)| == |logits|
    ensures IsDistribution(Calibrated(exp, logits, temperature))
    ensures forall i, j :: 0 <= i < |logits| && 0 <= j < |logits| ==>
              (logits[i].value < logits[j].value
               <==> Calibrated(exp, logits, temperature)[i] < Calibrated(exp, logits, temperature)[j])
  {
    hide Calibrated, IsExponential, Sum, Weights;
    PairOrder(exp, logits, temperature, 0, 0);
    forall i, j | 0 <= i < |logits| && 0 <= j < |logits|
      ensures logits[i].value < logits[j].value
              <==> Calibrated(exp, logits, temperature)[i] < Calibrated(exp, logits, temperature)[j]
    {
      PairOrder(exp, logits, temperature, i, j);
    }
    forall i | 0 <= i < |logits| ensures Calibrated(exp, logits, temperature)[i] > 0.0 {
      PairOrder(exp, logits, temperature, i, i);
    }
    CalibratedSumsToOne(exp, logits, temperature);
  }

  lemma CalibratedSumsToOne(exp: real -> real, logits: seq<Float>, temperature: Float)
    requires IsExponential(exp) && Calibratable(logits, temperature)
    ensures Sum(Calibrated(exp, logits, temperature)) == 1.0
  {
    hide Calibrated, IsExponential, Sum, Weights, Divided;
    var weights := Weights(exp, Scaled(logits, temperature));
    CalibratedIs(exp, logits, temperature);
    SumDivided(weights, Sum(weights));
    assert Sum(weights) / Sum(weights) == 1.0;
  }

  // ---------------------------------------------------------------- what the temperature does

  ghost predicate SumsToProducts(exp: real -> real) { forall x, y :: exp(x + y) == exp(x) * exp(y) }

  /** Two entries are in proportion to the exponentials of their logits over the temperature. */
  ghost predicate InProportion(
      exp: real -> real, logits: seq<Float>, temperature: Float, p: seq<real>, i: nat, j: nat)
    requires AllFinite(logits) && ValidTemperature(temperature) && |p| == |logits| && i < |p| && j < |p|
  {
    p[i] * exp(logits[j].value / temperature.value) == p[j] * exp(logits[i].value / temperature.value)
  }

  /** The distribution whose entries are in proportion to the exponentials of the logits over the temperature. */
  ghost predicate IsSoftmax(exp: real -> real, logits: seq<Float>, temperature: Float, p: seq<real>) {
    && AllFinite(logits) && ValidTemperature(temperature) && |p| == |logits| && IsDistribution(p)
    && forall i, j :: 0 <= i < |p| && 0 <= j < |p| ==> InProportion(exp, logits, temperature, p, i, j)
  }

  lemma Sums(exp: real -> real, x: real, y: real)
    requires SumsToProducts(exp)
    ensures exp(x + y) == exp(x) * exp(y)
  {
  }

  /** Two weights relative to a third are in the proportion of their own exponentials. */
  lemma Proportion(exp: real -> real, a: real, b: real, m: real, total: real)
    requires SumsToProducts(exp) && total != 0.0
    ensures exp(a - m) / total * exp(b) == exp(b - m) / total * exp(a)
  {
    hide SumsToProducts;
    Sums(exp, a - m, b);
    Sums(exp, b - m, a);
    assert a - m + b == b - m + a;
    Crossed(exp(a - m), exp(b), exp(b - m), exp(a), total);
  }

  lemma Crossed(a: real, b: real, c: real, d: real, total: real)
    requires total != 0.0 && a * b == c * d
    ensures a / total * b == c / total * d
  {
    var x, y := a / total, c / total;
    assert a == x * total && c == y * total;
    assert x * b * total == y * d * total;
    Cancelled(x * b, y * d, total);
  }

  lemma Cancelled(x: real, y: real, total: real)
    requires total != 0.0 && x * total == y * total
    ensures x == y
  {
    assert (x - y) * total == 0.0;
  }

  lemma CalibratedPair(exp: real -> real, logits: seq<Float>, temperature: Float, i: nat, j: nat)
    requires IsExponential(exp) && SumsToProducts(exp) && Calibratable(logits, temperature)
    requires i < |logits| && j < |logits|
    ensures |Calibrated(exp, logits, temperature)| == |logits|
    ensures InProportion(exp, logits, temperature, Calibrated(exp, logits, temperature), i, j)
  {
    hide SumsToProducts, IsExponential, Sum, Largest, Calibrated;
    var scaled := Scaled(logits, temperature);
    CalibratedIs(exp, logits, temperature);
    Proportion(exp, scaled[i], scaled[j], Largest(scaled), Sum(Weights(exp, scaled)));
  }

  lemma CalibratedIsDistribution(exp: real -> real, logits: seq<Float>, temperature: Float)
    requires IsExponential(exp) && Calibratable(logits, temperature)
    ensures var p := Calibrated(exp, logits, temperature); |p| == |logits| && IsDistribution(p)
  {
    hide IsExponential, Calibrated, IsDistribution;
    CalibrationKeepsOrder(exp, logits, temperature);
  }

  lemma CalibratedIsSoftmax(exp: real -> real, logits: seq<Float>, temperature: Float)
    requires IsExponential(exp) && SumsToProducts(exp) && Calibratable(logits, temperature)
    ensures IsSoftmax(exp, logits, temperature, Calibrated(exp, logits, temperature))
  {
    hide SumsToProducts, IsExponential, Calibrated, IsDistribution, InProportion;
    CalibratedIsDistribution(exp, logits, temperature);
    var p := Calibrated(exp, logits, temperature);
    forall i, j | 0 <= i < |p| && 0 <= j < |p| ensures InProportion(exp, logits, temperature, p, i, j) {
      CalibratedPair(exp, logits, temperature, i, j);
    }
  }

  lemma {:induction false} SumInProportion(p: seq<real>, q: seq<real>, a: real, b: real)
    requires |p| == |q| && forall i :: 0 <= i < |p| ==> p[i] * a == q[i] * b
    ensures Sum(p) * a == Sum(q) * b
  {
    if p != [] { SumInProportion(p[..|p| - 1], q[..|q| - 1], a, b); }
  }

  /** The proportions and the sum leave no choice. */
  lemma SoftmaxIsUnique(exp: real -> real, logits: seq<Float>, temperature: Float, p: seq<real>, q: seq<real>)
    requires (forall x :: exp(x) > 0.0)
    requires IsSoftmax(exp, logits, temperature, p) && IsSoftmax(exp, logits, temperature, q)
    ensures p == q
  {
    hide InProportion, Sum;
    forall k | 0 <= k < |p| ensures p[k] == q[k] {
      forall i | 0 <= i < |p| ensures p[i] * q[k] == q[i] * p[k] {
        SameProportion(exp, logits, temperature, p, q, i, k);
      }
      SumInProportion(p, q, q[k], p[k]);
      assert Sum(p) * q[k] == q[k] && Sum(q) * p[k] == p[k];
    }
  }

  lemma SameProportion(
      exp: real -> real, logits: seq<Float>, temperature: Float, p: seq<real>, q: seq<real>, i: nat, k: nat)
    requires AllFinite(logits) && ValidTemperature(temperature) && |p| == |q| == |logits| && i < |p| && k < |p|
    requires InProportion(exp, logits, temperature, p, i, k) && InProportion(exp, logits, temperature, q, i, k)
    requires exp(logits[k].value / temperature.value) > 0.0
    ensures p[i] * q[k] == q[i] * p[k]
  {
    SameRatio(p[i], p[k], q[i], q[k], exp(logits[i].value / temperature.value),
        exp(logits[k].value / temperature.value));
  }

  lemma SameRatio(a: real, b: real, c: real, d: real, v: real, w: real)
    requires a * w == b * v && c * w == d * v && w > 0.0
    ensures a * d == c * b
  {
    assert a * d * w == b * v * d && c * b * w == d * v * b;
    Cancelled(a * d, c * b, w);
  }

  lemma WeightOrder(exp: real -> real, scaled: seq<real>, i: nat, j: nat)
    requires IsExponential(exp) && i < |scaled| && j < |scaled|
    ensures scaled[i] < scaled[j] <==> Weights(exp, scaled)[i] < Weights(exp, scaled)[j]
  {
    var m := Largest(scaled);
    var a, b := scaled[i] - m, scaled[j] - m;
    if b < a { assert exp(b) < exp(a); }
  }

  // ---------------------------------------------------------------- the chosen option

  /** The last index of a largest value. */
  ghost predicate IsLastLargest(values: seq<real>, n: nat) {
    && n < |values|
    && (forall i :: 0 <= i < |values| ==> values[i] <= values[n])
    && (forall i :: n < i < |values| ==> values[i] < values[n])
  }

  method ArgMax(values: seq<real>) returns (n: nat)
    ensures values == [] ==> n == 0
    ensures values != [] ==> IsLastLargest(values, n)
  {
    n := 0;
    for i := 0 to |values|
      invariant if values == [] then n == 0 else n < |values| && n <= i
      invariant forall j :: 0 <= j < i ==> values[j] <= values[n]
      invariant forall j :: n < j < i ==> values[j] < values[n]
    {
      if values[i] >= values[n] { n := i; }
    }
  }

  function Values(logits: seq<Float>): (v: seq<real>)
    requires AllFinite(logits)
    ensures |v| == |logits|
  {
    seq(|logits|, i requires 0 <= i < |logits| => logits[i].value)
  }

  /** Whatever the temperature, the option with the last largest calibrated probability is the one with the last
      largest logit. */
  lemma ChoiceIgnoresTemperature(exp: real -> real, logits: seq<Float>, temperature: Float, n: nat)
    requires IsExponential(exp) && Calibratable(logits, temperature)
    ensures IsLastLargest(Calibrated(exp, logits, temperature), n) <==> IsLastLargest(Values(logits), n)
  {
    CalibrationKeepsOrder(exp, logits, temperature);
    hide Calibrated;
    var p, v := Calibrated(exp, logits, temperature), Values(logits);
    if n < |logits| {
      forall i | 0 <= i < |logits| ensures (p[i] <= p[n] <==> v[i] <= v[n]) && (p[i] < p[n] <==> v[i] < v[n]) {
        assert logits[n].value < logits[i].value <==> p[n] < p[i];
      }
    }
  }

  /** The mean position of a distribution over a scale. */
  function Mean(p: seq<real>): real {
    if p == [] then 0.0 else Mean(p[..|p| - 1]) + (|p| - 1) as real * p[|p| - 1]
  }

  /** The probability of each position above the first or any higher one, added up. */
  function TailSums(p: seq<real>): real {
    if |p| <= 1 then 0.0 else Sum(p[1..]) + TailSums(p[1..])
  }

  lemma {:induction false} SumFromFront(p: seq<real>)
    requires p != []
    ensures Sum(p) == p[0] + Sum(p[1..])
  {
    if |p| > 1 {
      SumFromFront(p[..|p| - 1]);
      assert p[1..][..|p| - 2] == p[..|p| - 1][1..];
    }
  }

  lemma {:induction false} MeanFromFront(p: seq<real>)
    requires p != []
    ensures Mean(p) == Mean(p[1..]) + Sum(p[1..])
  {
    if |p| > 1 {
      MeanFromFront(p[..|p| - 1]);
      assert p[1..][..|p| - 2] == p[..|p| - 1][1..];
      var last := p[|p| - 1];
      assert (|p| - 1) as real * last == (|p| - 2) as real * last + last;
    }
  }

  /** The mean position is the sum, over all positions but the first, of the probability of being there or higher. */
  lemma {:induction false} MeanIsTailSums(p: seq<real>)
    ensures Mean(p) == TailSums(p)
  {
    if p != [] {
      MeanFromFront(p);
      MeanIsTailSums(p[1..]);
    }
  }

  lemma {:induction false} MeanWithin(p: seq<real>)
    requires p != [] && forall i :: 0 <= i < |p| ==> p[i] >= 0.0
    ensures 0.0 <= Mean(p) <= (|p| - 1) as real * Sum(p)
  {
    var front, last := p[..|p| - 1], p[|p| - 1];
    var n := (|p| - 1) as real;
    assert n * last >= 0.0;
    if front == [] {
      assert Mean(front) == 0.0 && Sum(front) == 0.0;
    } else {
      MeanWithin(front);
      SumNotNegative(front);
      assert n * Sum(p) == n * Sum(front) + n * last;
      assert (|front| - 1) as real * Sum(front) <= n * Sum(front);
    }
  }

  lemma {:induction false} SumNotNegative(p: seq<real>)
    requires forall i :: 0 <= i < |p| ==> p[i] >= 0.0
    ensures Sum(p) >= 0.0
  {
    if p != [] { SumNotNegative(p[..|p| - 1]); }
  }

  /** A calibrated score lies on its scale. */
  lemma ScoreOnScale(exp: real -> real, logits: seq<Float>, temperature: Float)
    requires IsExponential(exp) && Calibratable(logits, temperature)
    ensures 0.0 <= Mean(Calibrated(exp, logits, temperature)) <= (|logits| - 1) as real
  {
    CalibrationKeepsOrder(exp, logits, temperature);
    MeanWithin(Calibrated(exp, logits, temperature));
  }

  // ---------------------------------------------------------------- the join of answers and logits

  /** One validated temperature for each kind of question. */
  datatype Calibration = Calibration(noul: Float, choice: Float, score: Float, profile: string)

  datatype ApiAnswer =
    | NoulAnswer(noul: Float)
    | ChoiceAnswer(choice: string, probabilities: seq<(string, Float)>, concentration: Float)
    | ScoreAnswer(score: Float, legend: seq<string>, weights: seq<Float>, concentration: Float)

  datatype ApiResponse = ApiResponse(
    calibratedBy: Option<string>,
    answers: seq<(string, ApiAnswer)>,
    rawLogits: Option<seq<(string, seq<Float>)>>,
    inputTokens: nat, outputTokens: nat)

  /** How many options an answer has. */
  function OptionCount(answer: Answer): nat {
    match answer
    case Noul(_) => 2
    case Choice(_, probabilities, _) => |probabilities|
    case Score(_, _, weights, _) => |weights|
  }

  function TemperatureFor(calibration: Calibration, answer: Answer): Float {
    match answer
    case Noul(_) => calibration.noul
    case Choice(_, _, _) => calibration.choice
    case Score(_, _, _, _) => calibration.score
  }

  /** An insertion-ordered map built from pairs: a repeated key keeps its place and takes the later value. */
  function Collected<V>(pairs: seq<(string, V)>): seq<(string, V)> {
    if pairs == [] then [] else Inserted(Collected(pairs[..|pairs| - 1]), pairs[|pairs| - 1])
  }

  function Inserted<V>(m: seq<(string, V)>, pair: (string, V)): seq<(string, V)> {
    if m == [] then [pair]
    else if m[0].0 == pair.0 then [pair] + m[1..]
    else [m[0]] + Inserted(m[1..], pair)
  }

  predicate DistinctKeys<V>(pairs: seq<(string, V)>) {
    forall i, j :: 0 <= i < j < |pairs| ==> pairs[i].0 != pairs[j].0
  }

  lemma {:induction false} InsertedNew<V>(m: seq<(string, V)>, pair: (string, V))
    requires forall i :: 0 <= i < |m| ==> m[i].0 != pair.0
    ensures Inserted(m, pair) == m + [pair]
  {
    if m != [] {
      InsertedNew(m[1..], pair);
      assert m == [m[0]] + m[1..];
    }
  }

  /** Distinct keys are collected unchanged, in order. */
  lemma {:induction false} CollectedDistinct<V>(pairs: seq<(string, V)>)
    requires DistinctKeys(pairs)
    ensures Collected(pairs) == pairs
  {
    if pairs != [] {
      CollectedDistinct(pairs[..|pairs| - 1]);
      InsertedNew(pairs[..|pairs| - 1], pairs[|pairs| - 1]);
      assert pairs == pairs[..|pairs| - 1] + [pairs[|pairs| - 1]];
    }
  }

  function Keys<V>(pairs: seq<(string, V)>): (keys: seq<string>)
    ensures |keys| == |pairs|
  {
    seq(|pairs|, i requires 0 <= i < |pairs| => pairs[i].0)
  }

  /** The keys in the order in which they first appear. */
  function FirstKeys(keys: seq<string>): seq<string> {
    if keys == [] then []
    else
      var front, last := keys[..|keys| - 1], keys[|keys| - 1];
      FirstKeys(front) + (if last in front then [] else [last])
  }

  /** The value a key was given last. */
  function LastValue<V>(pairs: seq<(string, V)>, key: string): Option<V> {
    if pairs == [] then None
    else if pairs[|pairs| - 1].0 == key then Some(pairs[|pairs| - 1].1)
    else LastValue(pairs[..|pairs| - 1], key)
  }

  lemma {:induction false} InsertedKeys<V>(m: seq<(string, V)>, pair: (string, V))
    ensures Keys(Inserted(m, pair)) == if pair.0 in Keys(m) then Keys(m) else Keys(m) + [pair.0]
  {
    if m != [] {
      InsertedKeys(m[1..], pair);
      assert Keys(m) == [m[0].0] + Keys(m[1..]);
      var n := Inserted(m, pair);
      if m[0].0 != pair.0 { assert Keys(n) == [m[0].0] + Keys(Inserted(m[1..], pair)); }
    }
  }

  lemma {:induction false} InsertedValue<V>(m: seq<(string, V)>, pair: (string, V), n: nat)
    requires DistinctKeys(m) && n < |Inserted(m, pair)|
    ensures
      var e := Inserted(m, pair)[n];
      if e.0 == pair.0 then e == pair else n < |m| && e == m[n]
  {
    if m != [] && m[0].0 != pair.0 && n > 0 { InsertedValue(m[1..], pair, n - 1); }
  }

  lemma {:induction false} FirstKeysDistinct(keys: seq<string>)
    ensures forall i, j :: 0 <= i < j < |FirstKeys(keys)| ==> FirstKeys(keys)[i] != FirstKeys(keys)[j]
    ensures forall key :: key in FirstKeys(keys) <==> key in keys
  {
    if keys != [] {
      var front, last := keys[..|keys| - 1], keys[|keys| - 1];
      FirstKeysDistinct(front);
      assert keys == front + [last];
    }
  }

  lemma {:induction false} CollectedKeys<V>(pairs: seq<(string, V)>)
    ensures Keys(Collected(pairs)) == FirstKeys(Keys(pairs))
  {
    if pairs == [] {
      assert Keys(pairs) == [];
    } else {
      var front, last := pairs[..|pairs| - 1], pairs[|pairs| - 1];
      CollectedKeys(front);
      FirstKeysDistinct(Keys(front));
      InsertedKeys(Collected(front), last);
      assert Keys(pairs)[..|pairs| - 1] == Keys(front);
    }
  }

  lemma CollectedDiffer<V>(pairs: seq<(string, V)>)
    ensures DistinctKeys(Collected(pairs))
  {
    CollectedKeys(pairs);
    FirstKeysDistinct(Keys(pairs));
    KeysDistinct(Collected(pairs));
  }

  lemma {:induction false} CollectedValue<V>(pairs: seq<(string, V)>, n: nat)
    requires n < |Collected(pairs)|
    ensures LastValue(pairs, Collected(pairs)[n].0) == Some(Collected(pairs)[n].1)
  {
    var front, last := pairs[..|pairs| - 1], pairs[|pairs| - 1];
    CollectedDiffer(front);
    InsertedValue(Collected(front), last, n);
    if Collected(pairs)[n].0 != last.0 { CollectedValue(front, n); }
  }

  /** Collecting is an insertion-ordered map: every key once, in the order of first appearance, with its last value. */
  lemma CollectedIsMap<V>(pairs: seq<(string, V)>)
    ensures Keys(Collected(pairs)) == FirstKeys(Keys(pairs)) && DistinctKeys(Collected(pairs))
    ensures forall n :: 0 <= n < |Collected(pairs)| ==>
              LastValue(pairs, Collected(pairs)[n].0) == Some(Collected(pairs)[n].1)
  {
    CollectedKeys(pairs);
    CollectedDiffer(pairs);
    forall n | 0 <= n < |Collected(pairs)|
      ensures LastValue(pairs, Collected(pairs)[n].0) == Some(Collected(pairs)[n].1)
    {
      CollectedValue(pairs, n);
    }
  }

  lemma KeysDistinct<V>(m: seq<(string, V)>)
    requires forall i, j :: 0 <= i < j < |Keys(m)| ==> Keys(m)[i] != Keys(m)[j]
    ensures DistinctKeys(m)
  {
    forall i, j | 0 <= i < j < |m| ensures m[i].0 != m[j].0 { assert Keys(m)[i] != Keys(m)[j]; }
  }

  function AsFloats(values: seq<real>): (f: seq<Float>)
    ensures |f| == |values|
  {
    seq(|values|, i requires 0 <= i < |values| => Finite(values[i]))
  }

  function Keyed(pairs: seq<(string, Float)>, values: seq<real>): (r: seq<(string, Float)>)
    requires |pairs| == |values|
    ensures |r| == |pairs|
  {
    seq(|pairs|, i requires 0 <= i < |pairs| => (pairs[i].0, Finite(values[i])))
  }

  /** What the join needs besides the completion: the calibration, the exponential, and how concentration is
      measured. */
  datatype Setup = Setup(calibration: Option<Calibration>, exp: real -> real, concentration: seq<real> -> real,
      includeRaw: bool)

  predicate GoodLogits(setup: Setup, answer: Answer, logits: seq<Float>) {
    && |logits| == OptionCount(answer) && AllFinite(logits)
    && (setup.calibration.Some? ==> Calibratable(logits, TemperatureFor(setup.calibration.value, answer)))
  }

  /** A calibrated choice is the last option with the largest calibrated probability. */
  ghost predicate Converted(setup: Setup, answer: Answer, logits: seq<Float>, r: ApiAnswer)
    requires GoodLogits(setup, answer, logits)
  {
    if setup.calibration.None? then
      match answer
      case Noul(probability) => r == NoulAnswer(probability)
      case Choice(choice, probabilities, concentration) =>
          r == ChoiceAnswer(choice, Collected(probabilities), concentration)
      case Score(score, legend, weights, spread) => r == ScoreAnswer(score, legend, weights, spread)
    else
      var p := Calibrated(setup.exp, logits, TemperatureFor(setup.calibration.value, answer));
      match answer
      case Noul(_) => |p| == 2 && r == NoulAnswer(Finite(p[0]))
      case Choice(_, probabilities, _) =>
        && |p| == |probabilities| && r.ChoiceAnswer?
        && r.probabilities == Collected(Keyed(probabilities, p)) && r.concentration == Finite(setup.concentration(p))
        && exists n :: 0 <= n < |p| && IsLastLargest(p, n) && r.choice == probabilities[n].0
      case Score(_, legend, _, _) =>
        r == ScoreAnswer(Finite(Mean(p)), legend, AsFloats(p), Finite(setup.concentration(p)))
  }

  /** What a calibrated answer shows, each kind at its own temperature: the first probability of a yes-or-no question,
      the last largest option of a choice with all probabilities under their names, the mean position of a score. */
  ghost predicate ShowsCalibrated(setup: Setup, answer: Answer, logits: seq<Float>, r: ApiAnswer)
    requires setup.calibration.Some?
  {
    var c := setup.calibration.value;
    match answer
    case Noul(_) =>
      exists p :: IsSoftmax(setup.exp, logits, c.noul, p) && |p| == 2 && r == NoulAnswer(Finite(p[0]))
    case Choice(_, options, _) =>
      exists p :: IsSoftmax(setup.exp, logits, c.choice, p) && |p| == |options| && r.ChoiceAnswer?
        && (exists n :: 0 <= n < |p| && IsLastLargest(p, n) && r.choice == options[n].0)
        && (DistinctKeys(options) ==>
             && |r.probabilities| == |p|
             && forall i :: 0 <= i < |p| ==> r.probabilities[i] == (options[i].0, Finite(p[i])))
        && r.concentration == Finite(setup.concentration(p))
    case Score(_, legend, _, _) =>
      exists p :: IsSoftmax(setup.exp, logits, c.score, p) && r.ScoreAnswer? && r.legend == legend
        && r.score == Finite(TailSums(p)) && |r.weights| == |p|
        && (forall i :: 0 <= i < |p| ==> r.weights[i] == Finite(p[i]))
        && r.concentration == Finite(setup.concentration(p))
  }

  /** Every calibrated answer is read off the softmax distribution at the temperature of its own kind. */
  lemma CalibratedAnswer(setup: Setup, answer: Answer, logits: seq<Float>, r: ApiAnswer)
    requires IsExponential(setup.exp) && SumsToProducts(setup.exp) && setup.calibration.Some?
    requires GoodLogits(setup, answer, logits) && Converted(setup, answer, logits, r)
    ensures ShowsCalibrated(setup, answer, logits, r)
  {
    hide IsExponential, SumsToProducts, IsSoftmax, Calibrated, Mean, TailSums, IsLastLargest;
    var c := setup.calibration.value;
    var t := match answer case Noul(_) => c.noul case Choice(_, _, _) => c.choice case Score(_, _, _, _) => c.score;
    var p := Calibrated(setup.exp, logits, t);
    CalibratedIsSoftmax(setup.exp, logits, t);
    SoftmaxLength(setup.exp, logits, t, p);
    match answer
    case Noul(_) =>
    case Choice(_, options, _) =>
      if DistinctKeys(options) { CollectedDistinct(Keyed(options, p)); }
    case Score(_, _, _, _) => MeanIsTailSums(p);
  }

  lemma SoftmaxLength(exp: real -> real, logits: seq<Float>, temperature: Float, p: seq<real>)
    requires IsSoftmax(exp, logits, temperature, p)
    ensures |p| == |logits|
  {
  }

  method MeanOf(p: seq<real>) returns (mean: real)
    ensures mean == Mean(p)
  {
    mean := 0.0;
    for i := 0 to |p|
      invariant mean == Mean(p[..i])
    {
      assert p[..i + 1][..i] == p[..i];
      mean := mean + i as real * p[i];
    }
    assert p[..|p|] == p;
  }

  /** One finite logit for each option: two for a yes-or-no question, one for each named option or scale position. */
  predicate OnePerOption(answer: Answer, logits: seq<Float>) {
    && (forall i :: 0 <= i < |logits| ==> logits[i].Finite?)
    && match answer
       case Noul(_) => |logits| == 2
       case Choice(_, options, _) => |logits| == |options|
       case Score(_, _, weights, _) => |logits| == |weights|
  }

  /** The logits of an answer can be used, as the caller sees it. */
  lemma GoodMeans(setup: Setup, answer: Answer, logits: seq<Float>)
    ensures GoodLogits(setup, answer, logits) ==> OnePerOption(answer, logits)
    ensures setup.calibration.None? ==> (GoodLogits(setup, answer, logits) <==> OnePerOption(answer, logits))
    ensures |logits| == OptionCount(answer) && AllFinite(logits) <==> OnePerOption(answer, logits)
  {
  }

  /** Converts one answer, given its logits. */
  method Convert(setup: Setup, id: string, answer: Answer, logits: seq<Float>)
    returns (result: Result<ApiAnswer, DecisionError>)
    requires IsExponential(setup.exp)
    ensures result.Ok? <==> GoodLogits(setup, answer, logits)
    ensures result.Ok? ==> Converted(setup, answer, logits, result.value)
    ensures result.Err? ==>
              result.error
              == if |logits| == OptionCount(answer) && AllFinite(logits) then InvalidCalibration else InvalidLogits(id)
    ensures result == Err(InvalidLogits(id)) <==> !OnePerOption(answer, logits)
    ensures setup.calibration.None? ==> (result.Ok? <==> OnePerOption(answer, logits))
  {
    GoodMeans(setup, answer, logits);
    hide OnePerOption;
    if OptionCount(answer) != |logits| || !AllFinite(logits) { return Err(InvalidLogits(id)); }
    if setup.calibration.None? {
      match answer {
        case Noul(probability) => return Ok(NoulAnswer(probability));
        case Choice(choice, probabilities, concentration) =>
          return Ok(ChoiceAnswer(choice, Collected(probabilities), concentration));
        case Score(score, legend, weights, spread) => return Ok(ScoreAnswer(score, legend, weights, spread));
      }
    }
    var temperature := TemperatureFor(setup.calibration.value, answer);
    var calibrated := CalibratedProbabilities(setup.exp, logits, temperature);
    if calibrated.Err? { return Err(calibrated.error); }
    var p := calibrated.value;
    CalibrationKeepsOrder(setup.exp, logits, temperature);
    hide Calibrated, IsExponential, IsDistribution;
    match answer {
      case Noul(_) => result := Ok(NoulAnswer(Finite(p[0])));
      case Choice(_, probabilities, _) =>
        var selected := ArgMax(p);
        result := Ok(ChoiceAnswer(probabilities[selected].0, Collected(Keyed(probabilities, p)),
            Finite(setup.concentration(p))));
      case Score(_, legend, _, _) =>
        var score := MeanOf(p);
        result := Ok(ScoreAnswer(Finite(score), legend, AsFloats(p), Finite(setup.concentration(p))));
    }
  }

  // ---------------------------------------------------------------- whole responses

  predicate DistinctBranches(branches: seq<BranchLogits>) {
    forall i, j :: 0 <= i < j < |branches| ==> branches[i].questionId != branches[j].questionId
  }

  /** The logits recorded for a question; the first ones if there were several. */
  function LogitsFor(branches: seq<BranchLogits>, id: string): Option<seq<Float>> {
    if branches == [] then None
    else if branches[0].questionId == id then Some(branches[0].logits)
    else LogitsFor(branches[1..], id)
  }

  lemma {:induction false} LogitsForAt(branches: seq<BranchLogits>, i: nat)
    requires DistinctBranches(branches) && i < |branches|
    ensures LogitsFor(branches, branches[i].questionId) == Some(branches[i].logits)
  {
    if i > 0 {
      assert branches[0].questionId != branches[i].questionId;
      LogitsForAt(branches[1..], i - 1);
    }
  }

  lemma {:induction false} LogitsForMissing(branches: seq<BranchLogits>, id: string)
    ensures LogitsFor(branches, id).None? <==> forall i :: 0 <= i < |branches| ==> branches[i].questionId != id
  {
    if branches != [] {
      LogitsForMissing(branches[1..], id);
      assert forall i :: 0 < i < |branches| ==> branches[i] == branches[1..][i - 1];
      if LogitsFor(branches[1..], id).Some? {
        var i :| 0 <= i < |branches[1..]| && branches[1..][i].questionId == id;
        assert branches[i + 1].questionId == id;
      }
    }
  }

  /** The i-th answer has logits recorded, and they fit it. */
  predicate Fits(setup: Setup, completion: Completion, i: nat)
    requires i < |completion.answers|
  {
    var logits := LogitsFor(completion.branchLogits, completion.answers[i].0);
    logits.Some? && GoodLogits(setup, completion.answers[i].1, logits.value)
  }

  /** The j-th logit vector belongs to an answer. */
  predicate Matched(completion: Completion, j: nat)
    requires j < |completion.branchLogits|
  {
    exists i :: 0 <= i < |completion.answers| && completion.answers[i].0 == completion.branchLogits[j].questionId
  }

  /** Exactly one answer for each recorded logit vector, and every vector fits its answer. */
  predicate Acceptable(setup: Setup, completion: Completion) {
    && DistinctBranches(completion.branchLogits) && DistinctKeys(completion.answers)
    && (forall i :: 0 <= i < |completion.answers| ==> Fits(setup, completion, i))
    && (forall j :: 0 <= j < |completion.branchLogits| ==> Matched(completion, j))
  }

  /** This is the i-th answer, converted. */
  ghost predicate IsConverted(setup: Setup, completion: Completion, i: nat, converted: (string, ApiAnswer))
    requires i < |completion.answers| && Fits(setup, completion, i)
  {
    var (id, answer) := completion.answers[i];
    converted.0 == id && Converted(setup, answer, LogitsFor(completion.branchLogits, id).value, converted.1)
  }

  /** These are the i-th answer's logits. */
  predicate IsRaw(setup: Setup, completion: Completion, i: nat, raw: (string, seq<Float>))
    requires i < |completion.answers| && Fits(setup, completion, i)
  {
    var id := completion.answers[i].0;
    raw == (id, LogitsFor(completion.branchLogits, id).value)
  }

  /** The response to an acceptable completion: answers in order, each converted, with its raw logits if asked for. */
  ghost predicate Responds(setup: Setup, completion: Completion, r: ApiResponse)
    requires Acceptable(setup, completion)
  {
    && r.calibratedBy == (if setup.calibration.Some? then Some(setup.calibration.value.profile) else None)
    && (r.inputTokens, r.outputTokens) == (completion.inputTokens, completion.outputTokens)
    && |r.answers| == |completion.answers|
    && (forall i :: 0 <= i < |completion.answers| ==> IsConverted(setup, completion, i, r.answers[i]))
    && (r.rawLogits.Some? <==> setup.includeRaw)
    && (r.rawLogits.Some? ==>
         && |r.rawLogits.value| == |completion.answers|
         && forall i :: 0 <= i < |completion.answers| ==> IsRaw(setup, completion, i, r.rawLogits.value[i]))
  }

  // The two loops of the join, each with what it has established.

  /** The logits not taken by the first n answers: those recorded for no one or for a later answer. */
  ghost predicate Remaining(completion: Completion, n: nat, left: map<string, seq<Float>>)
    requires n <= |completion.answers|
  {
    && (forall id :: id in left ==> LogitsFor(completion.branchLogits, id) == Some(left[id]))
    && (forall i :: 0 <= i < n ==> completion.answers[i].0 !in left)
    && (forall id :: id !in left && LogitsFor(completion.branchLogits, id).Some? ==>
         exists i :: 0 <= i < n && completion.answers[i].0 == id)
  }

  /** The first n answers, converted and with their logits. */
  ghost predicate Joined(
      setup: Setup, completion: Completion, n: nat, answers: seq<(string, ApiAnswer)>, raw: seq<(string, seq<Float>)>)
    requires n <= |completion.answers|
  {
    && |answers| == n && |raw| == n && DistinctKeys(completion.answers[..n])
    && (forall i :: 0 <= i < n ==> Fits(setup, completion, i))
    && (forall i :: 0 <= i < n ==> IsConverted(setup, completion, i, answers[i]))
    && (forall i :: 0 <= i < n ==> IsRaw(setup, completion, i, raw[i]))
  }

  method IndexLogits(branches: seq<BranchLogits>) returns (result: Result<map<string, seq<Float>>, DecisionError>)
    ensures result.Ok? <==> DistinctBranches(branches)
    ensures result.Ok? ==> forall id :: id in result.value <==> LogitsFor(branches, id).Some?
    ensures result.Ok? ==> forall id :: id in result.value ==> LogitsFor(branches, id) == Some(result.value[id])
    ensures result.Err? ==> result.error.DuplicateLogits? && RepeatedLogits(branches, result.error.id)
  {
    var byId: map<string, seq<Float>> := map[];
    for i := 0 to |branches|
      invariant forall a, b :: 0 <= a < b < i ==> branches[a].questionId != branches[b].questionId
      invariant forall j :: 0 <= j < i ==>
        branches[j].questionId in byId && byId[branches[j].questionId] == branches[j].logits
      invariant forall id :: id in byId ==> exists j :: 0 <= j < i && branches[j].questionId == id
    {
      var id := branches[i].questionId;
      if id in byId { return Err(DuplicateLogits(id)); }
      byId := byId[id := branches[i].logits];
    }
    Indexed(branches, byId);
    result := Ok(byId);
  }

  lemma Indexed(branches: seq<BranchLogits>, byId: map<string, seq<Float>>)
    requires DistinctBranches(branches)
    requires forall j :: 0 <= j < |branches| ==>
        branches[j].questionId in byId && byId[branches[j].questionId] == branches[j].logits
    requires forall id :: id in byId ==> exists j :: 0 <= j < |branches| && branches[j].questionId == id
    ensures forall id :: id in byId <==> LogitsFor(branches, id).Some?
    ensures forall id :: id in byId ==> LogitsFor(branches, id) == Some(byId[id])
  {
    forall id ensures id in byId <==> LogitsFor(branches, id).Some? { LogitsForMissing(branches, id); }
    forall id | id in byId ensures LogitsFor(branches, id) == Some(byId[id]) {
      var j :| 0 <= j < |branches| && branches[j].questionId == id;
      LogitsForAt(branches, j);
    }
  }

  /** The next answer joined with its logits, which are then taken. */
  lemma JoinGrows(
      setup: Setup, completion: Completion, n: nat, left: map<string, seq<Float>>,
      answers: seq<(string, ApiAnswer)>, raw: seq<(string, seq<Float>)>, converted: ApiAnswer)
    requires n < |completion.answers| && Remaining(completion, n, left) && Joined(setup, completion, n, answers, raw)
    requires completion.answers[n].0 in left
    requires GoodLogits(setup, completion.answers[n].1, left[completion.answers[n].0])
    requires Converted(setup, completion.answers[n].1, left[completion.answers[n].0], converted)
    ensures
      var id := completion.answers[n].0;
      Joined(setup, completion, n + 1, answers + [(id, converted)], raw + [(id, left[id])])
  {
    hide GoodLogits, Converted, LogitsFor;
    var id := completion.answers[n].0;
    assert Fits(setup, completion, n);
    assert IsConverted(setup, completion, n, (id, converted)) && IsRaw(setup, completion, n, (id, left[id]));
    hide Fits, IsConverted, IsRaw;
    NextIsDistinct(completion, n, left);
  }

  lemma NextIsDistinct(completion: Completion, n: nat, left: map<string, seq<Float>>)
    requires n < |completion.answers| && Remaining(completion, n, left) && DistinctKeys(completion.answers[..n])
    requires completion.answers[n].0 in left
    ensures DistinctKeys(completion.answers[..n + 1])
  {
    hide LogitsFor;
    var next := completion.answers[..n + 1];
    forall i, j | 0 <= i < j < |next| ensures next[i].0 != next[j].0 {
      if j < n { assert completion.answers[..n][i] == next[i] && completion.answers[..n][j] == next[j]; }
    }
  }

  lemma TakenOnce(completion: Completion, n: nat, left: map<string, seq<Float>>)
    requires n < |completion.answers| && Remaining(completion, n, left) && completion.answers[n].0 in left
    ensures Remaining(completion, n + 1, left - {completion.answers[n].0})
  {
    hide LogitsFor;
  }

  /** An answer whose logits are gone has none, or repeats an earlier answer: both are reported as missing logits. */
  lemma MissingIsUnacceptable(setup: Setup, completion: Completion, n: nat, left: map<string, seq<Float>>)
    requires n < |completion.answers| && Remaining(completion, n, left) && completion.answers[n].0 !in left
    ensures LogitsFor(completion.branchLogits, completion.answers[n].0).None? || RepeatsEarlier(completion, n)
    ensures !Acceptable(setup, completion)
  {
    var id := completion.answers[n].0;
    if LogitsFor(completion.branchLogits, id).Some? {
      var i :| 0 <= i < n && completion.answers[i].0 == id;
      hide Fits, Matched;
    } else {
      assert !Fits(setup, completion, n);
    }
  }

  predicate RepeatsEarlier(completion: Completion, n: nat)
    requires n < |completion.answers|
  {
    exists i :: 0 <= i < n && completion.answers[i].0 == completion.answers[n].0
  }

  /** An answer that still finds its logits has not been seen before, so the check for repeated answers never fires. */
  lemma FoundIsNew(
      setup: Setup, completion: Completion, n: nat, left: map<string, seq<Float>>,
      answers: seq<(string, ApiAnswer)>, raw: seq<(string, seq<Float>)>)
    requires n < |completion.answers| && Remaining(completion, n, left) && Joined(setup, completion, n, answers, raw)
    requires completion.answers[n].0 in left
    ensures !HasKey(answers, completion.answers[n].0) && !RepeatsEarlier(completion, n)
  {
    hide Fits, Converted, LogitsFor, IsRaw;
    forall i | 0 <= i < n ensures answers[i].0 != completion.answers[n].0 {
      assert IsConverted(setup, completion, i, answers[i]);
    }
  }

  predicate HasKey(answers: seq<(string, ApiAnswer)>, id: string) {
    exists i :: 0 <= i < |answers| && answers[i].0 == id
  }

  lemma LeftoverIsUnacceptable(setup: Setup, completion: Completion, left: map<string, seq<Float>>, id: string)
    requires Remaining(completion, |completion.answers|, left) && id in left
    ensures exists j :: 0 <= j < |completion.branchLogits| && !Matched(completion, j)
    ensures !Acceptable(setup, completion)
  {
    LogitsForMissing(completion.branchLogits, id);
    hide LogitsFor, Fits;
    var j :| 0 <= j < |completion.branchLogits| && completion.branchLogits[j].questionId == id;
    assert !Matched(completion, j);
  }

  lemma UnfitIsUnacceptable(setup: Setup, completion: Completion, n: nat, left: map<string, seq<Float>>)
    requires n < |completion.answers| && Remaining(completion, n, left)
    requires completion.answers[n].0 in left
        && !GoodLogits(setup, completion.answers[n].1, left[completion.answers[n].0])
    ensures !Fits(setup, completion, n) && !Acceptable(setup, completion)
    ensures LogitsFor(completion.branchLogits, completion.answers[n].0) == Some(left[completion.answers[n].0])
  {
    hide GoodLogits, LogitsFor, Matched;
  }

  /** With no logits left every vector has found its answer. */
  lemma AllMatched(completion: Completion, j: nat)
    requires DistinctBranches(completion.branchLogits) && Remaining(completion, |completion.answers|, map[])
    requires j < |completion.branchLogits|
    ensures Matched(completion, j)
  {
    LogitsForAt(completion.branchLogits, j);
    hide LogitsFor;
  }

  lemma JoinIsAcceptable(
      setup: Setup, completion: Completion, answers: seq<(string, ApiAnswer)>, raw: seq<(string, seq<Float>)>)
    requires DistinctBranches(completion.branchLogits) && Remaining(completion, |completion.answers|, map[])
    requires Joined(setup, completion, |completion.answers|, answers, raw)
    ensures Acceptable(setup, completion)
  {
    hide Fits, IsConverted, IsRaw, Matched, Remaining, DistinctBranches;
    assert completion.answers[..|completion.answers|] == completion.answers;
    forall j | 0 <= j < |completion.branchLogits| ensures Matched(completion, j) { AllMatched(completion, j); }
  }

  lemma JoinResponds(
      setup: Setup, completion: Completion, answers: seq<(string, ApiAnswer)>, raw: seq<(string, seq<Float>)>)
    requires Acceptable(setup, completion) && Joined(setup, completion, |completion.answers|, answers, raw)
    ensures Responds(setup, completion, Assembled(setup, completion, answers, raw))
  {
    hide Fits, IsConverted, IsRaw, Matched, DistinctBranches;
  }

  function Assembled(
      setup: Setup, completion: Completion, answers: seq<(string, ApiAnswer)>, raw: seq<(string, seq<Float>)>)
    : ApiResponse
  {
    ApiResponse(if setup.calibration.Some? then Some(setup.calibration.value.profile) else None, answers,
                if setup.includeRaw then Some(raw) else None, completion.inputTokens, completion.outputTokens)
  }

  ghost predicate RepeatedLogits(branches: seq<BranchLogits>, id: string) {
    exists i, j :: 0 <= i < j < |branches| && branches[i].questionId == branches[j].questionId == id
  }

  /** The n-th answer's logits are of the wrong number or not all finite. */
  predicate BadVector(setup: Setup, completion: Completion, n: nat, id: string)
    requires n < |completion.answers|
  {
    var (key, answer) := completion.answers[n];
    var logits := LogitsFor(completion.branchLogits, key);
    key == id && logits.Some? && !(|logits.value| == OptionCount(answer) && AllFinite(logits.value))
  }

  /** The n-th answer's logits are as expected, but there are fewer than two or its temperature is not usable. */
  predicate BadCalibration(setup: Setup, completion: Completion, n: nat)
    requires n < |completion.answers|
  {
    var (key, answer) := completion.answers[n];
    var logits := LogitsFor(completion.branchLogits, key);
    && logits.Some? && |logits.value| == OptionCount(answer) && AllFinite(logits.value)
    && setup.calibration.Some?
    && (|logits.value| < 2 || !ValidTemperature(TemperatureFor(setup.calibration.value, answer)))
  }

  lemma ConversionError(setup: Setup, completion: Completion, n: nat, error: DecisionError)
    requires n < |completion.answers| && LogitsFor(completion.branchLogits, completion.answers[n].0).Some?
    requires
      var (id, answer) := completion.answers[n];
      var logits := LogitsFor(completion.branchLogits, id).value;
      && !GoodLogits(setup, answer, logits)
      && error == if |logits| == OptionCount(answer) && AllFinite(logits) then InvalidCalibration else InvalidLogits(id)
    ensures Explains(setup, completion, error)
  {
    hide LogitsFor;
    if error.InvalidCalibration? {
      assert BadCalibration(setup, completion, n);
    } else {
      assert BadVector(setup, completion, n, completion.answers[n].0);
    }
  }

  /** What each error says about the completion. */
  ghost predicate Explains(setup: Setup, completion: Completion, error: DecisionError) {
    match error
    case DuplicateLogits(id) => RepeatedLogits(completion.branchLogits, id)
    case MissingLogits(id) =>
      exists n :: 0 <= n < |completion.answers| && completion.answers[n].0 == id
        && (LogitsFor(completion.branchLogits, id).None? || RepeatsEarlier(completion, n))
    case InvalidLogits(id) => exists n :: 0 <= n < |completion.answers| && BadVector(setup, completion, n, id)
    case InvalidCalibration => exists n :: 0 <= n < |completion.answers| && BadCalibration(setup, completion, n)
    case UnmatchedLogits => exists j :: 0 <= j < |completion.branchLogits| && !Matched(completion, j)
    case DuplicateQuestion(_) => false
    case NotNormalisable => false
  }

  /** A response is built exactly when answers and logit vectors match one to one and every vector fits its answer; it
      keeps the order of the answers. Every error names its cause, and two of the errors never happen. */
  method FromCompletion(setup: Setup, completion: Completion) returns (result: Result<ApiResponse, DecisionError>)
    requires IsExponential(setup.exp)
    ensures result.Ok? <==> Acceptable(setup, completion)
    ensures result.Ok? ==> Responds(setup, completion, result.value)
    ensures result.Err? ==> Explains(setup, completion, result.error)
  {
    hide Joined, Remaining, Acceptable, Responds, GoodLogits, Converted, LogitsFor, IsExponential, Fits, Matched,
         HasKey, RepeatsEarlier, BadVector, BadCalibration, OptionCount, AllFinite;
    var indexed := IndexLogits(completion.branchLogits);
    if indexed.Err? {
      RepeatedIsUnacceptable(setup, completion);
      return Err(indexed.error);
    }
    var left := indexed.value;
    var answers: seq<(string, ApiAnswer)> := [];
    var raw: seq<(string, seq<Float>)> := [];
    JoinStarts(setup, completion, left);
    for n := 0 to |completion.answers|
      invariant Remaining(completion, n, left) && Joined(setup, completion, n, answers, raw)
    {
      var (id, answer) := completion.answers[n];
      if id !in left {
        MissingIsUnacceptable(setup, completion, n, left);
        return Err(MissingLogits(id));
      }
      var logits := left[id];
      FoundIsNew(setup, completion, n, left, answers, raw);
      var converted := Convert(setup, id, answer, logits);
      if converted.Err? {
        UnfitIsUnacceptable(setup, completion, n, left);
        ConversionError(setup, completion, n, converted.error);
        return Err(converted.error);
      }
      JoinGrows(setup, completion, n, left, answers, raw, converted.value);
      TakenOnce(completion, n, left);
      if HasKey(answers, id) { return Err(DuplicateQuestion(id)); }
      left := left - {id};
      answers := answers + [(id, converted.value)];
      raw := raw + [(id, logits)];
    }
    if left != map[] {
      ghost var id :| id in left;
      LeftoverIsUnacceptable(setup, completion, left, id);
      return Err(UnmatchedLogits);
    }
    JoinIsAcceptable(setup, completion, answers, raw);
    JoinResponds(setup, completion, answers, raw);
    result := Ok(Assembled(setup, completion, answers, raw));
  }

  /** So every answer of a calibrated response shows the softmax of its own logits. */
  lemma ResponseIsCalibrated(setup: Setup, completion: Completion, r: ApiResponse)
    requires IsExponential(setup.exp) && SumsToProducts(setup.exp) && setup.calibration.Some?
    requires Acceptable(setup, completion) && Responds(setup, completion, r)
    ensures forall i :: 0 <= i < |completion.answers| ==>
              && LogitsFor(completion.branchLogits, completion.answers[i].0).Some?
              && r.answers[i].0 == completion.answers[i].0
              && ShowsCalibrated(setup, completion.answers[i].1,
                                 LogitsFor(completion.branchLogits, completion.answers[i].0).value, r.answers[i].1)
  {
    hide IsExponential, SumsToProducts, LogitsFor, GoodLogits, Converted, ShowsCalibrated;
    forall i | 0 <= i < |completion.answers|
      ensures
        && LogitsFor(completion.branchLogits, completion.answers[i].0).Some?
        && r.answers[i].0 == completion.answers[i].0
        && ShowsCalibrated(setup, completion.answers[i].1,
                           LogitsFor(completion.branchLogits, completion.answers[i].0).value, r.answers[i].1)
    {
      assert Fits(setup, completion, i) && IsConverted(setup, completion, i, r.answers[i]);
      CalibratedAnswer(setup, completion.answers[i].1,
                       LogitsFor(completion.branchLogits, completion.answers[i].0).value, r.answers[i].1);
    }
  }

  lemma JoinStarts(setup: Setup, completion: Completion, left: map<string, seq<Float>>)
    requires forall id :: id in left <==> LogitsFor(completion.branchLogits, id).Some?
    requires forall id :: id in left ==> LogitsFor(completion.branchLogits, id) == Some(left[id])
    ensures Remaining(completion, 0, left) && Joined(setup, completion, 0, [], [])
  {
    hide LogitsFor;
  }

  lemma RepeatedIsUnacceptable(setup: Setup, completion: Completion)
    requires !DistinctBranches(completion.branchLogits)
    ensures !Acceptable(setup, completion)
  {
  }
}
