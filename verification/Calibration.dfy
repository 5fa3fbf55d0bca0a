/** Fitting a temperature by ternary search over its logarithm, in real arithmetic. */
module Calibration {

  /** Strictly falling up to `best`, strictly rising after it. */
  ghost predicate Unimodal(f: real -> real, low: real, high: real, best: real) {
    && low <= best <= high
    && (forall x, y :: low <= x < y <= best ==> f(x) > f(y))
    && (forall x, y :: best <= x < y <= high ==> f(x) < f(y))
  }

  /** Two thirds to the power n. */
  function TwoThirds(n: nat): real {
    if n == 0 then 1.0 else TwoThirds(n - 1) * 2.0 / 3.0
  }

  datatype Interval = Interval(low: real, high: real)
  {
    function Width(): real { high - low }

    function Left(): real { low + (high - low) / 3.0 }

    function Right(): real { high - (high - low) / 3.0 }

    /** Compares the two inner thirds and drops the outer part that cannot hold the minimum. */
    function Narrowed(f: real -> real): Interval {
      if f(Left()) < f(Right()) then Interval(low, Right()) else Interval(Left(), high)
    }
  }

  function Search(f: real -> real, start: Interval, n: nat): Interval {
    if n == 0 then start else Search(f, start, n - 1).Narrowed(f)
  }

  lemma NarrowedKeepsMinimum(f: real -> real, i: Interval, best: real)
    requires Unimodal(f, i.low, i.high, best)
    ensures var j := i.Narrowed(f); i.low <= j.low <= j.high <= i.high && Unimodal(f, j.low, j.high, best)
  {
    var left, right := i.Left(), i.Right();
    assert i.low <= left <= right <= i.high;
    if f(left) < f(right) {
      assert best <= right;
    } else {
      assert left <= best;
    }
  }

  lemma MinimumInside(f: real -> real, i: Interval, best: real)
    requires Unimodal(f, i.low, i.high, best)
    ensures i.low <= best <= i.high
  {
  }

  /** For every strictly unimodal objective, after any number of steps the minimum is still inside, nested in all
      earlier intervals, and the width is exactly the starting width times (2/3)^n. */
  lemma {:induction false} SearchKeepsMinimum(f: real -> real, start: Interval, n: nat, best: real)
    requires Unimodal(f, start.low, start.high, best)
    ensures var i := Search(f, start, n);
        start.low <= i.low <= best <= i.high <= start.high && Unimodal(f, i.low, i.high, best)
  {
    if n > 0 {
      SearchKeepsMinimum(f, start, n - 1, best);
      NarrowedKeepsMinimum(f, Search(f, start, n - 1), best);
      MinimumInside(f, Search(f, start, n), best);
      hide Unimodal, Interval.Narrowed;
    }
  }

  lemma {:induction false} SearchWidth(f: real -> real, start: Interval, n: nat)
    ensures Search(f, start, n).Width() == start.Width() * TwoThirds(n)
  {
    if n > 0 {
      var i := Search(f, start, n - 1);
      SearchWidth(f, start, n - 1);
      assert i.Narrowed(f).Width() == i.Width() * 2.0 / 3.0;
    }
  }

  lemma {:induction false} TwoThirdsShrinks(n: nat)
    ensures 0.0 < TwoThirds(n) <= 1.0
  {
    if n > 0 { TwoThirdsShrinks(n - 1); }
  }

  /** For every strictly unimodal objective whose minimum lies in the starting interval, the middle of the interval
      after n steps is within half of its width of that minimum. */
  lemma MiddleNear(f: real -> real, start: Interval, n: nat, best: real)
    requires Unimodal(f, start.low, start.high, best)
    ensures
      var i, half := Search(f, start, n), start.Width() * TwoThirds(n) / 2.0;
      best - half <= (i.low + i.high) / 2.0 <= best + half
  {
    SearchWidth(f, start, n);
    SearchKeepsMinimum(f, start, n, best);
    hide Unimodal, Search, TwoThirds;
  }

  // ---------------------------------------------------------------- from logarithms to temperatures

  ghost predicate Increasing(f: real -> real) { forall x, y :: x < y ==> f(x) < f(y) }

  ghost predicate SumsToProducts(f: real -> real) { forall x, y :: f(x + y) == f(x) * f(y) }

  ghost predicate Inverts(exp: real -> real, log: real -> real) { forall x :: x > 0.0 ==> exp(log(x)) == x }

  ghost predicate Positive(f: real -> real) { forall x :: f(x) > 0.0 }

  /** What the search needs to know of the exponential and the logarithm. */
  ghost predicate ExpAndLog(exp: real -> real, log: real -> real) {
    Positive(exp) && Increasing(exp) && SumsToProducts(exp) && Inverts(exp, log)
  }

  lemma Grows(f: real -> real, x: real, y: real)
    requires Increasing(f)
    ensures x < y ==> f(x) < f(y)
    ensures x <= y ==> f(x) <= f(y)
  {
  }

  lemma Sums(f: real -> real, x: real, y: real)
    requires SumsToProducts(f)
    ensures f(x + y) == f(x) * f(y)
  {
  }

  lemma Undone(exp: real -> real, log: real -> real, x: real)
    requires Inverts(exp, log) && x > 0.0
    ensures exp(log(x)) == x
  {
  }

  lemma LogGrows(exp: real -> real, log: real -> real, x: real, y: real)
    requires Increasing(exp) && Inverts(exp, log) && 0.0 < x <= y
    ensures log(x) <= log(y)
  {
    hide Increasing, Inverts;
    Undone(exp, log, x);
    Undone(exp, log, y);
    Grows(exp, log(y), log(x));
  }

  /** Between two logarithms the exponential is between the two numbers. */
  lemma InRange(exp: real -> real, log: real -> real, low: real, middle: real, high: real)
    requires Increasing(exp) && Inverts(exp, log) && 0.0 < low && 0.0 < high && log(low) <= middle <= log(high)
    ensures low <= exp(middle) <= high
  {
    hide Increasing, Inverts;
    Undone(exp, log, low);
    Undone(exp, log, high);
    Grows(exp, log(low), middle);
    Grows(exp, middle, log(high));
  }

  /** The loss as a function of the logarithm of the temperature. */
  function InLog(loss: real -> real, exp: real -> real): real -> real { x => loss(exp(x)) }

  /** A loss with a single valley over the temperatures has one over their logarithms, at the logarithm of the best. */
  lemma UnimodalInLog(loss: real -> real, exp: real -> real, log: real -> real, low: real, high: real, best: real)
    requires Increasing(exp) && Inverts(exp, log) && 0.0 < low && Unimodal(loss, low, high, best)
    ensures Unimodal(InLog(loss, exp), log(low), log(high), log(best))
  {
    hide Increasing, Inverts;
    var f := InLog(loss, exp);
    LogGrows(exp, log, low, best);
    LogGrows(exp, log, best, high);
    forall x, y | log(low) <= x < y <= log(best) ensures f(x) > f(y) {
      InRange(exp, log, low, x, best);
      InRange(exp, log, low, y, best);
      Grows(exp, x, y);
    }
    forall x, y | log(best) <= x < y <= log(high) ensures f(x) < f(y) {
      InRange(exp, log, best, x, high);
      InRange(exp, log, best, y, high);
      Grows(exp, x, y);
    }
  }

  /** Within a factor of the best temperature. */
  predicate WithinFactor(temperature: real, best: real, factor: real) {
    temperature <= best * factor && best <= temperature * factor
  }

  lemma FactorFromLog(exp: real -> real, log: real -> real, middle: real, best: real, half: real)
    requires ExpAndLog(exp, log) && best > 0.0 && log(best) - half <= middle <= log(best) + half
    ensures WithinFactor(exp(middle), best, exp(half))
  {
    hide Increasing, Inverts, SumsToProducts, Positive;
    Undone(exp, log, best);
    Grows(exp, middle, log(best) + half);
    Sums(exp, log(best), half);
    Grows(exp, log(best), middle + half);
    Sums(exp, middle, half);
  }

  /** Half the logarithmic width that is left after some rounds. */
  function HalfWidth(log: real -> real, low: real, high: real, rounds: nat): real {
    (log(high) - log(low)) * TwoThirds(rounds) / 2.0
  }

  const LOWEST := 0.05
  const HIGHEST := 20.0

  /** What every fitted temperature is worth: for any loss with a single valley it is within a factor of the best
      one. */
  ghost predicate NearEveryBest(
      loss: real -> real, exp: real -> real, log: real -> real, rounds: nat, temperature: real) {
    forall best :: Unimodal(loss, LOWEST, HIGHEST, best) ==>
      WithinFactor(temperature, best, exp(HalfWidth(log, LOWEST, HIGHEST, rounds)))
  }

  /** The middle of the interval after some rounds. */
  function Middle(loss: real -> real, exp: real -> real, log: real -> real, rounds: nat): real {
    var i := Search(InLog(loss, exp), Interval(log(LOWEST), log(HIGHEST)), rounds);
    (i.low + i.high) / 2.0
  }

  lemma MiddleNearLog(loss: real -> real, exp: real -> real, log: real -> real, rounds: nat, best: real)
    requires Unimodal(InLog(loss, exp), log(LOWEST), log(HIGHEST), log(best))
    ensures var half := HalfWidth(log, LOWEST, HIGHEST, rounds);
      log(best) - half <= Middle(loss, exp, log, rounds) <= log(best) + half
  {
    hide Unimodal, Search, InLog;
    MiddleNear(InLog(loss, exp), Interval(log(LOWEST), log(HIGHEST)), rounds, log(best));
  }

  lemma FittedIsNear(loss: real -> real, exp: real -> real, log: real -> real, rounds: nat)
    requires ExpAndLog(exp, log)
    ensures NearEveryBest(loss, exp, log, rounds, exp(Middle(loss, exp, log, rounds)))
  {
    hide Unimodal, Increasing, Inverts, SumsToProducts, Positive, Middle, HalfWidth, WithinFactor;
    forall best | Unimodal(loss, LOWEST, HIGHEST, best)
      ensures WithinFactor(exp(Middle(loss, exp, log, rounds)), best, exp(HalfWidth(log, LOWEST, HIGHEST, rounds)))
    {
      UnimodalInLog(loss, exp, log, LOWEST, HIGHEST, best);
      MiddleNearLog(loss, exp, log, rounds, best);
      MinimumInside(loss, Interval(LOWEST, HIGHEST), best);
      FactorFromLog(exp, log, Middle(loss, exp, log, rounds), best, HalfWidth(log, LOWEST, HIGHEST, rounds));
    }
  }

  lemma {:induction false} SearchStaysInside(f: real -> real, start: Interval, n: nat)
    requires start.low <= start.high
    ensures var i := Search(f, start, n); start.low <= i.low <= i.high <= start.high
  {
    if n > 0 { SearchStaysInside(f, start, n - 1); }
  }

  lemma MiddleInside(loss: real -> real, exp: real -> real, log: real -> real, rounds: nat, last: Interval)
    requires log(LOWEST) <= log(HIGHEST)
    requires last == Search(InLog(loss, exp), Interval(log(LOWEST), log(HIGHEST)), rounds)
    ensures Middle(loss, exp, log, rounds) == (last.low + last.high) / 2.0
    ensures log(LOWEST) <= (last.low + last.high) / 2.0 <= log(HIGHEST)
  {
    hide Search, InLog;
    SearchStaysInside(InLog(loss, exp), Interval(log(LOWEST), log(HIGHEST)), rounds);
  }

  lemma SearchStart(f: real -> real, start: Interval)
    ensures Search(f, start, 0) == start
  {
  }

  lemma SearchNext(loss: real -> real, exp: real -> real, start: Interval, n: nat)
    ensures
      var i := Search(InLog(loss, exp), start, n);
      Search(InLog(loss, exp), start, n + 1)
      == if loss(exp(i.Left())) < loss(exp(i.Right())) then Interval(i.low, i.Right()) else Interval(i.Left(), i.high)
  {
    hide Interval.Left, Interval.Right;
  }

  /** The fit: a search over the logarithm, and the exponential of the middle of the last interval with its loss. The
      script runs 80 rounds. The temperature is always in range; and whenever the loss has a single valley over the
      range, wherever it is, the temperature is within a known factor of its bottom. */
  method FitTemperature(loss: real -> real, exp: real -> real, log: real -> real, rounds: nat)
    returns (temperature: real, objective: real)
    requires ExpAndLog(exp, log)
    ensures objective == loss(temperature) && 0.05 <= temperature <= 20.0
    ensures NearEveryBest(loss, exp, log, rounds, temperature)
  {
    hide Unimodal, NearEveryBest, Increasing, Inverts, SumsToProducts, Positive, Search, InLog, Middle,
      Interval.Narrowed;
    var low, high := log(LOWEST), log(HIGHEST);
    ghost var f, start := InLog(loss, exp), Interval(low, high);
    LogGrows(exp, log, LOWEST, HIGHEST);
    SearchStart(f, start);
    for n := 0 to rounds
      invariant Interval(low, high) == Search(f, start, n)
    {
      SearchNext(loss, exp, start, n);
      var left := low + (high - low) / 3.0;
      var right := high - (high - low) / 3.0;
      if loss(exp(left)) < loss(exp(right)) {
        high := right;
      } else {
        low := left;
      }
    }
    temperature := exp((low + high) / 2.0);
    objective := loss(temperature);
    FittedIsNear(loss, exp, log, rounds);
    MiddleInside(loss, exp, log, rounds, Interval(low, high));
    InRange(exp, log, LOWEST, (low + high) / 2.0, HIGHEST);
  }

  /** Unimodality is needed: with two valleys the search can leave the deeper one behind in its first step. */
  lemma TwoValleysMislead()
    ensures
      var f := (x: real) => if x == 1.0 then -1.0 else if x == 4.0 then 0.0 else if x == 2.0 then 2.0 else 3.0;
      var i := Interval(0.0, 6.0);
      (forall x :: f(1.0) <= f(x)) && !(i.Narrowed(f).low <= 1.0 <= i.Narrowed(f).high)
  {
  }
}
