/** Coin scoring shared by every scene variant: a coin's value is added to
    the score and the sum is clamped at the cap of 67. */
module Scoring {

  /** The highest score a scene ever holds. */
  const MaxScore: int := 67

  predicate InScoreRange(score: int) {
    0 <= score <= MaxScore
  }

  function Min(a: int, b: int): int {
    if a <= b then a else b
  }

  /** The coin value draw of the two full scenes, Between(1, 3). */
  predicate DrawnValue(v: int) {
    1 <= v <= 3
  }

  /** The coin value draw of the two row scenes, Between(6, 7). */
  predicate RowValue(v: int) {
    6 <= v <= 7
  }

  /** The score after one coin, and whether the raw sum went past the cap
      (the condition under which the main scenes start a glitch). */
  datatype Collected = Collected(score: int, overflowed: bool)

  /** Add `value` to `score`, clamping at MaxScore. */
  function AddCoin(score: int, value: int): (r: Collected)
    ensures r.score == Min(score + value, MaxScore)
    ensures r.overflowed <==> score + value > MaxScore
    ensures r.score <= MaxScore
    ensures r.overflowed ==> r.score == MaxScore
    ensures 0 <= value && score <= MaxScore ==> score <= r.score
    ensures InScoreRange(score) && 0 <= value ==> InScoreRange(r.score)
  {
    var raw := score + value;
    if raw > MaxScore then Collected(MaxScore, true) else Collected(raw, false)
  }

  /** The score after collecting coins worth `values`, in order. */
  function Accumulate(score: int, values: seq<int>): int
    decreases |values|
  {
    if |values| == 0 then score
    else Accumulate(AddCoin(score, values[0]).score, values[1..])
  }

  predicate AllWithin(values: seq<int>, lo: int, hi: int) {
    forall i :: 0 <= i < |values| ==> lo <= values[i] <= hi
  }

  /** a * n splits off one factor (kept apart so no proof mixes it with more). */
  lemma MulStep(a: int, n: int)
    requires 0 <= a && 1 <= n
    ensures a * n == a + a * (n - 1)
    ensures 0 <= a * (n - 1)
  {
  }

  /** One coin worth v >= lo followed by m more points is at least one
      worth lo followed by m more points, after clamping. */
  lemma ClampLowerStep(score: int, v: int, lo: int, m: int)
    requires lo <= v && 0 <= m
    ensures Min(score + lo + m, MaxScore) <= Min(AddCoin(score, v).score + m, MaxScore)
  {
  }

  /** One coin worth v <= hi followed by m more points is at most one worth
      hi followed by m more points, after clamping. */
  lemma ClampUpperStep(score: int, v: int, hi: int, m: int)
    requires v <= hi && 0 <= m && score <= MaxScore
    ensures Min(AddCoin(score, v).score + m, MaxScore) <= Min(score + hi + m, MaxScore)
  {
  }

  /** With every coin worth between lo and hi (lo >= 0), n coins collected
      from a score in range leave the score between the clamped sums of n
      cheapest and n dearest coins; in particular it never leaves [0, 67]
      and never falls below the starting score. */
  lemma {:induction false} AccumulateBounds(score: int, values: seq<int>, lo: int, hi: int)
    requires InScoreRange(score)
    requires 0 <= lo <= hi
    requires AllWithin(values, lo, hi)
    ensures Min(score + lo * |values|, MaxScore) <= Accumulate(score, values)
    ensures Accumulate(score, values) <= Min(score + hi * |values|, MaxScore)
    ensures InScoreRange(Accumulate(score, values))
    ensures score <= Accumulate(score, values)
    decreases |values|
  {
    if |values| > 0 {
      var n := |values|;
      var v := values[0];
      var next := AddCoin(score, v).score;
      var rest := values[1..];
      assert AllWithin(rest, lo, hi) by {
        forall i | 0 <= i < |rest| ensures lo <= rest[i] <= hi {
          assert rest[i] == values[i + 1];
        }
      }
      AccumulateBounds(next, rest, lo, hi);
      MulStep(lo, n);
      MulStep(hi, n);
      ClampLowerStep(score, v, lo, lo * (n - 1));
      ClampUpperStep(score, v, hi, hi * (n - 1));
      assert Accumulate(score, values) == Accumulate(next, rest);
    }
  }
}
