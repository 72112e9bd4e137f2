/**
 * The digit split of display_score (BopIt/main.cpp): four passes of
 * "digit = score % 10; score /= 10", with C's division, which truncates
 * toward zero. The segment patterns the digits are turned into are not part
 * of this model.
 */
module Display {
  /** C's `x / 10` on `int`: the quotient truncated toward zero. */
  function Quot10(x: int): (q: int)
    ensures x >= 0 ==> 0 <= 10 * q <= x < 10 * q + 10
    ensures x < 0 ==> 10 * q - 10 < x <= 10 * q <= 0
  {
    if x >= 0 then x / 10 else -((-x) / 10)
  }

  /** C's `x % 10` on `int`: the remainder takes the sign of `x`. */
  function Rem10(x: int): (r: int)
    ensures x == 10 * Quot10(x) + r
    ensures x >= 0 ==> 0 <= r <= 9
    ensures x < 0 ==> -9 <= r <= 0
  {
    x - 10 * Quot10(x)
  }

  /** The value `score` holds after `i` passes of the loop. */
  function Shifted(score: int, i: nat): (r: int)
    ensures score >= 0 ==> 0 <= r <= score
  {
    if i == 0 then score else Quot10(Shifted(score, i - 1))
  }

  /**
   * The four low digits of a non-negative score, each taken off by one pass,
   * add back up to the score modulo 10000.
   */
  lemma Recombine(score: int)
    requires score >= 0
    ensures Rem10(Shifted(score, 0)) + 10 * Rem10(Shifted(score, 1))
      + 100 * Rem10(Shifted(score, 2)) + 1000 * Rem10(Shifted(score, 3)) == score % 10000
  {
    var s1, s2, s3, s4 := Shifted(score, 1), Shifted(score, 2), Shifted(score, 3), Shifted(score, 4);
    var low := Rem10(score) + 10 * Rem10(s1) + 100 * Rem10(s2) + 1000 * Rem10(s3);
    assert Shifted(score, 0) == score;
    assert s1 == Quot10(score);
    assert s2 == Quot10(s1);
    assert s3 == Quot10(s2);
    assert s4 == Quot10(s3);
    assert score == Rem10(score) + 10 * s1 && s1 == Rem10(s1) + 10 * s2;
    assert s2 == Rem10(s2) + 10 * s3 && s3 == Rem10(s3) + 10 * s4;
    assert score == low + 10000 * s4;
    assert 0 <= low < 10000 && s4 >= 0;
    ModOfLowDigits(low, s4);
  }

  /** Adding whole multiples of 10000 leaves the remainder modulo 10000 alone. */
  lemma ModOfLowDigits(low: int, high: int)
    requires 0 <= low < 10000 && high >= 0
    ensures (low + 10000 * high) % 10000 == low
  {
  }

  /**
   * display_score's digits, least significant first: digit i goes to display
   * position i. For a non-negative score they are decimal digits that spell
   * the score modulo 10000, the higher digits being dropped.
   */
  method DisplayScore(score: int) returns (digits: seq<int>)
    ensures |digits| == 4
    ensures forall i :: 0 <= i < 4 ==> digits[i] == Rem10(Shifted(score, i))
    ensures score >= 0 ==> forall i :: 0 <= i < 4 ==> 0 <= digits[i] <= 9
    ensures score >= 0 ==> digits[0] + 10 * digits[1] + 100 * digits[2] + 1000 * digits[3] == score % 10000
  {
    digits := [];
    var rest := score;
    for i := 0 to 4
      invariant |digits| == i
      invariant rest == Shifted(score, i)
      invariant forall k :: 0 <= k < i ==> digits[k] == Rem10(Shifted(score, k))
    {
      var digit := Rem10(rest);
      digits := digits + [digit];
      rest := Quot10(rest);
    }
    if score >= 0 {
      Recombine(score);
    }
  }
}
