/**
 * The adaptive timing rule: the reaction window shrinks by a fixed step per
 * point scored and never drops below a floor (BopIt/main.cpp, get_time_limit).
 * Scores are mathematical integers here; the C `int` product cannot overflow
 * for any score a player can reach.
 */
module Timing {
  /** Window at score 0, in milliseconds. */
  const BaseTime: int := 3000
  /** The floor of the window, in milliseconds. */
  const MinTime: int := 800
  /** Milliseconds taken off the window per point. */
  const TimeDecrement: int := 150

  /** Milliseconds a round played at `score` allows: the larger of the floor and the linear rule. */
  function TimeLimit(score: int): (limit: int)
    ensures limit >= MinTime
    ensures limit >= BaseTime - score * TimeDecrement
    ensures limit == MinTime || limit == BaseTime - score * TimeDecrement
  {
    var time := BaseTime - score * TimeDecrement;
    if time < MinTime then MinTime else time
  }

  /** A higher score never gets a longer window. */
  lemma TimeLimitNonIncreasing(lo: int, hi: int)
    requires lo <= hi
    ensures TimeLimit(hi) <= TimeLimit(lo)
  {
  }

  /** For any score a run can reach, the window lies between the floor and the base time. */
  lemma TimeLimitBounds(score: int)
    requires score >= 0
    ensures MinTime <= TimeLimit(score) <= BaseTime
  {
  }

  /** The floor is reached exactly from score 15 on (3000 - 15 * 150 = 750 < 800 <= 3000 - 14 * 150). */
  lemma FloorReachedAtFifteen(score: int)
    ensures TimeLimit(score) == MinTime <==> score >= 15
  {
  }

  /** Worked values: a fresh run gets 3000 ms, score 10 gets 1500 ms, scores 20 and 50 sit on the floor. */
  lemma TimeLimitExamples()
    ensures TimeLimit(0) == 3000 && TimeLimit(10) == 1500
    ensures TimeLimit(14) == 900 && TimeLimit(15) == 800
    ensures TimeLimit(20) == 800 && TimeLimit(50) == 800
  {
  }
}
