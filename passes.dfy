/**
 * The poll loop of one round of play_game (BopIt/main.cpp) read pass by
 * pass: which pass decides the round, and how each way of ending it follows
 * from the passes before it.
 */
module Passes {
  import opened Actions
  import opened Edge
  import opened Arbiter
  import opened Game

  /** The memories after the first `k` passes of a round, each pass polling with what the one before left. */
  function After(t: Trackers, expected: Action, ticks: seq<Tick>, k: nat): Trackers
    requires k <= |ticks|
    decreases k
  {
    if k == 0 then t else After(Poll(t, expected, ticks[0].sample).trackers, expected, ticks[1..], k - 1)
  }

  /** What pass `k` of a round concludes. */
  function PassVerdict(t: Trackers, expected: Action, ticks: seq<Tick>, k: nat): Classification
    requires k < |ticks|
  {
    Poll(After(t, expected, ticks, k), expected, ticks[k].sample).verdict
  }

  /** The first `k` passes all ran inside the window and saw no input. */
  predicate Quiet(t: Trackers, expected: Action, limit: int, ticks: seq<Tick>, k: nat)
    requires k <= |ticks|
  {
    forall j :: 0 <= j < k ==> ticks[j].elapsed < limit && PassVerdict(t, expected, ticks, j) == NoInput
  }

  /** Pass `k` ends the loop: the clock has reached the limit, or the poll saw input. */
  predicate Loud(t: Trackers, expected: Action, limit: int, ticks: seq<Tick>, k: nat)
    requires k < |ticks|
  {
    ticks[k].elapsed >= limit || PassVerdict(t, expected, ticks, k) != NoInput
  }

  /** Proof helper: the memories after pass `k` are those pass `k` leaves. */
  lemma {:induction false} AfterStep(t: Trackers, expected: Action, ticks: seq<Tick>, k: nat)
    requires k < |ticks|
    ensures After(t, expected, ticks, k + 1) == Poll(After(t, expected, ticks, k), expected, ticks[k].sample).trackers
    decreases k
  {
    if k > 0 {
      var p := Poll(t, expected, ticks[0].sample);
      AfterStep(p.trackers, expected, ticks[1..], k - 1);
      assert ticks[1..][k - 1] == ticks[k];
    }
  }

  /** Proof helper: dropping the first pass shifts the passes after it by one. */
  lemma PassShift(t: Trackers, expected: Action, ticks: seq<Tick>, j: nat)
    requires j + 1 < |ticks|
    ensures var p := Poll(t, expected, ticks[0].sample);
      && After(t, expected, ticks, j + 1) == After(p.trackers, expected, ticks[1..], j)
      && PassVerdict(t, expected, ticks, j + 1) == PassVerdict(p.trackers, expected, ticks[1..], j)
  {
    assert ticks[1..][j] == ticks[j + 1];
  }

  /** Proof helper: a quiet prefix is a quiet first pass followed by a quiet prefix of the rest. */
  lemma QuietShift(t: Trackers, expected: Action, limit: int, ticks: seq<Tick>, k: nat)
    requires k < |ticks|
    ensures var p := Poll(t, expected, ticks[0].sample);
      Quiet(t, expected, limit, ticks, k + 1) <==>
        ticks[0].elapsed < limit && p.verdict == NoInput && Quiet(p.trackers, expected, limit, ticks[1..], k)
  {
    var p := Poll(t, expected, ticks[0].sample);
    var rest := ticks[1..];
    assert PassVerdict(t, expected, ticks, 0) == p.verdict;
    if Quiet(t, expected, limit, ticks, k + 1) {
      forall j | 0 <= j < k
        ensures rest[j].elapsed < limit && PassVerdict(p.trackers, expected, rest, j) == NoInput
      {
        PassShift(t, expected, ticks, j);
        assert ticks[j + 1].elapsed < limit && PassVerdict(t, expected, ticks, j + 1) == NoInput;
      }
    }
    if ticks[0].elapsed < limit && p.verdict == NoInput && Quiet(p.trackers, expected, limit, rest, k) {
      forall j | 0 <= j < k + 1
        ensures ticks[j].elapsed < limit && PassVerdict(t, expected, ticks, j) == NoInput
      {
        if j > 0 {
          PassShift(t, expected, ticks, j - 1);
          assert rest[j - 1].elapsed < limit && PassVerdict(p.trackers, expected, rest, j - 1) == NoInput;
        }
      }
    }
  }

  /** Passes inside the window that see no input only move the memories on: the round goes on from there. */
  lemma {:induction false} RoundSkipsQuiet(t: Trackers, expected: Action, limit: int, ticks: seq<Tick>, k: nat)
    requires k <= |ticks| && Quiet(t, expected, limit, ticks, k)
    ensures Round(t, expected, limit, ticks) == Round(After(t, expected, ticks, k), expected, limit, ticks[k..])
    decreases k
  {
    if k > 0 {
      var p := Poll(t, expected, ticks[0].sample);
      QuietShift(t, expected, limit, ticks, k - 1);
      RoundSkipsQuiet(p.trackers, expected, limit, ticks[1..], k - 1);
      assert ticks[1..][k - 1..] == ticks[k..];
    }
  }

  /**
   * The first pass that is not quiet decides the round: reaching the limit
   * times it out with the memories as they were, and input inside the window
   * ends it in success when the poll was Correct and in a wrong action
   * otherwise, with the memories that pass left.
   */
  lemma RoundDecidedAt(t: Trackers, expected: Action, limit: int, ticks: seq<Tick>, k: nat)
    requires k < |ticks| && Quiet(t, expected, limit, ticks, k) && Loud(t, expected, limit, ticks, k)
    ensures Round(t, expected, limit, ticks) ==
      if ticks[k].elapsed >= limit then RoundResult(After(t, expected, ticks, k), Timeout)
      else if PassVerdict(t, expected, ticks, k) == Correct then RoundResult(After(t, expected, ticks, k + 1), Success)
      else RoundResult(After(t, expected, ticks, k + 1), WrongAction)
  {
    RoundSkipsQuiet(t, expected, limit, ticks, k);
    AfterStep(t, expected, ticks, k);
    assert ticks[k..][0] == ticks[k];
  }

  /** Proof helper: either every pass is quiet or some pass is the first that is not. */
  lemma {:induction false} QuietOrLoud(t: Trackers, expected: Action, limit: int, ticks: seq<Tick>)
    ensures || Quiet(t, expected, limit, ticks, |ticks|)
            || exists k :: 0 <= k < |ticks| && Quiet(t, expected, limit, ticks, k) && Loud(t, expected, limit, ticks, k)
    decreases ticks
  {
    if ticks != [] {
      var p := Poll(t, expected, ticks[0].sample);
      assert PassVerdict(t, expected, ticks, 0) == p.verdict;
      if Loud(t, expected, limit, ticks, 0) {
        assert Quiet(t, expected, limit, ticks, 0);
      } else {
        QuietOrLoud(p.trackers, expected, limit, ticks[1..]);
        QuietShift(t, expected, limit, ticks, |ticks| - 1);
        if !Quiet(p.trackers, expected, limit, ticks[1..], |ticks| - 1) {
          var k :| 0 <= k < |ticks| - 1 && Quiet(p.trackers, expected, limit, ticks[1..], k)
            && Loud(p.trackers, expected, limit, ticks[1..], k);
          QuietShift(t, expected, limit, ticks, k);
          PassShift(t, expected, ticks, k);
          assert ticks[1..][k] == ticks[k + 1];
          assert Quiet(t, expected, limit, ticks, k + 1) && Loud(t, expected, limit, ticks, k + 1);
        }
      }
    }
  }

  /** Proof helper: the pass that decides a round, when the script has one, is the only one that can. */
  lemma DecidingPass(t: Trackers, expected: Action, limit: int, ticks: seq<Tick>) returns (k: nat)
    requires !Quiet(t, expected, limit, ticks, |ticks|)
    ensures k < |ticks| && Quiet(t, expected, limit, ticks, k) && Loud(t, expected, limit, ticks, k)
    ensures forall k' :: 0 <= k' < |ticks| && Quiet(t, expected, limit, ticks, k') && Loud(t, expected, limit, ticks, k') ==> k' == k
  {
    QuietOrLoud(t, expected, limit, ticks);
    k :| 0 <= k < |ticks| && Quiet(t, expected, limit, ticks, k) && Loud(t, expected, limit, ticks, k);
  }

  /**
   * A round ends in success exactly when some pass inside the window finds
   * the expected action after quiet passes only, and in a wrong action
   * exactly when such a pass finds another action.
   */
  lemma RoundOutcome(t: Trackers, expected: Action, limit: int, ticks: seq<Tick>)
    ensures Round(t, expected, limit, ticks).end == Success <==>
      exists k :: 0 <= k < |ticks| && Quiet(t, expected, limit, ticks, k)
        && ticks[k].elapsed < limit && PassVerdict(t, expected, ticks, k) == Correct
    ensures Round(t, expected, limit, ticks).end == WrongAction <==>
      exists k :: 0 <= k < |ticks| && Quiet(t, expected, limit, ticks, k)
        && ticks[k].elapsed < limit && PassVerdict(t, expected, ticks, k).Wrong?
  {
    if Quiet(t, expected, limit, ticks, |ticks|) {
      RoundSkipsQuiet(t, expected, limit, ticks, |ticks|);
      assert ticks[|ticks|..] == [];
    } else {
      var k := DecidingPass(t, expected, limit, ticks);
      RoundDecidedAt(t, expected, limit, ticks, k);
    }
  }

  /**
   * A round times out exactly when the clock reaches the limit after quiet
   * passes only, and is left unfinished exactly when every pass of the script
   * is quiet, with the memories those passes leave.
   */
  lemma RoundRunsOut(t: Trackers, expected: Action, limit: int, ticks: seq<Tick>)
    ensures Round(t, expected, limit, ticks).end == Timeout <==>
      exists k :: 0 <= k < |ticks| && Quiet(t, expected, limit, ticks, k) && ticks[k].elapsed >= limit
    ensures Round(t, expected, limit, ticks).end == Unfinished <==> Quiet(t, expected, limit, ticks, |ticks|)
    ensures Quiet(t, expected, limit, ticks, |ticks|) ==>
      Round(t, expected, limit, ticks) == RoundResult(After(t, expected, ticks, |ticks|), Unfinished)
  {
    if Quiet(t, expected, limit, ticks, |ticks|) {
      RoundSkipsQuiet(t, expected, limit, ticks, |ticks|);
      assert ticks[|ticks|..] == [];
    } else {
      var k := DecidingPass(t, expected, limit, ticks);
      RoundDecidedAt(t, expected, limit, ticks, k);
    }
  }
}
