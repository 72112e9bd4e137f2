/**
 * The round, run and session logic of the game (BopIt/main.cpp, the poll loop
 * and round loop of play_game, wait_for_start, and the loop of main), as
 * functions over the inputs the hardware would deliver. The source loops
 * forever; here every loop runs over a finite script of inputs, and when the
 * script ends while the source would still be looping, the result says
 * Unfinished and nothing that the source does after that loop has happened.
 */
module Game {
  import opened Actions
  import opened Edge
  import opened Arbiter
  import opened Timing

  /** One pass of the poll loop: milliseconds since the round started, and what the channels read. */
  datatype Tick = Tick(elapsed: nat, sample: Sample)

  /** How a round ended; Unfinished means the script ran out while still polling. */
  datatype RoundEnd = Success | WrongAction | Timeout | Unfinished

  datatype RoundResult = RoundResult(trackers: Trackers, end: RoundEnd)

  /**
   * The poll loop for one prompt: while fewer than `limit` milliseconds have
   * passed, poll; a correct action ends the round in success, a wrong one ends
   * it in failure; once the clock reaches the limit the round times out.
   */
  function Round(t: Trackers, expected: Action, limit: int, ticks: seq<Tick>): (r: RoundResult)
    ensures |ticks| > 0 && ticks[0].elapsed >= limit ==> r == RoundResult(t, Timeout)
    decreases ticks
  {
    if ticks == [] then RoundResult(t, Unfinished)
    else if ticks[0].elapsed >= limit then RoundResult(t, Timeout)
    else
      var p := Poll(t, expected, ticks[0].sample);
      match p.verdict
      case Correct => RoundResult(p.trackers, Success)
      case Wrong(_) => RoundResult(p.trackers, WrongAction)
      case NoInput =>
        Round(p.trackers, expected, limit, ticks[1..])
  }

  /**
   * A round times out only once the clock has reached the limit, and is left
   * unfinished only when every pass of the script was still inside the window.
   * One direction of each equivalence in Passes.RoundRunsOut, proved here
   * directly by induction on the passes.
   */
  lemma {:induction false} RoundEndsWithin(t: Trackers, expected: Action, limit: int, ticks: seq<Tick>)
    ensures Round(t, expected, limit, ticks).end == Timeout ==>
      exists k :: 0 <= k < |ticks| && ticks[k].elapsed >= limit
    ensures Round(t, expected, limit, ticks).end == Unfinished ==>
      forall k :: 0 <= k < |ticks| ==> ticks[k].elapsed < limit
    decreases ticks
  {
    if ticks != [] && ticks[0].elapsed < limit {
      RoundStep(t, expected, limit, ticks);
      var p := CheckAction(t, expected, ticks[0].sample);
      var v := WrongActionPerformed(p.trackers, expected, ticks[0].sample);
      if !p.fired && v.culprit.None? {
        RoundEndsWithin(v.trackers, expected, limit, ticks[1..]);
        assert forall k :: 1 <= k < |ticks| ==> ticks[1..][k - 1] == ticks[k];
      }
    }
  }

  /** What the game announces for one round: the prompt, its window, and how it ended. */
  datatype Announcement = Announcement(action: Action, limit: int, end: RoundEnd)

  /**
   * Proof helper: one pass of the poll loop inside the window, unfolded into
   * the two detector calls of a poll. It repeats the body of Round in those
   * terms, so that the loop of the engine can use it as one equation.
   */
  lemma RoundStep(t: Trackers, expected: Action, limit: int, ticks: seq<Tick>)
    requires ticks != [] && ticks[0].elapsed < limit
    ensures var p := CheckAction(t, expected, ticks[0].sample);
      var v := WrongActionPerformed(p.trackers, expected, ticks[0].sample);
      Round(t, expected, limit, ticks) ==
        if p.fired then RoundResult(p.trackers, Success)
        else if v.culprit.Some? then RoundResult(v.trackers, WrongAction)
        else Round(v.trackers, expected, limit, ticks[1..])
  {
  }

  /** A run of rounds: final memories, final score, how the last round ended, and the rounds played. */
  datatype Run = Run(trackers: Trackers, score: nat, end: RoundEnd, log: seq<Announcement>)

  /** The random draw and the time a prompt gets, as play_game pairs them. */
  datatype RoundInput = RoundInput(draw: nat, ticks: seq<Tick>)

  /**
   * The round loop of play_game from score `score`: draw a prompt, give it
   * the window for the current score, and go on only while rounds succeed,
   * adding one point per success.
   */
  function PlayRounds(t: Trackers, score: nat, rounds: seq<RoundInput>): (r: Run)
    ensures r.end != Success
    ensures |r.log| <= |rounds|
    ensures r.log == [] <==> rounds == []
    ensures r.log == [] ==> r.end == Unfinished && r.score == score
    decreases rounds
  {
    if rounds == [] then Run(t, score, Unfinished, [])
    else
      var action := RandomAction(rounds[0].draw);
      var limit := TimeLimit(score);
      var round := Round(t, action, limit, rounds[0].ticks);
      var entry := Announcement(action, limit, round.end);
      if round.end == Success then
        var rest := PlayRounds(round.trackers, score + 1, rounds[1..]);
        rest.(log := [entry] + rest.log)
      else
        Run(round.trackers, score, round.end, [entry])
  }

  /**
   * Proof helper: one round of a run, unfolded. It repeats the body of
   * PlayRounds with the round's result named, which keeps the induction
   * proofs about runs cheap.
   */
  lemma PlayRoundsStep(t: Trackers, score: nat, rounds: seq<RoundInput>, round: RoundResult)
    requires rounds != [] && round == Round(t, RandomAction(rounds[0].draw), TimeLimit(score), rounds[0].ticks)
    ensures round.end == Success ==>
      PlayRounds(t, score, rounds) == PlayRounds(round.trackers, score + 1, rounds[1..]).(log :=
        [Announcement(RandomAction(rounds[0].draw), TimeLimit(score), Success)]
        + PlayRounds(round.trackers, score + 1, rounds[1..]).log)
    ensures round.end != Success ==>
      PlayRounds(t, score, rounds) ==
        Run(round.trackers, score, round.end, [Announcement(RandomAction(rounds[0].draw), TimeLimit(score), round.end)])
  {
  }

  /** Proof helper: the first announcement of a run names the first draw and the window of the starting score. */
  lemma RunLogHead(t: Trackers, score: nat, rounds: seq<RoundInput>)
    requires rounds != []
    ensures |PlayRounds(t, score, rounds).log| > 0
    ensures PlayRounds(t, score, rounds).log[0].action == RandomAction(rounds[0].draw)
    ensures PlayRounds(t, score, rounds).log[0].limit == TimeLimit(score)
  {
    var round := Round(t, RandomAction(rounds[0].draw), TimeLimit(score), rounds[0].ticks);
    PlayRoundsStep(t, score, rounds, round);
  }

  /** Proof helper: after its first announcement a run's log is that of the run from the next score. */
  lemma RunLogTail(t: Trackers, score: nat, rounds: seq<RoundInput>, i: nat) returns (next: Trackers)
    requires 0 < i < |PlayRounds(t, score, rounds).log|
    ensures i - 1 < |PlayRounds(next, score + 1, rounds[1..]).log|
    ensures PlayRounds(t, score, rounds).log[i] == PlayRounds(next, score + 1, rounds[1..]).log[i - 1]
  {
    var round := Round(t, RandomAction(rounds[0].draw), TimeLimit(score), rounds[0].ticks);
    PlayRoundsStep(t, score, rounds, round);
    next := round.trackers;
  }

  /** Round i of a run prompts with the i-th draw and gets the window of score `score + i`. */
  lemma {:induction false} RunAnnouncementAt(t: Trackers, score: nat, rounds: seq<RoundInput>, i: nat)
    requires i < |PlayRounds(t, score, rounds).log|
    ensures PlayRounds(t, score, rounds).log[i].action == RandomAction(rounds[i].draw)
    ensures PlayRounds(t, score, rounds).log[i].limit == TimeLimit(score + i)
    decreases i
  {
    if i == 0 {
      RunLogHead(t, score, rounds);
    } else {
      var next := RunLogTail(t, score, rounds, i);
      RunAnnouncementAt(next, score + 1, rounds[1..], i - 1);
      assert rounds[1..][i - 1] == rounds[i];
    }
  }

  /** Every round of a run prompts with its own draw and gets the window of the score it is played at. */
  lemma RunAnnouncements(t: Trackers, score: nat, rounds: seq<RoundInput>, run: Run)
    requires run == PlayRounds(t, score, rounds)
    ensures forall i :: 0 <= i < |run.log| ==>
      run.log[i].action == RandomAction(rounds[i].draw) && run.log[i].limit == TimeLimit(score + i)
  {
    forall i | 0 <= i < |run.log|
      ensures run.log[i].action == RandomAction(rounds[i].draw) && run.log[i].limit == TimeLimit(score + i)
    {
      RunAnnouncementAt(t, score, rounds, i);
    }
  }

  /** A run goes on only while rounds succeed: every round before its last one succeeded. */
  lemma {:induction false} RunContinuesOnSuccess(t: Trackers, score: nat, rounds: seq<RoundInput>)
    ensures forall i :: 0 <= i && i + 1 < |PlayRounds(t, score, rounds).log| ==>
      PlayRounds(t, score, rounds).log[i].end == Success
    decreases rounds
  {
    if rounds != [] {
      var round := Round(t, RandomAction(rounds[0].draw), TimeLimit(score), rounds[0].ticks);
      if round.end == Success {
        RunContinuesOnSuccess(round.trackers, score + 1, rounds[1..]);
        var rest := PlayRounds(round.trackers, score + 1, rounds[1..]);
        var r := PlayRounds(t, score, rounds);
        assert forall i :: 0 <= i && i + 1 < |rest.log| ==> rest.log[i].end == Success;
        assert r.log == [r.log[0]] + rest.log && r.log[0].end == Success;
        forall i | 0 <= i && i + 1 < |r.log|
          ensures r.log[i].end == Success
        {
          if i > 0 {
            assert r.log[i] == rest.log[i - 1];
          }
        }
      }
    }
  }

  /**
   * The score of a run gains one point per successful round and no other:
   * a run that ended lost its last round and scored one less than the
   * rounds it played; otherwise every round given succeeded and scored.
   */
  lemma {:induction false} RunScore(t: Trackers, score: nat, rounds: seq<RoundInput>, run: Run)
    requires run == PlayRounds(t, score, rounds)
    ensures if |run.log| > 0 && run.log[|run.log| - 1].end != Success
      then run.end == run.log[|run.log| - 1].end && run.score == score + |run.log| - 1
      else run.end == Unfinished && |run.log| == |rounds| && run.score == score + |run.log|
    decreases rounds
  {
    if rounds != [] {
      var round := Round(t, RandomAction(rounds[0].draw), TimeLimit(score), rounds[0].ticks);
      PlayRoundsStep(t, score, rounds, round);
      if round.end == Success {
        var rest := PlayRounds(round.trackers, score + 1, rounds[1..]);
        RunScore(round.trackers, score + 1, rounds[1..], rest);
        assert run.log == [run.log[0]] + rest.log && run.log[0].end == Success;
        if rest.log != [] {
          assert run.log[|run.log| - 1] == rest.log[|rest.log| - 1];
        }
      }
    }
  }

  /** The high score after a finished run: the larger of the old high score and the run's score. */
  function NewHighScore(high: int, score: int): (h: int)
    ensures h >= high && h >= score
    ensures h == high || h == score
  {
    if score > high then score else high
  }

  /** The wait for the start press: how many button readings it took, and the button memory after them. */
  datatype Wait = Wait(lastBtn: int, pressed: bool, used: nat)

  /**
   * wait_for_start: call the button detector until it reports an edge. The
   * detector is the same one the BOP rounds use.
   */
  function AwaitPress(last: int, levels: seq<int>): (w: Wait)
    ensures w.used <= |levels|
    ensures w.pressed <==> true in ButtonEdges(last, levels)
    ensures w.pressed ==> 0 < w.used && ButtonEdges(last, levels)[w.used - 1]
    ensures w.pressed ==> true !in ButtonEdges(last, levels)[..w.used - 1]
    ensures w.pressed ==> w.lastBtn == levels[w.used - 1] && Bit0(w.lastBtn)
    ensures !w.pressed ==> w.used == |levels| && w.lastBtn == (if levels == [] then last else levels[|levels| - 1])
    decreases levels
  {
    if levels == [] then Wait(last, false, 0)
    else if ButtonEdge(last, levels[0]) then Wait(levels[0], true, 1)
    else
      var w := AwaitPress(levels[0], levels[1..]);
      var all := ButtonEdges(last, levels);
      assert all == [false] + ButtonEdges(levels[0], levels[1..]);
      assert w.pressed ==> all[..w.used] == [false] + ButtonEdges(levels[0], levels[1..])[..w.used - 1];
      w.(used := w.used + 1)
  }

  /** The inputs of one game: button readings while idle, then the rounds. */
  datatype GameInput = GameInput(presses: seq<int>, rounds: seq<RoundInput>)

  /** The state carried across games: the detectors' memories, the high score, and every finished run's score. */
  datatype Session = Session(trackers: Trackers, highScore: int, scores: seq<nat>)

  /**
   * The loop of main: wait for the start press, play a run from score 0,
   * then fold its score into the high score, and start over.
   */
  function Serve(t: Trackers, high: int, games: seq<GameInput>): (s: Session)
    ensures |s.scores| <= |games|
    ensures s.highScore >= high
    ensures forall i :: 0 <= i < |s.scores| ==> s.scores[i] <= s.highScore
    ensures s.highScore == high || s.highScore in s.scores
    decreases games
  {
    if games == [] then Session(t, high, [])
    else
      var w := AwaitPress(t.lastBtn, games[0].presses);
      if !w.pressed then Session(t.(lastBtn := w.lastBtn), high, [])
      else
        var run := PlayRounds(t.(lastBtn := w.lastBtn), 0, games[0].rounds);
        if run.end == Unfinished then Session(run.trackers, high, [])
        else
          var rest := Serve(run.trackers, NewHighScore(high, run.score), games[1..]);
          Session(rest.trackers, rest.highScore, [run.score] + rest.scores)
  }

  /**
   * A player who touches nothing never wins or loses a round by action: it
   * times out once the clock allows. The button and the switch each stay at
   * one reading that makes no edge against its detector's memory: the
   * released button after the start press or a BOP win, a held button or
   * switch, or any switch while its memory is still the sentinel.
   */
  lemma {:induction false} IdlePlayerTimesOut(t: Trackers, b: int, sw: int, expected: Action, limit: int, ticks: seq<Tick>)
    requires !ButtonEdge(t.lastBtn, b) && !SwitchEdge(t.lastSw, sw)
    requires forall k :: 0 <= k < |ticks| ==> ticks[k].sample == Sample(b, sw, false)
    ensures Round(t, expected, limit, ticks).trackers.lastBtn in {t.lastBtn, b}
    ensures Round(t, expected, limit, ticks).trackers.lastSw in {t.lastSw, sw}
    ensures Round(t, expected, limit, ticks).end in {Timeout, Unfinished}
    ensures (exists k :: 0 <= k < |ticks| && ticks[k].elapsed >= limit) ==>
      Round(t, expected, limit, ticks).end == Timeout
    decreases ticks
  {
    if ticks != [] && ticks[0].elapsed < limit {
      var p := Poll(t, expected, ticks[0].sample);
      assert p.verdict == NoInput && p.trackers == Trackers(b, sw);
      IdlePlayerTimesOut(p.trackers, b, sw, expected, limit, ticks[1..]);
    }
  }

  /**
   * reset_switch_state leaves the switch memory alone, so a switch raised
   * after it was last read, for instance during the prompt's tone, wins a
   * PULL round on the first poll.
   */
  lemma SwitchRaisedBeforePollingCounts(t: Trackers, limit: int, first: Tick, rest: seq<Tick>)
    requires !Bit0(t.lastSw)
    requires Bit0(first.sample.switch) && first.elapsed < limit
    ensures Round(t, Pull, limit, [first] + rest).end == Success
  {
    assert ([first] + rest)[0] == first;
  }

  /**
   * The start press goes through the button detector the rounds share, so it
   * is consumed: on the first poll of the run the button can neither win a BOP
   * round nor be blamed as a wrong action.
   */
  lemma StartPressIsConsumed(t: Trackers, levels: seq<int>, expected: Action, s: Sample)
    requires AwaitPress(t.lastBtn, levels).pressed
    ensures var start := t.(lastBtn := AwaitPress(t.lastBtn, levels).lastBtn);
      && Poll(start, expected, s).verdict != Wrong(Bop)
      && (expected == Bop ==> Poll(start, expected, s).verdict != Correct)
  {
  }

  /** First round of the scenario below: the held start button is released, then pressed again. */
  lemma ScenarioBop()
    ensures Round(Trackers(1, NoBaseline), Bop, 3000,
      [Tick(0, Sample(0, 0, false)), Tick(10, Sample(1, 0, false))]) == RoundResult(Trackers(1, 0), Success)
  {
    var ticks := [Tick(0, Sample(0, 0, false)), Tick(10, Sample(1, 0, false))];
    assert Poll(Trackers(1, NoBaseline), Bop, ticks[0].sample) == PollResult(Trackers(0, 0), NoInput, [Bop, Pull, Twist]);
    assert ticks[1..] == [Tick(10, Sample(1, 0, false))];
    assert Round(Trackers(0, 0), Bop, 3000, ticks[1..]) == RoundResult(Trackers(1, 0), Success);
  }

  /**
   * A run whose prompts are BOP, PULL, TWIST, where the player releases and
   * presses the button, then raises the switch, then lets the third window
   * run out, scores 2.
   */
  lemma TwoThenTimeout(high: int)
    ensures var run := PlayRounds(Trackers(1, NoBaseline), 0, [
      RoundInput(0, [Tick(0, Sample(0, 0, false)), Tick(10, Sample(1, 0, false))]),
      RoundInput(1, [Tick(0, Sample(1, 1, false))]),
      RoundInput(2, [Tick(2700, Sample(1, 1, false))])]);
      run.score == 2 && run.end == Timeout
    ensures high < 2 ==> NewHighScore(high, 2) == 2
  {
    var r1 := [Tick(0, Sample(0, 0, false)), Tick(10, Sample(1, 0, false))];
    var r2 := [Tick(0, Sample(1, 1, false))];
    var r3 := [Tick(2700, Sample(1, 1, false))];
    var script := [RoundInput(0, r1), RoundInput(1, r2), RoundInput(2, r3)];
    ScenarioBop();
    assert RandomAction(0) == Bop && RandomAction(1) == Pull && RandomAction(2) == Twist;
    assert TimeLimit(0) == 3000 && TimeLimit(1) == 2850 && TimeLimit(2) == 2700;
    assert Round(Trackers(1, 0), Pull, 2850, r2) == RoundResult(Trackers(1, 1), Success);
    assert Round(Trackers(1, 1), Twist, 2700, r3) == RoundResult(Trackers(1, 1), Timeout);
    assert script[1..] == [RoundInput(1, r2), RoundInput(2, r3)];
    assert script[1..][1..] == [RoundInput(2, r3)];
    var last := PlayRounds(Trackers(1, 1), 2, script[1..][1..]);
    assert last.score == 2 && last.end == Timeout;
    var middle := PlayRounds(Trackers(1, 0), 1, script[1..]);
    assert middle.score == 2 && middle.end == Timeout;
  }
}
