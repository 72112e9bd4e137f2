/**
 * The game as the device runs it (BopIt/main.cpp): the function-local
 * memories of button_pressed and switch_pulled and the high score that main
 * owns become the fields of one Engine, and the C functions become its
 * methods, each proved to do what the matching function of module Game or
 * Arbiter describes.
 */
module GameEngine {
  import opened Actions
  import opened Edge
  import opened Arbiter
  import opened Timing
  import opened Game

  class Engine {
    /** `last_btn` of button_pressed. */
    var lastBtn: int
    /** `last_sw` of switch_pulled. */
    var lastSw: int
    /** `high_score` of main, passed by reference to play_game. */
    var highScore: int

    /** Both detectors' memories as a value. */
    function Memories(): Trackers
      reads this
    {
      Trackers(lastBtn, lastSw)
    }

    /** Power-on: the static initialisers and `int high_score = 0`. */
    constructor ()
      ensures Memories() == PowerOn && highScore == 0
    {
      lastBtn := 0;
      lastSw := NoBaseline;
      highScore := 0;
    }

    /** button_pressed, given the debounced reading `level`. */
    method ButtonPressed(level: int) returns (pressed: bool)
      modifies this`lastBtn
      ensures pressed == ButtonEdge(old(lastBtn), level)
      ensures lastBtn == level
    {
      if Bit0(level) && !Bit0(lastBtn) {
        lastBtn := level;
        return true;
      }
      lastBtn := level;
      return false;
    }

    /** switch_pulled, given the switch reading `level`. */
    method SwitchPulled(level: int) returns (pulled: bool)
      modifies this`lastSw
      ensures pulled == SwitchEdge(old(lastSw), level)
      ensures lastSw == level
    {
      if lastSw == NoBaseline {
        lastSw := level;
        return false;
      }
      pulled := false;
      if Bit0(level) && !Bit0(lastSw) {
        pulled := true;
      }
      lastSw := level;
    }

    /** reset_switch_state: the switches are read and the value dropped; no memory changes. */
    method ResetSwitchState()
      ensures Memories() == old(Memories()) && highScore == old(highScore)
    {
    }

    /** check_action: call the detector of the expected action's channel. */
    method CheckAction(expected: Action, s: Sample) returns (done: bool)
      modifies this`lastBtn, this`lastSw
      ensures Memories() == Arbiter.CheckAction(old(Memories()), expected, s).trackers
      ensures done == Arbiter.CheckAction(old(Memories()), expected, s).fired
    {
      match expected
      case Bop => done := ButtonPressed(s.button);
      case Pull => done := SwitchPulled(s.switch);
      case Twist => done := s.tilted;
    }

    /** wrong_action_performed: button, switch, tilt, skipping the expected one, up to the first that reports. */
    method WrongActionPerformed(expected: Action, s: Sample) returns (wrong: bool)
      modifies this`lastBtn, this`lastSw
      ensures Memories() == Arbiter.WrongActionPerformed(old(Memories()), expected, s).trackers
      ensures wrong == Arbiter.WrongActionPerformed(old(Memories()), expected, s).culprit.Some?
    {
      if expected != Bop {
        var pressed := ButtonPressed(s.button);
        if pressed {
          return true;
        }
      }
      if expected != Pull {
        var pulled := SwitchPulled(s.switch);
        if pulled {
          return true;
        }
      }
      if expected != Twist && s.tilted {
        return true;
      }
      return false;
    }

    /**
     * One prompt of play_game from the switch reset on: poll until the
     * action is seen, a wrong action is seen, or `limit` milliseconds pass.
     */
    method PlayRound(expected: Action, limit: int, ticks: seq<Tick>) returns (end: RoundEnd)
      modifies this`lastBtn, this`lastSw
      ensures RoundResult(Memories(), end) == Round(old(Memories()), expected, limit, ticks)
    {
      ResetSwitchState();
      var actionCompleted := false;
      var wrongAction := false;
      var i := 0;
      while i < |ticks| && ticks[i].elapsed < limit
        invariant 0 <= i <= |ticks|
        invariant !actionCompleted && !wrongAction
        invariant Round(Memories(), expected, limit, ticks[i..]) == Round(old(Memories()), expected, limit, ticks)
        decreases |ticks| - i
      {
        ghost var before := Memories();
        assert ticks[i..][0] == ticks[i] && ticks[i..][1..] == ticks[i + 1..];
        RoundStep(before, expected, limit, ticks[i..]);
        actionCompleted := CheckAction(expected, ticks[i].sample);
        if actionCompleted {
          assert Round(before, expected, limit, ticks[i..]) == RoundResult(Memories(), Success);
          break;
        }
        wrongAction := WrongActionPerformed(expected, ticks[i].sample);
        if wrongAction {
          assert Round(before, expected, limit, ticks[i..]) == RoundResult(Memories(), WrongAction);
          break;
        }
        i := i + 1;
      }
      assert !(actionCompleted && wrongAction);
      if wrongAction {
        return WrongAction;
      }
      if !actionCompleted {
        // Out of the loop without a verdict: the clock reached the limit, or the script ran out.
        return if i < |ticks| then Timeout else Unfinished;
      }
      return Success;
    }

    /**
     * play_game: rounds from score 0 until one fails, then the high score
     * becomes the larger of itself and the score.
     */
    method PlayGame(rounds: seq<RoundInput>) returns (score: nat, end: RoundEnd)
      modifies this
      ensures var run := PlayRounds(old(Memories()), 0, rounds);
        Memories() == run.trackers && score == run.score && end == run.end
      ensures highScore == if end == Unfinished then old(highScore) else NewHighScore(old(highScore), score)
    {
      score := 0;
      end := Unfinished;
      var i := 0;
      while i < |rounds|
        invariant 0 <= i <= |rounds| && score == i
        invariant end == Unfinished && highScore == old(highScore)
        invariant var rest := PlayRounds(Memories(), score, rounds[i..]);
          var run := PlayRounds(old(Memories()), 0, rounds);
          rest.trackers == run.trackers && rest.score == run.score && rest.end == run.end
        decreases |rounds| - i
      {
        var action := RandomAction(rounds[i].draw);
        var limit := TimeLimit(score);
        assert rounds[i..][0] == rounds[i] && rounds[i..][1..] == rounds[i + 1..];
        var roundEnd := PlayRound(action, limit, rounds[i].ticks);
        if roundEnd != Success {
          end := roundEnd;
          break;
        }
        score := score + 1;
        i := i + 1;
      }
      if end == Unfinished {
        // The script ended with the run still going: play_game has not reached its high-score update.
        return;
      }
      if score > highScore {
        highScore := score;
      }
    }

    /** wait_for_start: poll the button detector until it reports a press. */
    method WaitForStart(levels: seq<int>) returns (pressed: bool)
      modifies this`lastBtn
      ensures pressed == AwaitPress(old(lastBtn), levels).pressed
      ensures lastBtn == AwaitPress(old(lastBtn), levels).lastBtn
    {
      pressed := false;
      var i := 0;
      while i < |levels|
        invariant 0 <= i <= |levels| && !pressed
        invariant var w := AwaitPress(lastBtn, levels[i..]);
          var w0 := AwaitPress(old(lastBtn), levels);
          w.pressed == w0.pressed && w.lastBtn == w0.lastBtn
        invariant i == |levels| ==> lastBtn == AwaitPress(old(lastBtn), levels).lastBtn
        decreases |levels| - i
      {
        assert levels[i..][0] == levels[i] && levels[i..][1..] == levels[i + 1..];
        pressed := ButtonPressed(levels[i]);
        if pressed {
          return;
        }
        i := i + 1;
      }
    }

    /** The loop of main: wait for the start press, play a game, and again. */
    method Serve(games: seq<GameInput>) returns (scores: seq<nat>)
      modifies this
      ensures var s := Game.Serve(old(Memories()), old(highScore), games);
        Memories() == s.trackers && highScore == s.highScore && scores == s.scores
    {
      scores := [];
      var i := 0;
      while i < |games|
        invariant 0 <= i <= |games|
        invariant var rest := Game.Serve(Memories(), highScore, games[i..]);
          var all := Game.Serve(old(Memories()), old(highScore), games);
          rest.trackers == all.trackers && rest.highScore == all.highScore && scores + rest.scores == all.scores
        decreases |games| - i
      {
        assert games[i..][0] == games[i] && games[i..][1..] == games[i + 1..];
        var started := WaitForStart(games[i].presses);
        if !started {
          return;
        }
        var score, end := PlayGame(games[i].rounds);
        if end == Unfinished {
          return;
        }
        scores := scores + [score];
        i := i + 1;
      }
    }
  }

  /**
   * main from power-on: fresh detector memories, high score 0, then the
   * session. Afterwards the high score is the best finished run, or 0.
   */
  method PowerUp(games: seq<GameInput>) returns (scores: seq<nat>, highScore: int)
    ensures |scores| <= |games|
    ensures highScore >= 0
    ensures forall i :: 0 <= i < |scores| ==> scores[i] <= highScore
    ensures highScore == 0 || highScore in scores
    ensures var s := Game.Serve(PowerOn, 0, games); scores == s.scores && highScore == s.highScore
  {
    var engine := new Engine();
    scores := engine.Serve(games);
    highScore := engine.highScore;
  }
}
