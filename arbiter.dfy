/**
 * Input arbitration for one poll (BopIt/main.cpp, check_action and
 * wrong_action_performed). The button is the channel of BOP, the switch of
 * PULL and the tilt of TWIST. Calling a detector consumes its edge; tilt is a
 * level, read without memory.
 */
module Arbiter {
  import opened Wrappers
  import opened Actions
  import opened Edge

  /** What the three channels would read on this poll. */
  datatype Sample = Sample(button: int, switch: int, tilted: bool)

  /** Whether the detector of channel `c`, with memories `t`, reports on reading `s`. */
  predicate Fires(t: Trackers, c: Action, s: Sample) {
    match c
    case Bop => ButtonEdge(t.lastBtn, s.button)
    case Pull => SwitchEdge(t.lastSw, s.switch)
    case Twist => s.tilted
  }

  /** The memories after the detector of channel `c` has read `s`: it keeps its reading. */
  function Observe(t: Trackers, c: Action, s: Sample): Trackers {
    match c
    case Bop => t.(lastBtn := s.button)
    case Pull => t.(lastSw := s.switch)
    case Twist => t
  }

  /** Whether two samples read the same on channel `c`. */
  predicate SameOn(c: Action, s: Sample, s': Sample) {
    match c
    case Bop => s.button == s'.button
    case Pull => s.switch == s'.switch
    case Twist => s.tilted == s'.tilted
  }

  /** One detector call: the new memories and whether it reported. */
  datatype Probe = Probe(trackers: Trackers, fired: bool)

  /** `check_action`: calls the detector of the expected action's channel and no other. */
  function CheckAction(t: Trackers, expected: Action, s: Sample): (p: Probe)
    ensures p.fired == Fires(t, expected, s)
    ensures p.trackers == Observe(t, expected, s)
    ensures forall c :: c != expected ==> Fires(p.trackers, c, s) == Fires(t, c, s)
  {
    match expected
    case Bop => Probe(t.(lastBtn := s.button), ButtonEdge(t.lastBtn, s.button))
    case Pull => Probe(t.(lastSw := s.switch), SwitchEdge(t.lastSw, s.switch))
    case Twist => Probe(t, s.tilted)
  }

  /**
   * The outcome of `wrong_action_performed`: the new memories, the channel
   * that disqualified the player if any, and the channels whose detector was
   * called, in call order.
   */
  datatype Verdict = Verdict(trackers: Trackers, culprit: Option<Action>, probed: seq<Action>)

  /**
   * `wrong_action_performed`: tries button, switch, tilt in that order,
   * skipping the expected action's channel, and stops at the first that reports.
   */
  function WrongActionPerformed(t: Trackers, expected: Action, s: Sample): (v: Verdict)
    ensures expected !in v.probed
    ensures forall i, j :: 0 <= i < j < |v.probed| ==> Index(v.probed[i]) < Index(v.probed[j])
    ensures forall c :: c in v.probed <==>
      c != expected && (v.culprit.None? || Index(c) <= Index(v.culprit.value))
    ensures v.culprit.Some? ==> v.culprit.value != expected && Fires(t, v.culprit.value, s)
    ensures forall c :: c in v.probed && Some(c) != v.culprit ==> !Fires(t, c, s)
    ensures v.trackers.lastBtn == (if Bop in v.probed then s.button else t.lastBtn)
    ensures v.trackers.lastSw == (if Pull in v.probed then s.switch else t.lastSw)
  {
    if expected != Bop && ButtonEdge(t.lastBtn, s.button) then
      Verdict(t.(lastBtn := s.button), Some(Bop), [Bop])
    else
      var t1 := if expected != Bop then t.(lastBtn := s.button) else t;
      var p1 := if expected != Bop then [Bop] else [];
      if expected != Pull && SwitchEdge(t1.lastSw, s.switch) then
        Verdict(t1.(lastSw := s.switch), Some(Pull), p1 + [Pull])
      else
        var t2 := if expected != Pull then t1.(lastSw := s.switch) else t1;
        var p2 := p1 + (if expected != Pull then [Pull] else []);
        if expected != Twist && s.tilted then
          Verdict(t2, Some(Twist), p2 + [Twist])
        else
          Verdict(t2, None, p2 + (if expected != Twist then [Twist] else []))
  }

  /** What one poll concludes. */
  datatype Classification = NoInput | Correct | Wrong(culprit: Action)

  /** One poll: the new memories, its verdict, and the channels read, in order. */
  datatype PollResult = PollResult(trackers: Trackers, verdict: Classification, probed: seq<Action>)

  /**
   * One iteration of the poll loop of play_game: the correct action is looked
   * for first, and only if it is absent are the other channels checked.
   */
  function Poll(t: Trackers, expected: Action, s: Sample): (r: PollResult)
    ensures r.verdict == Correct <==> Fires(t, expected, s)
    ensures r.verdict.Wrong? ==>
      && r.verdict.culprit != expected
      && Fires(t, r.verdict.culprit, s)
      && forall c :: c != expected && Index(c) < Index(r.verdict.culprit) ==> !Fires(t, c, s)
    ensures r.verdict == NoInput <==> forall c :: !Fires(t, c, s)
    ensures |r.probed| > 0 && r.probed[0] == expected
    ensures r.verdict == Correct ==> r.probed == [expected]
    ensures r.trackers.lastBtn == (if Bop in r.probed then s.button else t.lastBtn)
    ensures r.trackers.lastSw == (if Pull in r.probed then s.switch else t.lastSw)
  {
    var p := CheckAction(t, expected, s);
    if p.fired then PollResult(p.trackers, Correct, [expected])
    else
      var v := WrongActionPerformed(p.trackers, expected, s);
      PollResult(v.trackers, if v.culprit.Some? then Wrong(v.culprit.value) else NoInput, [expected] + v.probed)
  }

  /** `check_action` reads only the expected action's channel: the others cannot change what it does. */
  lemma CheckActionReadsOnlyExpected(t: Trackers, expected: Action, s: Sample, s': Sample)
    requires SameOn(expected, s, s')
    ensures CheckAction(t, expected, s) == CheckAction(t, expected, s')
    ensures CheckAction(t, expected, s).trackers == Observe(t, expected, s)
    ensures forall c, s'' :: c != expected ==> Fires(CheckAction(t, expected, s).trackers, c, s'') == Fires(t, c, s'')
  {
  }

  /** `wrong_action_performed` never reads the expected action's channel. */
  lemma WrongActionIgnoresExpected(t: Trackers, expected: Action, s: Sample, s': Sample)
    requires forall c :: c != expected ==> SameOn(c, s, s')
    ensures WrongActionPerformed(t, expected, s) == WrongActionPerformed(t, expected, s')
  {
    match expected
    case Bop => assert SameOn(Pull, s, s') && SameOn(Twist, s, s');
    case Pull => assert SameOn(Bop, s, s') && SameOn(Twist, s, s');
    case Twist => assert SameOn(Bop, s, s') && SameOn(Pull, s, s');
  }

  /**
   * Within one poll every channel's detector is called at most once, and
   * after the expected channel the poll reads exactly the other channels up
   * to the one it blames, or all of them when it blames none.
   */
  lemma PollReadsEachChannelOnce(t: Trackers, expected: Action, s: Sample)
    ensures var r := Poll(t, expected, s);
      forall i, j :: 0 <= i < j < |r.probed| ==> r.probed[i] != r.probed[j]
    ensures var r := Poll(t, expected, s);
      forall c :: c in r.probed[1..] <==>
        c != expected && (r.verdict.NoInput? || (r.verdict.Wrong? && Index(c) <= Index(r.verdict.culprit)))
  {
    var p := CheckAction(t, expected, s);
    if !p.fired {
      var v := WrongActionPerformed(p.trackers, expected, s);
      var probed := [expected] + v.probed;
      forall i, j | 0 <= i < j < |probed|
        ensures probed[i] != probed[j]
      {
        if i == 0 {
          assert probed[j] in v.probed;
        } else {
          assert Index(v.probed[i - 1]) < Index(v.probed[j - 1]);
        }
      }
    }
  }

  /** A correct action wins the poll whatever else the player does at the same time. */
  lemma CorrectWins(t: Trackers, expected: Action, s: Sample)
    requires Fires(t, expected, s)
    ensures Poll(t, expected, s).verdict == Correct
    ensures Poll(t, expected, s).probed == [expected]
  {
  }

  /** Expecting BOP, a new switch edge together with a tilt is blamed on the switch. */
  lemma SwitchBeforeTilt(t: Trackers, s: Sample)
    requires !ButtonEdge(t.lastBtn, s.button)
    requires SwitchEdge(t.lastSw, s.switch) && s.tilted
    ensures Poll(t, Bop, s).verdict == Wrong(Pull)
    ensures Poll(t, Bop, s).trackers == Trackers(s.button, s.switch)
  {
  }
}
