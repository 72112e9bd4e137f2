/**
 * Rising-edge detection on bit 0 of a polled level (BopIt/main.cpp,
 * button_pressed and switch_pulled). Each detector remembers the last level
 * it read; the button's memory starts at 0, the switch's at the sentinel -1,
 * which makes its first call only record a baseline.
 */
module Edge {
  /** The switch tracker's "nothing read yet" value. */
  const NoBaseline: int := -1

  /** Bit 0 of a reading, `level & 0x01` (the low bit of two's complement is the Euclidean remainder). */
  predicate Bit0(level: int) {
    level % 2 == 1
  }

  /** What `button_pressed` reports when its memory holds `last` and it reads `level`. */
  predicate ButtonEdge(last: int, level: int): (e: bool)
    ensures e <==> Bit0(level) && Bit0(level) != Bit0(last)
    ensures e ==> level != last
  {
    Bit0(level) && !Bit0(last)
  }

  /**
   * What `switch_pulled` reports when its memory holds `last` and it reads
   * `level`. The sentinel branch returns what the bit test would return
   * anyway, because bit 0 of -1 is set: the two detectors compute the same
   * function of memory and reading.
   */
  predicate SwitchEdge(last: int, level: int): (e: bool)
    ensures last == NoBaseline ==> !e
    ensures e == ButtonEdge(last, level)
  {
    if last == NoBaseline then false
    else Bit0(level) && !Bit0(last)
  }

  /** The two detectors' memories (`last_btn`, `last_sw`). */
  datatype Trackers = Trackers(lastBtn: int, lastSw: int)

  /** Their values at power-on. */
  const PowerOn: Trackers := Trackers(0, NoBaseline)

  /**
   * What successive calls of `button_pressed` return for the readings `levels`,
   * starting from memory `last`; every call stores its reading.
   */
  function ButtonEdges(last: int, levels: seq<int>): (r: seq<bool>)
    ensures |r| == |levels|
    ensures forall i :: 0 <= i < |levels| ==>
      r[i] == (Bit0(levels[i]) && !Bit0(if i == 0 then last else levels[i - 1]))
    ensures forall i :: 0 <= i < |levels| - 1 && r[i] ==> !r[i + 1]
    decreases levels
  {
    if levels == [] then []
    else
      var rest := ButtonEdges(levels[0], levels[1..]);
      assert forall i :: 1 <= i < |levels| ==> rest[i - 1] == ButtonEdge(levels[i - 1], levels[i]);
      [ButtonEdge(last, levels[0])] + rest
  }

  /** What successive calls of `switch_pulled` return; every call, the first included, stores its reading. */
  function SwitchEdges(last: int, levels: seq<int>): (r: seq<bool>)
    ensures |r| == |levels|
    ensures last == NoBaseline && |levels| > 0 ==> !r[0]
    decreases levels
  {
    if levels == [] then []
    else [SwitchEdge(last, levels[0])] + SwitchEdges(levels[0], levels[1..])
  }

  /** Number of calls that reported an edge. */
  function CountEdges(r: seq<bool>): (n: nat)
    ensures n <= |r|
  {
    if r == [] then 0 else (if r[0] then 1 else 0) + CountEdges(r[1..])
  }

  /** A button already held on the very first call reports an edge; the switch in the same position does not. */
  lemma FirstCallDiffers(level: int)
    requires Bit0(level)
    ensures ButtonEdges(PowerOn.lastBtn, [level]) == [true]
    ensures SwitchEdges(PowerOn.lastSw, [level]) == [false]
  {
  }

  /**
   * Successive switch calls report exactly what successive button calls would
   * from the same memory, the sentinel and readings of -1 included.
   */
  lemma {:induction false} SwitchEdgesMatchButton(last: int, levels: seq<int>)
    ensures SwitchEdges(last, levels) == ButtonEdges(last, levels)
    decreases levels
  {
    if levels != [] {
      SwitchEdgesMatchButton(levels[0], levels[1..]);
    }
  }

  /** The first switch call only records a baseline, whatever it reads. */
  lemma SwitchBaselineCall(first: int, levels: seq<int>)
    ensures SwitchEdges(NoBaseline, [first] + levels) == [false] + SwitchEdges(first, levels)
  {
    assert ([first] + levels)[1..] == levels;
  }

  /** After the baseline read, the readings low, high, low, high give exactly two edges. */
  lemma LowHighLowHigh(first: int, lo1: int, hi1: int, lo2: int, hi2: int)
    requires !Bit0(lo1) && Bit0(hi1) && !Bit0(lo2) && Bit0(hi2)
    ensures SwitchEdges(NoBaseline, [first, lo1, hi1, lo2, hi2]) == [false, false, true, false, true]
    ensures CountEdges(SwitchEdges(NoBaseline, [first, lo1, hi1, lo2, hi2])) == 2
  {
    assert SwitchEdges(lo2, [hi2]) == [true] by {
      assert [hi2][1..] == [];
    }
    assert SwitchEdges(hi1, [lo2, hi2]) == [false, true] by {
      assert [lo2, hi2][1..] == [hi2];
    }
    assert SwitchEdges(lo1, [hi1, lo2, hi2]) == [true, false, true] by {
      assert [hi1, lo2, hi2][1..] == [lo2, hi2];
    }
    assert SwitchEdges(first, [lo1, hi1, lo2, hi2]) == [false, true, false, true] by {
      assert [lo1, hi1, lo2, hi2][1..] == [hi1, lo2, hi2];
    }
    var r := SwitchEdges(NoBaseline, [first, lo1, hi1, lo2, hi2]);
    assert r == [false, false, true, false, true] by {
      assert [first, lo1, hi1, lo2, hi2][1..] == [lo1, hi1, lo2, hi2];
    }
    assert r[1..] == [false, true, false, true];
    assert r[1..][1..] == [true, false, true];
    assert r[1..][1..][1..] == [false, true];
    assert r[1..][1..][1..][1..] == [true];
    assert r[1..][1..][1..][1..][1..] == [];
    assert CountEdges(r[1..][1..][1..][1..]) == 1;
    assert CountEdges(r[1..][1..][1..]) == 1;
    assert CountEdges(r[1..][1..]) == 2;
  }

  /** A level held steady never produces an edge, on either detector. */
  lemma {:induction false} SteadyLevelNoEdge(last: int, levels: seq<int>)
    requires forall i :: 0 <= i < |levels| ==> levels[i] == last
    ensures CountEdges(ButtonEdges(last, levels)) == 0
    ensures CountEdges(SwitchEdges(last, levels)) == 0
    decreases levels
  {
    if levels != [] {
      SteadyLevelNoEdge(last, levels[1..]);
    }
  }
}
