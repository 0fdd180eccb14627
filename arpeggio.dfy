/**
 * generateArpeggiationSequence: the seven traversal patterns that turn a
 * chord's note set into the order a ribbon plays it in. Each local loop of
 * the source is a recursive function over the same indices.
 */
module Arpeggio {
  import opened JuceArray

  /** RibbonPattern; `Unnamed` is a value outside the enumeration, which the switch does not handle. */
  datatype Pattern = Up | Down | Outside | Inside | Random | Cascade | Spiral | Unnamed(code: int)

  /** static_cast<RibbonPattern>(k). */
  function PatternOf(k: int): (p: Pattern)
    ensures 0 <= k < 7 <==> !p.Unnamed?
  {
    if k == 0 then Up
    else if k == 1 then Down
    else if k == 2 then Outside
    else if k == 3 then Inside
    else if k == 4 then Random
    else if k == 5 then Cascade
    else if k == 6 then Spiral
    else Unnamed(k)
  }

  // ----------------------------------------------------------------------
  // The loops of the individual patterns
  // ----------------------------------------------------------------------

  /** Down: `for i = i-1 downto 0: add(s[i])`. */
  function DownLoop(s: seq<int>, i: nat): (r: seq<int>)
    requires i <= |s|
    ensures |r| == i
    ensures forall k :: 0 <= k < i ==> r[k] == s[i - 1 - k]
    ensures multiset(r) == multiset(s[..i])
    decreases i
  {
    if i == 0 then []
    else
      assert s[..i] == s[..i - 1] + [s[i - 1]];
      [s[i - 1]] + DownLoop(s, i - 1)
  }

  /** Outside, odd size: `for i = i..mid: add(s[mid+i]) if in range; add(s[mid-i]) if in range`. */
  function OutsideOddLoop(s: seq<int>, mid: int, i: int): seq<int>
    requires 0 <= mid < |s| && 1 <= i <= mid + 1
    decreases mid + 1 - i
  {
    if i > mid then []
    else
      (if mid + i < |s| then [s[mid + i]] else []) + (if mid - i >= 0 then [s[mid - i]] else []) + OutsideOddLoop(s, mid, i + 1)
  }

  /** Outside, even size: `for i = i..mid-1: add(s[mid+i]); add(s[mid-1-i])`. */
  function OutsideEvenLoop(s: seq<int>, mid: int, i: int): seq<int>
    requires |s| == 2 * mid && 0 <= i <= mid
    decreases mid - i
  {
    if i == mid then []
    else [s[mid + i], s[mid - 1 - i]] + OutsideEvenLoop(s, mid, i + 1)
  }

  /** Inside: `while left <= right: add(s[left++]) or add(s[right--]), alternating`. */
  function InsideLoop(s: seq<int>, left: int, right: int, fromLeft: bool): seq<int>
    requires 0 <= left <= right + 1 <= |s|
    decreases right - left + 1
  {
    if left > right then []
    else if fromLeft then [s[left]] + InsideLoop(s, left + 1, right, false)
    else [s[right]] + InsideLoop(s, left, right - 1, true)
  }

  /** Spiral: `while temp not empty: add(temp.removeAndReturn(first or last))`, alternating. */
  function SpiralLoop(temp: seq<int>, fromLow: bool): seq<int>
    decreases |temp|
  {
    if temp == [] then []
    else if fromLow then [temp[0]] + SpiralLoop(temp[1..], false)
    else [temp[|temp| - 1]] + SpiralLoop(temp[..|temp| - 1], true)
  }

  /** One Cascade wave: `for i = i..size-1: if (i + wave) % 2 == 0 then add(s[i])`. */
  function CascadeWave(s: seq<int>, i: int, wave: int): seq<int>
    requires 0 <= i <= |s| && 0 <= wave
    decreases |s| - i
  {
    if i == |s| then []
    else (if (i + wave) % 2 == 0 then [s[i]] else []) + CascadeWave(s, i + 1, wave)
  }

  /** Exchange two entries. */
  function Swap(a: seq<int>, i: int, j: int): (r: seq<int>)
    requires 0 <= i < |a| && 0 <= j < |a|
    ensures |r| == |a|
    ensures multiset(r) == multiset(a)
  {
    a[i := a[j]][j := a[i]]
  }

  /** The k-th random draw, 0 when the supply is exhausted. */
  function Draw(draws: seq<int>, k: int): int {
    if 0 <= k < |draws| then draws[k] else 0
  }

  /**
   * std::shuffle as a Fisher–Yates pass, `for i = i downto 1: swap(a[i], a[j])`
   * with j in [0, i] taken from the draws; the draws stand for the random
   * generator.
   */
  function ShuffleDown(a: seq<int>, i: int, draws: seq<int>): (r: seq<int>)
    requires 0 <= i < |a|
    ensures |r| == |a|
    ensures multiset(r) == multiset(a)
    decreases i
  {
    if i == 0 then a
    else ShuffleDown(Swap(a, i, Draw(draws, |a| - 1 - i) % (i + 1)), i - 1, draws)
  }

  /** The Random pattern's shuffle of the whole list. */
  function Shuffle(a: seq<int>, draws: seq<int>): seq<int> {
    if a == [] then [] else ShuffleDown(a, |a| - 1, draws)
  }

  /** The Outside pattern on a sorted list. */
  function OutsideOrder(s: seq<int>): seq<int> {
    var mid := |s| / 2;
    if |s| % 2 == 1 then [s[mid]] + OutsideOddLoop(s, mid, 1)
    else OutsideEvenLoop(s, mid, 0)
  }

  /** generateArpeggiationSequence(chordNotes, pattern, ribbonIndex); `draws` drives the Random shuffle. */
  function Generate(notes: seq<int>, pattern: Pattern, ribbonIndex: int, draws: seq<int>): (r: seq<int>)
    ensures notes == [] || pattern.Unnamed? ==> r == []
  {
    if notes == [] then []
    else
      var sorted := Sort(notes);
      match pattern
      case Up => sorted
      case Down => DownLoop(sorted, |sorted|)
      case Outside => OutsideOrder(sorted)
      case Inside => InsideLoop(sorted, 0, |sorted| - 1, true)
      case Random => Shuffle(notes, draws)
      case Cascade => CascadeWave(sorted, 0, 0) + CascadeWave(sorted, 0, 1)
      // `ribbonIndex % 2 == 0` holds for the same indices under C++ and Euclidean remainder.
      case Spiral => SpiralLoop(sorted, ribbonIndex % 2 == 0)
      case Unnamed(_) => []
  }

  // ----------------------------------------------------------------------
  // Each pattern is a permutation
  // ----------------------------------------------------------------------

  /** The odd Outside loop is the even loop run on the notes with the middle one taken out. */
  lemma {:induction false} OutsideOddIsEven(s: seq<int>, mid: int, i: int)
    requires |s| == 2 * mid + 1 && 1 <= i <= mid + 1
    ensures OutsideOddLoop(s, mid, i) == OutsideEvenLoop(s[..mid] + s[mid + 1..], mid, i - 1)
    decreases mid + 1 - i
  {
    var t := s[..mid] + s[mid + 1..];
    if i <= mid {
      OutsideOddIsEven(s, mid, i + 1);
      assert t[mid + i - 1] == s[mid + i];
      assert t[mid - 1 - (i - 1)] == s[mid - i];
    }
  }

  /** Two notes taken off the ends of two runs join the multiset of what remains. */
  lemma PairJoin(a: int, b: int, rest: seq<int>, hiRest: seq<int>, loRest: seq<int>)
    requires multiset(rest) == multiset(hiRest) + multiset(loRest)
    ensures multiset([a, b] + rest) == multiset([a] + hiRest) + multiset(loRest + [b])
  {
    assert multiset([a, b] + rest) == multiset{a} + multiset{b} + multiset(rest);
    assert multiset([a] + hiRest) == multiset{a} + multiset(hiRest);
    assert multiset(loRest + [b]) == multiset(loRest) + multiset{b};
  }

  /** Step i of the even Outside loop splits off the first note above mid+i and the last below mid-i. */
  lemma SplitEnds(s: seq<int>, mid: int, i: int)
    requires |s| == 2 * mid && 0 <= i < mid
    ensures s[mid + i..] == [s[mid + i]] + s[mid + (i + 1)..]
    ensures s[..mid - i] == s[..mid - (i + 1)] + [s[mid - 1 - i]]
  {
  }

  /** The even Outside loop takes the notes from mid+i up and those below mid-i. */
  lemma {:induction false} OutsideEvenLoopPerm(s: seq<int>, mid: int, i: int)
    requires |s| == 2 * mid && 0 <= i <= mid
    ensures multiset(OutsideEvenLoop(s, mid, i)) == multiset(s[mid + i..]) + multiset(s[..mid - i])
    decreases mid - i
  {
    if i < mid {
      OutsideEvenLoopPerm(s, mid, i + 1);
      var rest := OutsideEvenLoop(s, mid, i + 1);
      var a, b := s[mid + i], s[mid - 1 - i];
      assert OutsideEvenLoop(s, mid, i) == [a, b] + rest;
      var hiRest, loRest := s[mid + (i + 1)..], s[..mid - (i + 1)];
      PairJoin(a, b, rest, hiRest, loRest);
      SplitEnds(s, mid, i);
      assert [a] + hiRest == s[mid + i..] && loRest + [b] == s[..mid - i];
    } else {
      assert s[mid + i..] == [] && s[..mid - i] == [];
    }
  }

  /** On an even number of notes the loop visits every note once. */
  lemma OutsideEvenPerm(s: seq<int>, mid: int)
    requires |s| == 2 * mid
    ensures multiset(OutsideEvenLoop(s, mid, 0)) == multiset(s)
  {
    OutsideEvenLoopPerm(s, mid, 0);
    assert s == s[..mid] + s[mid..];
  }

  /** The odd loop from 1 visits the notes either side of the middle one. */
  lemma OutsideOddLoopHalves(s: seq<int>, mid: int)
    requires |s| == 2 * mid + 1
    ensures multiset(OutsideOddLoop(s, mid, 1)) == multiset(s[..mid]) + multiset(s[mid + 1..])
  {
    var t := s[..mid] + s[mid + 1..];
    OutsideOddIsEven(s, mid, 1);
    OutsideEvenPerm(t, mid);
  }

  /** Slicing helper: a list is its part before index m, the note at m, and its part after. */
  lemma SplitAround(s: seq<int>, m: int)
    requires 0 <= m < |s|
    ensures multiset(s) == multiset(s[..m]) + multiset{s[m]} + multiset(s[m + 1..])
  {
    assert s == s[..m] + [s[m]] + s[m + 1..];
  }

  /** On an odd number of notes, the middle one followed by the odd loop visits every note once. */
  lemma OutsideOddPerm(s: seq<int>, mid: int)
    requires |s| == 2 * mid + 1
    ensures multiset([s[mid]] + OutsideOddLoop(s, mid, 1)) == multiset(s)
  {
    OutsideOddLoopHalves(s, mid);
    SplitAround(s, mid);
  }

  /** Outside visits every note once. */
  lemma OutsidePerm(s: seq<int>)
    ensures multiset(OutsideOrder(s)) == multiset(s)
  {
    var mid := |s| / 2;
    if |s| % 2 == 1 {
      assert |s| == 2 * mid + 1;
      OutsideOddPerm(s, mid);
    } else {
      assert |s| == 2 * mid;
      OutsideEvenPerm(s, mid);
    }
  }

  /** Spiral visits every note once. */
  lemma {:induction false} SpiralPerm(t: seq<int>, fromLow: bool)
    ensures multiset(SpiralLoop(t, fromLow)) == multiset(t)
    decreases |t|
  {
    if t != [] {
      if fromLow {
        SpiralPerm(t[1..], false);
        assert t == [t[0]] + t[1..];
        assert SpiralLoop(t, fromLow) == [t[0]] + SpiralLoop(t[1..], false);
      } else {
        SpiralPerm(t[..|t| - 1], true);
        assert t == t[..|t| - 1] + [t[|t| - 1]];
        assert SpiralLoop(t, fromLow) == [t[|t| - 1]] + SpiralLoop(t[..|t| - 1], true);
      }
    }
  }

  /** The index loop of Inside does what the removal loop of Spiral does on the slice [left, right]. */
  lemma {:induction false} InsideIsSpiralLoop(s: seq<int>, left: int, right: int, fromLeft: bool)
    requires 0 <= left <= right + 1 <= |s|
    ensures InsideLoop(s, left, right, fromLeft) == SpiralLoop(s[left..right + 1], fromLeft)
    decreases right - left + 1
  {
    var t := s[left..right + 1];
    if left <= right {
      if fromLeft {
        InsideIsSpiralLoop(s, left + 1, right, false);
        assert t[1..] == s[left + 1..right + 1];
      } else {
        InsideIsSpiralLoop(s, left, right - 1, true);
        assert t[..|t| - 1] == s[left..right];
      }
    }
  }

  /** The two Cascade waves together take every note from i on once. */
  lemma {:induction false} CascadeWavesPerm(s: seq<int>, i: int)
    requires 0 <= i <= |s|
    ensures multiset(CascadeWave(s, i, 0)) + multiset(CascadeWave(s, i, 1)) == multiset(s[i..])
    decreases |s| - i
  {
    if i < |s| {
      CascadeWavesPerm(s, i + 1);
      CascadeStep(s, i);
      SuffixCons(s, i);
    } else {
      assert s[i..] == [];
    }
  }

  /** Slicing helper: a suffix is its first note followed by the rest. */
  lemma SuffixCons(s: seq<int>, i: int)
    requires 0 <= i < |s|
    ensures multiset(s[i..]) == multiset{s[i]} + multiset(s[i + 1..])
  {
    assert s[i..] == [s[i]] + s[i + 1..];
  }

  /** Exactly one of the two waves takes s[i]. */
  lemma CascadeStep(s: seq<int>, i: int)
    requires 0 <= i < |s|
    ensures multiset(CascadeWave(s, i, 0)) + multiset(CascadeWave(s, i, 1)) ==
      multiset{s[i]} + multiset(CascadeWave(s, i + 1, 0)) + multiset(CascadeWave(s, i + 1, 1))
  {
    var even, odd := CascadeWave(s, i + 1, 0), CascadeWave(s, i + 1, 1);
    if i % 2 == 0 {
      assert CascadeWave(s, i, 0) == [s[i]] + even && CascadeWave(s, i, 1) == odd;
      assert multiset([s[i]] + even) == multiset{s[i]} + multiset(even);
    } else {
      assert CascadeWave(s, i, 0) == even && CascadeWave(s, i, 1) == [s[i]] + odd;
      assert multiset([s[i]] + odd) == multiset{s[i]} + multiset(odd);
    }
  }

  /** Every named pattern yields a permutation of the chord notes; an unnamed one yields nothing. */
  lemma GeneratePermutation(notes: seq<int>, pattern: Pattern, ribbonIndex: int, draws: seq<int>)
    ensures !pattern.Unnamed? ==> multiset(Generate(notes, pattern, ribbonIndex, draws)) == multiset(notes)
    ensures !pattern.Unnamed? ==> |Generate(notes, pattern, ribbonIndex, draws)| == |notes|
    ensures pattern.Unnamed? || notes == [] ==> Generate(notes, pattern, ribbonIndex, draws) == []
  {
    if notes != [] {
      var sorted := Sort(notes);
      var r := Generate(notes, pattern, ribbonIndex, draws);
      match pattern {
        case Up =>
        case Down =>
          assert r == DownLoop(sorted, |sorted|);
          assert sorted[..|sorted|] == sorted;
        case Outside =>
          assert r == OutsideOrder(sorted);
          OutsidePerm(sorted);
        case Inside =>
          assert r == InsideLoop(sorted, 0, |sorted| - 1, true);
          InsideIsSpiralLoop(sorted, 0, |sorted| - 1, true);
          assert sorted[0..|sorted|] == sorted;
          SpiralPerm(sorted, true);
        case Random =>
        case Cascade =>
          assert r == CascadeWave(sorted, 0, 0) + CascadeWave(sorted, 0, 1);
          CascadeWavesPerm(sorted, 0);
          assert sorted[0..] == sorted;
        case Spiral =>
          assert r == SpiralLoop(sorted, ribbonIndex % 2 == 0);
          SpiralPerm(sorted, ribbonIndex % 2 == 0);
        case Unnamed(_) =>
      }
      if !pattern.Unnamed? {
        assert |r| == |multiset(r)| == |multiset(notes)| == |notes|;
      }
    }
  }

  // ----------------------------------------------------------------------
  // The orders the named patterns produce
  // ----------------------------------------------------------------------

  /** Up is the ascending sort; Down is its reverse. */
  lemma UpDownOrder(notes: seq<int>, ribbonIndex: int, draws: seq<int>)
    ensures Generate(notes, Up, ribbonIndex, draws) == Sort(notes)
    ensures var up := Generate(notes, Up, ribbonIndex, draws);
      var down := Generate(notes, Down, ribbonIndex, draws);
      |down| == |up| && forall k :: 0 <= k < |up| ==> down[k] == up[|up| - 1 - k]
  {
  }

  /** The sort of the example chord {64, 60, 67}. */
  lemma SortExampleChord()
    ensures Sort([64, 60, 67]) == [60, 64, 67]
  {
    SortIsTheSortedPermutation([64, 60, 67], [60, 64, 67]);
  }

  /** {60, 64, 67} goes up as [60, 64, 67] and down as [67, 64, 60]. */
  lemma UpDownExample(ribbonIndex: int, draws: seq<int>)
    ensures Generate([64, 60, 67], Up, ribbonIndex, draws) == [60, 64, 67]
    ensures Generate([64, 60, 67], Down, ribbonIndex, draws) == [67, 64, 60]
  {
    SortExampleChord();
    UpDownOrder([64, 60, 67], ribbonIndex, draws);
  }

  /** A wave that starts on a matching index takes every second note from there. */
  lemma {:induction false} CascadeWaveEveryOther(s: seq<int>, i: int, wave: int)
    requires 0 <= i <= |s| && 0 <= wave && (i + wave) % 2 == 0
    ensures |CascadeWave(s, i, wave)| == (|s| - i + 1) / 2
    ensures forall k :: 0 <= k < |CascadeWave(s, i, wave)| ==> CascadeWave(s, i, wave)[k] == s[i + 2 * k]
    decreases |s| - i
  {
    if i < |s| {
      if i + 1 == |s| {
        assert CascadeWave(s, i + 1, wave) == [];
      } else {
        assert CascadeWave(s, i + 1, wave) == CascadeWave(s, i + 2, wave);
        CascadeWaveEveryOther(s, i + 2, wave);
      }
    }
  }

  /** The second wave takes the notes at odd positions. */
  lemma CascadeOddWave(s: seq<int>)
    ensures |CascadeWave(s, 0, 1)| == |s| / 2
    ensures forall k :: 0 <= k < |s| / 2 ==> CascadeWave(s, 0, 1)[k] == s[2 * k + 1]
  {
    if |s| == 1 {
      assert CascadeWave(s, 1, 1) == [];
    } else if |s| > 1 {
      assert CascadeWave(s, 0, 1) == CascadeWave(s, 1, 1);
      CascadeWaveEveryOther(s, 1, 1);
    }
  }

  /** Both waves of a list: its notes at even positions, then those at odd positions. */
  lemma CascadeWaves(s: seq<int>)
    ensures var c := CascadeWave(s, 0, 0) + CascadeWave(s, 0, 1);
      var evens := (|s| + 1) / 2;
      |c| == |s| &&
      (forall k :: 0 <= k < evens ==> c[k] == s[2 * k]) &&
      (forall k :: evens <= k < |s| ==> c[k] == s[2 * (k - evens) + 1])
  {
    var a, b := CascadeWave(s, 0, 0), CascadeWave(s, 0, 1);
    CascadeWaveEveryOther(s, 0, 0);
    CascadeOddWave(s);
    var evens := (|s| + 1) / 2;
    assert |a| == evens;
    forall k | evens <= k < |s| ensures (a + b)[k] == s[2 * (k - evens) + 1] {
      assert (a + b)[k] == b[k - evens];
    }
  }

  /** Cascade is the notes at even sorted positions followed by those at odd positions. */
  lemma CascadeEvensThenOdds(notes: seq<int>, ribbonIndex: int, draws: seq<int>)
    requires notes != []
    ensures var s := Sort(notes);
      var c := Generate(notes, Cascade, ribbonIndex, draws);
      var evens := (|s| + 1) / 2;
      |c| == |s| &&
      (forall k :: 0 <= k < evens ==> c[k] == s[2 * k]) &&
      (forall k :: evens <= k < |s| ==> c[k] == s[2 * (k - evens) + 1])
  {
    CascadeWaves(Sort(notes));
  }

  /** Spiral on an even-numbered ribbon plays the Inside order. */
  lemma SpiralEvenIsInside(notes: seq<int>, ribbonIndex: int, draws: seq<int>)
    requires ribbonIndex % 2 == 0
    ensures Generate(notes, Spiral, ribbonIndex, draws) == Generate(notes, Inside, ribbonIndex, draws)
  {
    if notes != [] {
      var s := Sort(notes);
      InsideIsSpiralLoop(s, 0, |s| - 1, true);
      assert s[0..|s|] == s;
    }
  }

  /** Spiral on an odd-numbered ribbon starts from the highest note, then the lowest. */
  lemma SpiralOddStartsHigh(notes: seq<int>, ribbonIndex: int, draws: seq<int>)
    requires |notes| >= 2 && ribbonIndex % 2 == 1
    ensures var s := Sort(notes);
      var r := Generate(notes, Spiral, ribbonIndex, draws);
      |r| == |s| && r[0] == s[|s| - 1] && r[1] == s[0]
  {
    var s := Sort(notes);
    GeneratePermutation(notes, Spiral, ribbonIndex, draws);
    var t := s[..|s| - 1];
    assert SpiralLoop(s, false) == [s[|s| - 1]] + SpiralLoop(t, true);
    assert SpiralLoop(t, true) == [t[0]] + SpiralLoop(t[1..], false);
  }

  /** Inside alternates from the edges: lowest, highest, second lowest, ... */
  lemma InsideStartsAtEdges(notes: seq<int>, ribbonIndex: int, draws: seq<int>)
    requires |notes| >= 2
    ensures var s := Sort(notes);
      var r := Generate(notes, Inside, ribbonIndex, draws);
      |r| == |s| && r[0] == s[0] && r[1] == s[|s| - 1]
  {
    var s := Sort(notes);
    GeneratePermutation(notes, Inside, ribbonIndex, draws);
    assert InsideLoop(s, 0, |s| - 1, true) == [s[0]] + InsideLoop(s, 1, |s| - 1, false);
    assert InsideLoop(s, 1, |s| - 1, false) == [s[|s| - 1]] + InsideLoop(s, 1, |s| - 2, true);
  }

  /** Outside starts from the middle note. */
  lemma OutsideStartsInMiddle(notes: seq<int>, ribbonIndex: int, draws: seq<int>)
    requires |notes| >= 2
    ensures var s := Sort(notes);
      Generate(notes, Outside, ribbonIndex, draws)[0] == s[|s| / 2]
  {
  }
}
