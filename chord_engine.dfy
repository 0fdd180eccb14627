/**
 * The harmony engine (ChordEngine): it keeps the list of held pitches,
 * names the chord they form, computes a voicing of extra pitches for it
 * and emits the difference between the previous voicing and the new one.
 */
module ChordEngine {
  import opened JuceMath
  import opened JuceArray
  import opened Midi

  /** ChordEngine::Chord: a name, a root (60 unless set) and the sorted chord tones. */
  datatype Chord = Chord(name: string, rootNote: int, notes: seq<int>)

  /** A default-constructed Chord. */
  const EmptyChord: Chord := Chord("", 60, [])

  /** Chord::isEmpty(). */
  predicate IsEmpty(c: Chord) {
    c.notes == []
  }

  /** The pitch-class names, indexed by `note % 12`. */
  const NoteNames: seq<string> := ["C", "C#", "D", "D#", "E", "F", "F#", "G", "G#", "A", "A#", "B"]

  /**
   * The name of a pitch's pitch class. The roots named are MIDI pitches, so
   * non-negative, where Dafny's `%` agrees with C++'s (see JuceMath.CRem);
   * a negative root would index outside the C++ array.
   */
  function PitchClassName(p: int): string {
    NoteNames[p % 12]
  }

  // ----------------------------------------------------------------------
  // detectChord and matchChordType
  // ----------------------------------------------------------------------

  /** Each note's interval above root, by C++'s truncating `%` (negative below the root). */
  function IntervalList(s: seq<int>, root: int): (r: seq<int>)
    ensures |r| == |s|
  {
    seq(|s|, k requires 0 <= k < |s| => CRem(s[k] - root, 12))
  }

  /** Some note of s lies x semitones above root. */
  predicate HasInterval(s: seq<int>, root: int, x: int) {
    x in IntervalList(s, root)
  }

  /** The loop that collects the distinct non-zero intervals above the root, in order of first occurrence. */
  function Intervals(s: seq<int>, root: int): (r: seq<int>)
    ensures Distinct(r)
    ensures forall x :: x in r <==> 0 < x && HasInterval(s, root, x)
    decreases |s|
  {
    if s == [] then []
    else
      var r := Intervals(s[..|s| - 1], root);
      var iv := CRem(s[|s| - 1] - root, 12);
      IntervalListSnoc(s, root);
      if iv !in r && iv > 0 then r + [iv] else r
  }

  /** The intervals of s are those of s without its last note, then the last note's own. */
  lemma IntervalListSnoc(s: seq<int>, root: int)
    requires s != []
    ensures IntervalList(s, root) == IntervalList(s[..|s| - 1], root) + [CRem(s[|s| - 1] - root, 12)]
  {
    var pre := s[..|s| - 1];
    assert forall k :: 0 <= k < |pre| ==> IntervalList(s, root)[k] == IntervalList(pre, root)[k];
  }

  /** The outcome of matchChordType: whether a type was recognised, and its suffix. */
  datatype TypeMatch = TypeMatch(matched: bool, suffix: string)

  /** The suffixes matchChordType can produce. */
  const ChordTypeSuffixes: set<string> := {"maj7", "7", "maj", "m7", "m", "dim7", "dim", "aug", "sus4"}

  /** matchChordType: the first row of the interval table whose two intervals are present decides. */
  function MatchChordType(iv: seq<int>): (r: TypeMatch)
    ensures r.matched <==> r.suffix != ""
    ensures r.matched ==> r.suffix in ChordTypeSuffixes
    ensures r.matched <==> (4 in iv && 7 in iv) || (3 in iv && 7 in iv) || (3 in iv && 6 in iv) || (4 in iv && 8 in iv) || (5 in iv && 7 in iv)
  {
    if 4 in iv && 7 in iv then
      TypeMatch(true, if 11 in iv then "maj7" else if 10 in iv then "7" else "maj")
    else if 3 in iv && 7 in iv then
      TypeMatch(true, if 10 in iv then "m7" else "m")
    else if 3 in iv && 6 in iv then
      TypeMatch(true, if 9 in iv then "dim7" else "dim")
    else if 4 in iv && 8 in iv then
      TypeMatch(true, "aug")
    else if 5 in iv && 7 in iv then
      TypeMatch(true, "sus4")
    else
      TypeMatch(false, "")
  }

  /** The name detectChord gives a chord of two or more notes. */
  function MultiNoteName(root: int, iv: seq<int>): string {
    var t := MatchChordType(iv);
    if t.matched then PitchClassName(root) + t.suffix else "Unknown"
  }

  /** detectChord. */
  function DetectChord(notes: seq<int>): (c: Chord)
    ensures notes == [] ==> c == EmptyChord
    ensures notes != [] ==> c.rootNote == Min(notes)
    ensures Sorted(c.notes) && multiset(c.notes) == multiset(notes)
    ensures |notes| == 1 ==> c.name == PitchClassName(notes[0])
    ensures |notes| >= 2 ==> c.name == MultiNoteName(Min(notes), Intervals(c.notes, Min(notes)))
  {
    if |notes| < 1 then EmptyChord
    else
      var sorted := Sort(notes);
      var root := sorted[0];
      SortHeadIsMin(notes);
      if |sorted| == 1 then
        assert sorted == notes by { SortIsTheSortedPermutation(notes, notes); }
        Chord(PitchClassName(root), root, sorted)
      else
        Chord(MultiNoteName(root, Intervals(sorted, root)), root, sorted)
  }

  /** The interval table, first match winning: a note set that has both a major and a minor third is major. */
  lemma MatchChordTypeTable(iv: seq<int>)
    ensures 4 in iv && 7 in iv && 11 in iv ==> MatchChordType(iv).suffix == "maj7"
    ensures 4 in iv && 7 in iv && 11 !in iv && 10 in iv ==> MatchChordType(iv).suffix == "7"
    ensures 4 in iv && 7 in iv && 11 !in iv && 10 !in iv ==> MatchChordType(iv).suffix == "maj"
    ensures !(4 in iv && 7 in iv) && 3 in iv && 7 in iv ==> MatchChordType(iv).suffix == (if 10 in iv then "m7" else "m")
    ensures !(4 in iv && 7 in iv) && !(3 in iv && 7 in iv) && 3 in iv && 6 in iv ==> MatchChordType(iv).suffix == (if 9 in iv then "dim7" else "dim")
    ensures !(4 in iv && 7 in iv) && !(3 in iv && 7 in iv) && !(3 in iv && 6 in iv) && 4 in iv && 8 in iv ==> MatchChordType(iv).suffix == "aug"
    ensures !(4 in iv && 7 in iv) && !(3 in iv && 7 in iv) && !(3 in iv && 6 in iv) && !(4 in iv && 8 in iv) && 5 in iv && 7 in iv ==> MatchChordType(iv).suffix == "sus4"
  {
  }

  /** Only the set of intervals matters, not their order. */
  lemma MatchChordTypeSetOnly(a: seq<int>, b: seq<int>)
    requires forall x :: x in a <==> x in b
    ensures MatchChordType(a) == MatchChordType(b)
  {
    assert (4 in a) == (4 in b) && (7 in a) == (7 in b) && (11 in a) == (11 in b) && (10 in a) == (10 in b);
    assert (3 in a) == (3 in b) && (6 in a) == (6 in b) && (9 in a) == (9 in b) && (8 in a) == (8 in b) && (5 in a) == (5 in b);
  }

  /**
   * The detected chord depends only on the multiset of held pitches, not on
   * the order in which they were pressed.
   */
  lemma {:induction false} DetectChordOrderIndependent(a: seq<int>, b: seq<int>)
    requires multiset(a) == multiset(b)
    ensures DetectChord(a) == DetectChord(b)
  {
    SortIsTheSortedPermutation(b, Sort(a));
  }

  /** The intervals of C-E-G above C. */
  lemma IntervalsOfMajorTriad()
    ensures Intervals([60, 64, 67], 60) == [4, 7]
  {
    var s := [60, 64, 67];
    assert s[..2] == [60, 64];
    assert [60, 64][..1] == [60];
    assert [60][..0] == [];
    assert Intervals([60], 60) == [];
    assert Intervals([60, 64], 60) == [4];
  }

  /** A note below the root has a negative truncated remainder, so it adds no interval: B3 under a C4 root adds none. */
  lemma IntervalsBelowRoot()
    ensures Intervals([59], 60) == []
    ensures Intervals([59, 64], 60) == [4]
  {
    assert [59][..0] == [];
    assert CRem(59 - 60, 12) == -1;
    assert [59, 64][..1] == [59];
  }

  /** The intervals of C-Eb-G above C. */
  lemma IntervalsOfMinorTriad()
    ensures Intervals([60, 63, 67], 60) == [3, 7]
  {
    var s := [60, 63, 67];
    assert s[..2] == [60, 63];
    assert [60, 63][..1] == [60];
    assert [60][..0] == [];
    assert Intervals([60], 60) == [];
    assert Intervals([60, 63], 60) == [3];
  }

  /** The sort of a C major triad given out of order. */
  lemma SortMajorTriad()
    ensures Sort([64, 60, 67]) == [60, 64, 67]
  {
    SortIsTheSortedPermutation([64, 60, 67], [60, 64, 67]);
  }

  /** C-E-G is named "Cmaj". */
  lemma NameOfMajorTriad()
    ensures MultiNoteName(60, Intervals([60, 64, 67], 60)) == "Cmaj"
  {
    IntervalsOfMajorTriad();
    assert MatchChordType([4, 7]) == TypeMatch(true, "maj");
  }

  /** A C major triad in any order is named "Cmaj" with root 60 and sorted tones. */
  lemma DetectChordMajorTriad()
    ensures DetectChord([64, 60, 67]).rootNote == 60
    ensures DetectChord([64, 60, 67]).notes == [60, 64, 67]
    ensures DetectChord([64, 60, 67]).name == "Cmaj"
  {
    SortMajorTriad();
    NameOfMajorTriad();
  }

  /** The sort of a C minor triad given in descending order. */
  lemma SortMinorTriad()
    ensures Sort([67, 63, 60]) == [60, 63, 67]
  {
    SortIsTheSortedPermutation([67, 63, 60], [60, 63, 67]);
  }

  /** C-Eb-G is named "Cm". */
  lemma NameOfMinorTriad()
    ensures MultiNoteName(60, Intervals([60, 63, 67], 60)) == "Cm"
  {
    IntervalsOfMinorTriad();
    assert MatchChordType([3, 7]) == TypeMatch(true, "m");
  }

  /** A minor triad on C is named "Cm". */
  lemma DetectChordMinorTriad()
    ensures DetectChord([67, 63, 60]).name == "Cm"
  {
    SortMinorTriad();
    NameOfMinorTriad();
  }

  // ----------------------------------------------------------------------
  // generateVoicing
  // ----------------------------------------------------------------------

  /** The density buckets: below 0.33, below 0.66, and the rest. */
  const LightDensity: real := 0.33
  const MediumDensity: real := 0.66

  /** Voicing for a single held note (single-note branch of generateVoicing); no range filter is applied. */
  function SingleNoteVoicing(root: int, density: real): seq<int> {
    var pc := CRem(root, 12);
    if density < LightDensity then
      [root + 7] + (if root > 48 && root < 72 then [root - 12] else [])
    else if density < MediumDensity then
      if root < 48 then [root + 7, root + 12, root + 14]
      else [root + 2, root + 7, root + 12] + (if root < 72 then [root + 14, root + 19] else [])
    else if root < 48 then
      if pc == 0 || pc == 5 then [root + 7, root + 16, root + 23]
      else if pc == 2 || pc == 7 || pc == 9 then [root + 7, root + 15, root + 22]
      else [root + 7, root + 12, root + 19]
    else
      var stack :=
        if pc == 0 || pc == 5 then [root + 4, root + 7, root + 11, root + 14] + (if root < 72 then [root + 18] else [])
        else if pc == 2 || pc == 7 || pc == 9 then [root + 3, root + 7, root + 10, root + 14] + (if root < 72 then [root + 17] else [])
        else if pc == 4 || pc == 11 then [root + 4, root + 7, root + 10, root + 15]
        else [root + 5, root + 7, root + 14, root + 12];
      stack + (if root > 60 && root < 84 && |stack| < 6 then [root - 12] else [])
  }

  /** `if (x < 108) voicing.add(x)`. */
  function BelowTop(x: int): seq<int> {
    if x < 108 then [x] else []
  }

  /** juce::String::contains: t occurs in s as a contiguous substring. */
  predicate ContainsText(s: string, t: string)
    decreases |s|
  {
    |t| <= |s| && (s[..|t|] == t || (s != [] && ContainsText(s[1..], t)))
  }

  /** Some chord tone lies 10 or 11 semitones (by C++'s `%`) above the root. */
  predicate HasSeventh(c: Chord) {
    exists k :: 0 <= k < |c.notes| && (CRem(c.notes[k] - c.rootNote, 12) == 10 || CRem(c.notes[k] - c.rootNote, 12) == 11)
  }

  /** The medium-density upper-structure loop: add note+12 for notes above 48 while the voicing has fewer than 4 pitches. */
  function UpperStructure(v: seq<int>, notes: seq<int>): seq<int>
    decreases |notes|
  {
    if notes == [] then v
    else
      var n := notes[0];
      UpperStructure(if n > 48 && n + 12 < 96 && |v| < 4 then v + [n + 12] else v, notes[1..])
  }

  /** The multi-note voicing before its range filter. */
  function MultiNoteRawVoicing(c: Chord, density: real): seq<int> {
    var r := c.rootNote;
    if density < LightDensity then
      (if r + 24 < 108 && r > 36 then [r + 24] else []) + (if r > 48 && r < 72 then [r - 12] else [])
    else if density < MediumDensity then
      UpperStructure((if !HasSeventh(c) && r + 11 < 108 then [r + 11] else []) + BelowTop(r + 14), c.notes)
    else
      var ext :=
        if ContainsText(c.name, "maj") && r > 36 then BelowTop(r + 14) + BelowTop(r + 18) + BelowTop(r + 21)
        else if ContainsText(c.name, "m") && r > 36 then BelowTop(r + 14) + BelowTop(r + 17) + BelowTop(r + 20)
        else if ContainsText(c.name, "7") && r > 36 then BelowTop(r + 14) + BelowTop(r + 16) + BelowTop(r + 21)
        else [];
      ext + (if r > 48 && r < 72 then [r - 12] else [])
  }

  /** The safe range the multi-note voicing is filtered to. */
  predicate InSafeRange(x: int) {
    36 <= x <= 108
  }

  /** The backward loop `for i = size-1 downto 0: if out of range, remove(i)`, on the first i entries. */
  function RemoveOutOfRange(v: seq<int>, i: nat): seq<int>
    requires i <= |v|
    decreases i
  {
    if i == 0 then v
    else
      var v' := if !InSafeRange(v[i - 1]) then v[..i - 1] + v[i..] else v;
      RemoveOutOfRange(v', i - 1)
  }

  /** The in-range entries of v, in order. */
  function KeepSafe(v: seq<int>): seq<int>
    decreases |v|
  {
    if v == [] then []
    else KeepSafe(v[..|v| - 1]) + (if InSafeRange(v[|v| - 1]) then [v[|v| - 1]] else [])
  }

  /** KeepSafe keeps exactly the in-range entries and never lengthens the list. */
  lemma {:induction false} KeepSafeMembers(v: seq<int>)
    ensures forall x :: x in KeepSafe(v) <==> x in v && InSafeRange(x)
    ensures |KeepSafe(v)| <= |v|
    decreases |v|
  {
    if v != [] {
      var pre := v[..|v| - 1];
      KeepSafeMembers(pre);
      assert v == pre + [v[|v| - 1]];
    }
  }

  /** KeepSafe of a list with one more entry at the end. */
  lemma KeepSafeSnoc(pre: seq<int>, x: int)
    ensures KeepSafe(pre + [x]) == KeepSafe(pre) + (if InSafeRange(x) then [x] else [])
  {
    assert (pre + [x])[..|pre|] == pre;
  }

  /** One step of the removal loop at index i - 1, on the list split around that index. */
  lemma RemovalStep(v: seq<int>, i: nat, v': seq<int>, tail: seq<int>)
    requires 0 < i <= |v|
    requires v' == if !InSafeRange(v[i - 1]) then v[..i - 1] + v[i..] else v
    requires tail == if InSafeRange(v[i - 1]) then [v[i - 1]] else []
    ensures |v'| >= i - 1 && v'[..i - 1] == v[..i - 1] && v'[i - 1..] == tail + v[i..]
    ensures v[..i] == v[..i - 1] + [v[i - 1]]
  {
    if InSafeRange(v[i - 1]) {
      assert v[i - 1..] == [v[i - 1]] + v[i..];
    } else {
      assert v'[i - 1..] == v[i..];
    }
  }

  /** The backward removal loop is an order-preserving filter: it removes exactly the out-of-range entries. */
  lemma {:induction false} RemoveOutOfRangeIsFilter(v: seq<int>, i: nat)
    requires i <= |v|
    ensures RemoveOutOfRange(v, i) == KeepSafe(v[..i]) + v[i..]
    decreases i
  {
    if i == 0 {
      assert v[..0] == [];
    } else {
      var x := v[i - 1];
      var v' := if !InSafeRange(x) then v[..i - 1] + v[i..] else v;
      RemoveOutOfRangeIsFilter(v', i - 1);
      var tail := if InSafeRange(x) then [x] else [];
      RemovalStep(v, i, v', tail);
      KeepSafeSnoc(v[..i - 1], x);
      var kept := KeepSafe(v[..i - 1]);
      calc {
        RemoveOutOfRange(v, i);
        RemoveOutOfRange(v', i - 1);
        KeepSafe(v'[..i - 1]) + v'[i - 1..];
        kept + (tail + v[i..]);
        { assert kept + (tail + v[i..]) == (kept + tail) + v[i..]; }
        (kept + tail) + v[i..];
        KeepSafe(v[..i]) + v[i..];
      }
    }
  }

  /** generateVoicing. */
  function GenerateVoicing(c: Chord, density: real): seq<int> {
    if IsEmpty(c) then []
    else if |c.notes| == 1 then SingleNoteVoicing(c.notes[0], density)
    else
      var raw := MultiNoteRawVoicing(c, density);
      RemoveOutOfRange(raw, |raw|)
  }

  /** Every pitch of a multi-note voicing lies in the safe range [36, 108]. */
  lemma MultiNoteVoicingInRange(c: Chord, density: real)
    requires |c.notes| >= 2
    ensures forall x :: x in GenerateVoicing(c, density) ==> 36 <= x <= 108
  {
    var raw := MultiNoteRawVoicing(c, density);
    RemoveOutOfRangeIsFilter(raw, |raw|);
    assert raw[..|raw|] == raw && raw[|raw|..] == [];
    KeepSafeMembers(raw);
  }

  /** A multi-note voicing keeps exactly the in-range pitches of the raw voicing. */
  lemma MultiNoteVoicingIsFilteredRaw(c: Chord, density: real)
    requires |c.notes| >= 2
    ensures GenerateVoicing(c, density) == KeepSafe(MultiNoteRawVoicing(c, density))
  {
    var raw := MultiNoteRawVoicing(c, density);
    RemoveOutOfRangeIsFilter(raw, |raw|);
    assert raw[..|raw|] == raw && raw[|raw|..] == [];
  }

  /** Every offset the single-note branch adds is non-zero, so the held note is never part of its own voicing. */
  lemma SingleNoteVoicingAvoidsRoot(root: int, density: real)
    ensures root !in SingleNoteVoicing(root, density)
    ensures |SingleNoteVoicing(root, density)| >= 1
  {
  }

  /** The single-note branch is not range-filtered: a top note at low density gets its fifth above 127. */
  lemma SingleNoteVoicingUnfiltered()
    ensures SingleNoteVoicing(127, 0.0) == [134]
    ensures GenerateVoicing(Chord("G", 127, [127]), 0.0) == [134]
  {
  }

  /** The upper-structure loop never grows a voicing past 4 pitches. */
  lemma {:induction false} UpperStructureBound(v: seq<int>, notes: seq<int>)
    ensures |UpperStructure(v, notes)| <= if |v| > 4 then |v| else 4
    decreases |notes|
  {
    if notes != [] {
      var n := notes[0];
      var v' := if n > 48 && n + 12 < 96 && |v| < 4 then v + [n + 12] else v;
      UpperStructureBound(v', notes[1..]);
    }
  }

  /** The medium-density multi-note voicing has at most 4 pitches, even before filtering. */
  lemma MediumVoicingAtMostFour(c: Chord, density: real)
    requires |c.notes| >= 2
    requires LightDensity <= density < MediumDensity
    ensures |MultiNoteRawVoicing(c, density)| <= 4
    ensures |GenerateVoicing(c, density)| <= 4
  {
    var r := c.rootNote;
    UpperStructureBound((if !HasSeventh(c) && r + 11 < 108 then [r + 11] else []) + BelowTop(r + 14), c.notes);
    MultiNoteVoicingIsFilteredRaw(c, density);
    KeepSafeMembers(MultiNoteRawVoicing(c, density));
  }

  /** A text found in a string is found in it with anything put in front. */
  lemma {:induction false} ContainsTextAfter(s: string, u: string, t: string)
    requires ContainsText(u, t)
    ensures ContainsText(s + u, t)
    decreases |s|
  {
    if s != [] {
      ContainsTextAfter(s[1..], u, t);
      assert (s + u)[1..] == s[1..] + u;
      assert ContainsText((s + u)[1..], t) && |t| <= |u| <= |s + u|;
    } else {
      assert s + u == u;
    }
  }

  /** A text with a character the string lacks is not found in it. */
  lemma {:induction false} MissingCharNotContained(s: string, t: string, i: int)
    requires 0 <= i < |t| && t[i] !in s
    ensures !ContainsText(s, t)
    decreases |s|
  {
    if |t| <= |s| {
      assert s[..|t|][i] == s[i];
      if s != [] {
        assert forall k :: 0 <= k < |s[1..]| ==> s[1..][k] == s[k + 1];
        MissingCharNotContained(s[1..], t, i);
      }
    }
  }

  /** No pitch-class name has a 'j' in it. */
  lemma PitchClassNameHasNoJ(p: int)
    ensures 'j' !in PitchClassName(p)
  {
    var i := p % 12;
    assert NoteNames[i] == PitchClassName(p);
    assert i == 0 || i == 1 || i == 2 || i == 3 || i == 4 || i == 5 || i == 6 || i == 7 || i == 8 || i == 9 || i == 10 || i == 11;
  }

  /**
   * A diminished chord, on any root, is named root + "dim" or root + "dim7".
   * That name contains "m" but not "maj", so at high density the substring
   * tests pick the minor upper structure (9th, 11th, b13), or none at all
   * at or below root 36.
   */
  lemma DiminishedUsesMinorExtensions(c: Chord, suffix: string, density: real)
    requires suffix == "dim" || suffix == "dim7"
    requires c.name == PitchClassName(c.rootNote) + suffix
    requires density >= MediumDensity
    ensures !ContainsText(c.name, "maj") && ContainsText(c.name, "m")
    ensures var r := c.rootNote;
      MultiNoteRawVoicing(c, density) ==
        (if r > 36 then BelowTop(r + 14) + BelowTop(r + 17) + BelowTop(r + 20) else []) +
        (if r > 48 && r < 72 then [r - 12] else [])
  {
    var root := PitchClassName(c.rootNote);
    assert ContainsText(suffix[2..], "m") by {
      assert suffix[2..][..1] == "m";
    }
    assert suffix == suffix[..2] + suffix[2..];
    ContainsTextAfter(suffix[..2], suffix[2..], "m");
    ContainsTextAfter(root, suffix, "m");
    assert root + suffix == c.name;
    PitchClassNameHasNoJ(c.rootNote);
    assert 'j' !in suffix;
    assert 'j' !in c.name by {
      forall k | 0 <= k < |c.name| ensures c.name[k] != 'j' {
        if k < |root| { assert c.name[k] == root[k]; } else { assert c.name[k] == suffix[k - |root|]; }
      }
    }
    MissingCharNotContained(c.name, "maj", 2);
  }

  // ----------------------------------------------------------------------
  // processMidi
  // ----------------------------------------------------------------------

  /** The chord the engine holds after scanning a block. */
  function ChordFor(held: seq<int>): (c: Chord)
    ensures held == [] <==> IsEmpty(c)
  {
    if |held| >= 1 then DetectChord(held) else EmptyChord
  }

  /** The new voicing: generated unless the chord is empty. */
  function VoicingFor(c: Chord, density: real): seq<int> {
    if !IsEmpty(c) then GenerateVoicing(c, density) else []
  }

  /** Note-offs at sample 0 for the previous voicing's pitches the new voicing drops. */
  function OffEvents(prev: seq<int>, next: seq<int>): Buffer
    decreases |prev|
  {
    if prev == [] then []
    else
      var v := prev[|prev| - 1];
      OffEvents(prev[..|prev| - 1], next) + (if v !in next then [TimedMessage(NoteOffFor(v), 0)] else [])
  }

  /** The harmony note-on velocity: 0.8 scaled to a byte. */
  const HarmonyVelocity: real := 0.8

  /** Note-ons at sample 0 for the new voicing's pitches the previous voicing did not have. */
  function OnEvents(next: seq<int>, prev: seq<int>): Buffer
    decreases |next|
  {
    if next == [] then []
    else
      var n := next[|next| - 1];
      OnEvents(next[..|next| - 1], prev) + (if n !in prev then [TimedMessage(NoteOnFloat(n, HarmonyVelocity), 0)] else [])
  }

  /** The output buffer of one block. */
  function BlockOutput(prev: seq<int>, next: seq<int>, anyNoteOff: bool): Buffer {
    (if anyNoteOff then OffEvents(prev, next) else []) + OnEvents(next, prev)
  }

  /** The harmony velocity byte is 102 (0.8 * 127 = 101.6, rounded). */
  lemma HarmonyVelocityByte()
    ensures FloatToVelocityByte(HarmonyVelocity) == 102
  {
  }

  /** What one OffEvents entry is. */
  lemma {:induction false} OffEventsSpec(prev: seq<int>, next: seq<int>)
    ensures |OffEvents(prev, next)| <= |prev|
    ensures forall k :: 0 <= k < |OffEvents(prev, next)| ==>
      OffEvents(prev, next)[k].samplePosition == 0 && OffEvents(prev, next)[k].message.NoteOffMsg? &&
      exists v :: v in prev && v !in next && OffEvents(prev, next)[k].message == NoteOffFor(v)
    ensures forall v :: v in prev && v !in next ==> TimedMessage(NoteOffFor(v), 0) in OffEvents(prev, next)
    decreases |prev|
  {
    if prev != [] {
      var pre := prev[..|prev| - 1];
      var v := prev[|prev| - 1];
      OffEventsSpec(pre, next);
      assert prev == pre + [v];
      var r0, r := OffEvents(pre, next), OffEvents(prev, next);
      forall k | 0 <= k < |r|
        ensures r[k].samplePosition == 0 && r[k].message.NoteOffMsg? &&
          exists u :: u in prev && u !in next && r[k].message == NoteOffFor(u)
      {
        if k < |r0| {
          assert r[k] == r0[k];
        } else {
          assert r[k] == TimedMessage(NoteOffFor(v), 0) && v in prev;
        }
      }
      forall u | u in prev && u !in next ensures TimedMessage(NoteOffFor(u), 0) in r {
        if u in pre {
          var k :| 0 <= k < |r0| && r0[k] == TimedMessage(NoteOffFor(u), 0);
          assert r[k] == r0[k];
        }
      }
    }
  }

  /** What one OnEvents entry is. */
  lemma {:induction false} OnEventsSpec(next: seq<int>, prev: seq<int>)
    ensures |OnEvents(next, prev)| <= |next|
    ensures forall k :: 0 <= k < |OnEvents(next, prev)| ==>
      OnEvents(next, prev)[k].samplePosition == 0 && OnEvents(next, prev)[k].message.NoteOnMsg? &&
      exists n :: n in next && n !in prev && OnEvents(next, prev)[k].message == NoteOnFloat(n, HarmonyVelocity)
    ensures forall n :: n in next && n !in prev ==> TimedMessage(NoteOnFloat(n, HarmonyVelocity), 0) in OnEvents(next, prev)
    decreases |next|
  {
    if next != [] {
      var pre := next[..|next| - 1];
      var n := next[|next| - 1];
      OnEventsSpec(pre, prev);
      assert next == pre + [n];
      var r0, r := OnEvents(pre, prev), OnEvents(next, prev);
      forall k | 0 <= k < |r|
        ensures r[k].samplePosition == 0 && r[k].message.NoteOnMsg? &&
          exists m :: m in next && m !in prev && r[k].message == NoteOnFloat(m, HarmonyVelocity)
      {
        if k < |r0| {
          assert r[k] == r0[k];
        } else {
          assert r[k] == TimedMessage(NoteOnFloat(n, HarmonyVelocity), 0) && n in next;
        }
      }
      forall m | m in next && m !in prev ensures TimedMessage(NoteOnFloat(m, HarmonyVelocity), 0) in r {
        if m in pre {
          var k :| 0 <= k < |r0| && r0[k] == TimedMessage(NoteOnFloat(m, HarmonyVelocity), 0);
          assert r[k] == r0[k];
        }
      }
    }
  }

  /**
   * The difference stream: every event is at sample 0; a note-off only in a
   * block that had a note-off, and only for a previously voiced pitch that
   * the new voicing drops; a note-on only for a new pitch. Pitches voiced
   * before and after are never re-triggered or cut.
   */
  lemma BlockOutputSpec(prev: seq<int>, next: seq<int>, anyNoteOff: bool)
    ensures forall k :: 0 <= k < |BlockOutput(prev, next, anyNoteOff)| ==> BlockOutput(prev, next, anyNoteOff)[k].samplePosition == 0
    ensures forall k :: 0 <= k < |BlockOutput(prev, next, anyNoteOff)| && BlockOutput(prev, next, anyNoteOff)[k].message.NoteOffMsg? ==>
      anyNoteOff && exists v :: v in prev && v !in next && BlockOutput(prev, next, anyNoteOff)[k].message == NoteOffFor(v)
    ensures forall k :: 0 <= k < |BlockOutput(prev, next, anyNoteOff)| && !BlockOutput(prev, next, anyNoteOff)[k].message.NoteOffMsg? ==>
      exists n :: n in next && n !in prev && BlockOutput(prev, next, anyNoteOff)[k].message == NoteOnFloat(n, HarmonyVelocity)
    ensures forall n :: n in next && n !in prev ==> TimedMessage(NoteOnFloat(n, HarmonyVelocity), 0) in BlockOutput(prev, next, anyNoteOff)
    ensures anyNoteOff ==> forall v :: v in prev && v !in next ==> TimedMessage(NoteOffFor(v), 0) in BlockOutput(prev, next, anyNoteOff)
  {
    OffEventsSpec(prev, next);
    OnEventsSpec(next, prev);
    var offs := if anyNoteOff then OffEvents(prev, next) else [];
    var ons := OnEvents(next, prev);
    var out := BlockOutput(prev, next, anyNoteOff);
    assert out == offs + ons;
    forall k | 0 <= k < |out| ensures out[k] == (if k < |offs| then offs[k] else ons[k - |offs|]) {
    }
  }

  /** No note-off when the new voicing keeps every previous pitch. */
  lemma {:induction false} OffEventsNone(prev: seq<int>, next: seq<int>)
    requires forall x :: x in prev ==> x in next
    ensures OffEvents(prev, next) == []
    decreases |prev|
  {
    if prev != [] {
      OffEventsNone(prev[..|prev| - 1], next);
      assert prev[|prev| - 1] in prev;
    }
  }

  /** No note-on when the previous voicing already had every new pitch. */
  lemma {:induction false} OnEventsNone(next: seq<int>, prev: seq<int>)
    requires forall x :: x in next ==> x in prev
    ensures OnEvents(next, prev) == []
    decreases |next|
  {
    if next != [] {
      OnEventsNone(next[..|next| - 1], prev);
      assert next[|next| - 1] in next;
    }
  }

  /** Equal voicings (as sets) produce no events. */
  lemma BlockOutputUnchanged(v: seq<int>, w: seq<int>, anyNoteOff: bool)
    requires forall x :: x in v <==> x in w
    ensures BlockOutput(v, w, anyNoteOff) == []
  {
    OffEventsNone(v, w);
    OnEventsNone(w, v);
  }

  /** The engine's state, as one value. */
  datatype EngineState = EngineState(activeNotes: seq<int>, currentChord: Chord, currentVoicing: seq<int>)

  /** The state processMidi leaves behind. */
  function NextState(s: EngineState, midi: Buffer, density: real): EngineState {
    var held := HeldAfter(s.activeNotes, midi);
    var c := ChordFor(held);
    EngineState(held, c, VoicingFor(c, density))
  }

  /**
   * The voicing processMidi diffs against: the stored one, except that it is
   * cleared first when no note is held any more.
   */
  function DiffBase(s: EngineState, midi: Buffer): seq<int> {
    if |HeldAfter(s.activeNotes, midi)| >= 1 then s.currentVoicing else []
  }

  /** The buffer processMidi returns. */
  function Output(s: EngineState, midi: Buffer, density: real): Buffer {
    BlockOutput(DiffBase(s, midi), NextState(s, midi, density).currentVoicing, NoteOffPitches(midi) != [])
  }

  /** The state invariant processMidi keeps: distinct held pitches, and chord and voicing derived from them. */
  predicate Consistent(s: EngineState, density: real) {
    Distinct(s.activeNotes) && s.currentChord == ChordFor(s.activeNotes) && s.currentVoicing == VoicingFor(s.currentChord, density)
  }

  /** processMidi keeps the held list duplicate-free and makes chord and voicing consistent with it. */
  lemma NextStateConsistent(s: EngineState, midi: Buffer, density: real)
    requires Distinct(s.activeNotes)
    ensures Consistent(NextState(s, midi, density), density)
    ensures forall p :: p in NextState(s, midi, density).activeNotes <==> HeldByLastEvent(s.activeNotes, midi, p)
  {
    HeldAfterSpec(s.activeNotes, midi);
  }

  /**
   * Idempotence: a block without MIDI at an unchanged density emits nothing
   * and leaves the state as it was.
   */
  lemma QuietBlockIsSilent(s: EngineState, density: real)
    requires Consistent(s, density)
    ensures NextState(s, [], density) == s
    ensures Output(s, [], density) == []
    ensures OutputReleasingHarmony(s, [], density) == []
  {
    BlockOutputUnchanged(DiffBase(s, []), NextState(s, [], density).currentVoicing, false);
    BlockOutputUnchanged(s.currentVoicing, NextState(s, [], density).currentVoicing, false);
  }

  /**
   * Releasing every key: the stored voicing is cleared before the diff, so the
   * block emits no note-off for the harmony pitches that were sounding, and
   * the engine forgets them.
   */
  lemma ReleaseAllLeavesHarmonySounding(s: EngineState, midi: Buffer, density: real)
    requires HeldAfter(s.activeNotes, midi) == []
    ensures Output(s, midi, density) == []
    ensures NextState(s, midi, density).currentVoicing == []
  {
  }

  /** A concrete case: middle C held at low density sounds G and the C below; releasing C turns neither off. */
  lemma ReleaseAllExample()
    ensures var s := EngineState([60], ChordFor([60]), VoicingFor(ChordFor([60]), 0.0));
      s.currentVoicing == [67, 48] &&
      Output(s, [TimedMessage(NoteOffMsg(60), 0)], 0.0) == []
  {
    var s := EngineState([60], ChordFor([60]), VoicingFor(ChordFor([60]), 0.0));
    assert Sort([60]) == [60] by { SortIsTheSortedPermutation([60], [60]); }
    var midi := [TimedMessage(NoteOffMsg(60), 0)];
    assert midi[..0] == [];
    assert HeldAfter([60], midi) == [];
  }

  /** The corrected output: when no note is held any more, every previous harmony pitch gets a note-off. */
  function OutputReleasingHarmony(s: EngineState, midi: Buffer, density: real): Buffer {
    BlockOutput(s.currentVoicing, NextState(s, midi, density).currentVoicing, NoteOffPitches(midi) != [])
  }

  /** With the correction, releasing every key turns off every previously voiced harmony pitch. */
  lemma ReleaseAllStopsHarmony(s: EngineState, midi: Buffer, density: real)
    requires HeldAfter(s.activeNotes, midi) == []
    requires NoteOffPitches(midi) != []
    ensures forall v :: v in s.currentVoicing ==> TimedMessage(NoteOffFor(v), 0) in OutputReleasingHarmony(s, midi, density)
    ensures forall k :: 0 <= k < |OutputReleasingHarmony(s, midi, density)| ==> OutputReleasingHarmony(s, midi, density)[k].message.NoteOffMsg?
  {
    var out := OutputReleasingHarmony(s, midi, density);
    BlockOutputSpec(s.currentVoicing, [], true);
    assert OnEvents([], s.currentVoicing) == [];
    OffEventsSpec(s.currentVoicing, []);
  }

  /** Without a note-off, every held pitch stays held. */
  lemma {:induction false} NoNoteOffKeepsHeld(held: seq<int>, midi: Buffer)
    requires NoteOffPitches(midi) == []
    ensures forall p :: p in held ==> p in HeldAfter(held, midi)
    decreases |midi|
  {
    if midi != [] {
      var pre := midi[..|midi| - 1];
      assert NoteOffPitches(pre) == [];
      NoNoteOffKeepsHeld(held, pre);
    }
  }

  /** Emptying a non-empty held list takes a note-off, so the corrected diff does fire its note-offs. */
  lemma EmptiedMeansNoteOff(held: seq<int>, midi: Buffer)
    requires held != []
    ensures HeldAfter(held, midi) == [] ==> NoteOffPitches(midi) != []
  {
    if NoteOffPitches(midi) == [] {
      NoNoteOffKeepsHeld(held, midi);
      var p := held[0];
      assert p in held;
      assert p in HeldAfter(held, midi);
    }
  }

  /** The harmony engine object. */
  class ChordEngineObject {
    var sampleRate: real
    var samplesPerBlock: int
    var activeNotes: seq<int>
    var currentChord: Chord
    var currentVoicing: seq<int>

    /** Held pitches are distinct: a note-on only adds an absent pitch. */
    ghost predicate Valid()
      reads this
    {
      Distinct(activeNotes)
    }

    /** The state as one value. */
    function State(): EngineState
      reads this
    {
      EngineState(activeNotes, currentChord, currentVoicing)
    }

    constructor ()
      ensures Valid()
      ensures sampleRate == 44100.0 && samplesPerBlock == 512
      ensures activeNotes == [] && currentChord == EmptyChord && currentVoicing == []
    {
      sampleRate := 44100.0;
      samplesPerBlock := 512;
      activeNotes := [];
      currentChord := EmptyChord;
      currentVoicing := [];
    }

    /** prepare: store the audio settings. */
    method Prepare(newSampleRate: real, newSamplesPerBlock: int)
      modifies this
      ensures sampleRate == newSampleRate && samplesPerBlock == newSamplesPerBlock
      ensures activeNotes == old(activeNotes) && currentChord == old(currentChord) && currentVoicing == old(currentVoicing)
    {
      sampleRate := newSampleRate;
      samplesPerBlock := newSamplesPerBlock;
    }

    /** The scan of the incoming messages (lines 23-39): update the held list, collect the note-offs. */
    method ScanMessages(midi: Buffer) returns (notesOff: seq<int>)
      requires Valid()
      modifies this`activeNotes
      ensures Valid()
      ensures activeNotes == HeldAfter(old(activeNotes), midi)
      ensures notesOff == NoteOffPitches(midi)
    {
      notesOff := [];
      var k := 0;
      while k < |midi|
        invariant 0 <= k <= |midi|
        invariant activeNotes == HeldAfter(old(activeNotes), midi[..k])
        invariant notesOff == NoteOffPitches(midi[..k])
        invariant Distinct(activeNotes)
      {
        assert midi[..k + 1][..k] == midi[..k];
        var message := midi[k].message;
        if IsNoteOn(message) {
          var noteNumber := message.pitch;
          if noteNumber !in activeNotes {
            activeNotes := activeNotes + [noteNumber];
          }
        } else if IsNoteOff(message) {
          var noteNumber := message.pitch;
          notesOff := notesOff + [noteNumber];
          RemoveFirstDistinct(activeNotes, noteNumber);
          activeNotes := RemoveFirst(activeNotes, noteNumber);
        }
        k := k + 1;
      }
      assert midi[..|midi|] == midi;
    }

    /** The chord detection and voicing step of processMidi (lines 42-59): the stored voicing is cleared when nothing is held. */
    method UpdateChord(density: real, ghost s0: EngineState, ghost midi: Buffer) returns (newVoicing: seq<int>)
      requires activeNotes == HeldAfter(s0.activeNotes, midi) && currentVoicing == s0.currentVoicing
      modifies this`currentChord, this`currentVoicing
      ensures currentChord == ChordFor(activeNotes) == NextState(s0, midi, density).currentChord
      ensures currentVoicing == (if activeNotes != [] then old(currentVoicing) else []) == DiffBase(s0, midi)
      ensures newVoicing == VoicingFor(currentChord, density) == NextState(s0, midi, density).currentVoicing
    {
      if |activeNotes| >= 1 {
        currentChord := DetectChord(activeNotes);
      } else {
        currentChord := EmptyChord;
        currentVoicing := [];
      }
      newVoicing := [];
      if !IsEmpty(currentChord) {
        newVoicing := GenerateVoicing(currentChord, density);
      }
    }

    /**
     * processMidi as written: the harmony is diffed against the stored
     * voicing after UpdateChord, which has cleared it when no key is held
     * any more (see Output and ReleaseAllLeavesHarmonySounding).
     */
    method ProcessMidi(midi: Buffer, density: real) returns (out: Buffer)
      requires Valid()
      modifies this
      ensures Valid()
      ensures State() == NextState(old(State()), midi, density)
      ensures out == Output(old(State()), midi, density)
      ensures sampleRate == old(sampleRate) && samplesPerBlock == old(samplesPerBlock)
    {
      ghost var s0 := State();
      var notesOff := ScanMessages(midi);
      var newVoicing := UpdateChord(density, s0, midi);
      var previous := currentVoicing;
      ghost var next := NextState(s0, midi, density);
      out := BlockDiff(previous, newVoicing, |notesOff| > 0);
      assert out == BlockOutput(DiffBase(s0, midi), next.currentVoicing, NoteOffPitches(midi) != []);
      currentVoicing := newVoicing;
      assert State() == EngineState(next.activeNotes, next.currentChord, next.currentVoicing);
    }
  }

  /** The two emission loops of processMidi (lines 62-86), the note-offs only when the block had a note-off. */
  method BlockDiff(prev: seq<int>, next: seq<int>, anyNoteOff: bool) returns (out: Buffer)
    ensures out == BlockOutput(prev, next, anyNoteOff)
  {
    out := [];
    if anyNoteOff {
      out := AddNoteOffs(out, prev, next);
    }
    out := AddNoteOns(out, next, prev);
  }

  /** The note-off loop (lines 67-74): add a note-off at sample 0 for each previous pitch the new voicing drops. */
  method AddNoteOffs(buf: Buffer, prev: seq<int>, next: seq<int>) returns (out: Buffer)
    requires NotAfter(buf, 0)
    ensures out == buf + OffEvents(prev, next)
    ensures NotAfter(out, 0)
  {
    out := buf;
    var i := 0;
    while i < |prev|
      invariant 0 <= i <= |prev|
      invariant out == buf + OffEvents(prev[..i], next)
      invariant NotAfter(out, 0)
    {
      assert prev[..i + 1][..i] == prev[..i];
      var voiceNote := prev[i];
      if voiceNote !in next {
        AddEventAtEnd(out, TimedMessage(NoteOffFor(voiceNote), 0));
        out := AddEvent(out, TimedMessage(NoteOffFor(voiceNote), 0));
      }
      i := i + 1;
    }
    assert prev[..|prev|] == prev;
  }

  /** The note-on loop (lines 78-86): add a note-on at sample 0 for each new pitch the previous voicing lacks. */
  method AddNoteOns(buf: Buffer, next: seq<int>, prev: seq<int>) returns (out: Buffer)
    requires NotAfter(buf, 0)
    ensures out == buf + OnEvents(next, prev)
  {
    out := buf;
    var i := 0;
    while i < |next|
      invariant 0 <= i <= |next|
      invariant out == buf + OnEvents(next[..i], prev)
      invariant NotAfter(out, 0)
    {
      assert next[..i + 1][..i] == next[..i];
      var newNote := next[i];
      if newNote !in prev {
        AddEventAtEnd(out, TimedMessage(NoteOnFloat(newNote, HarmonyVelocity), 0));
        out := AddEvent(out, TimedMessage(NoteOnFloat(newNote, HarmonyVelocity), 0));
      }
      i := i + 1;
    }
    assert next[..|next|] == next;
  }
}
