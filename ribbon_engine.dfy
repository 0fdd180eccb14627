/**
 * The ribbon (arpeggiator) engine: up to five ribbons each step through an
 * arpeggiation of the current chord, and a shared list of scheduled notes
 * keeps at most one note per ribbon.
 *
 * Timing is in samples and is modelled with `real`. The engine's random
 * sources are parameters: `rand` draws for the per-ribbon intensity and
 * the shuffle draws of the Random pattern. The sine used for velocity
 * humanisation is a parameter too; only the clamp around it is modelled.
 */
module Ribbons {
  import opened JuceMath
  import opened Arpeggio

  const MaxRibbons := 5

  // ----------------------------------------------------------------------
  // Values
  // ----------------------------------------------------------------------

  /** RibbonConfig, with the gate and swing fields the engine reads. */
  datatype RibbonConfig = RibbonConfig(
    enabled: bool,
    pattern: Pattern,
    rate: real,
    offset: real,
    spatialSpread: real,
    intensity: real,
    decay: real,
    gate: real,
    swing: real)

  /**
   * A default-constructed RibbonConfig. Gate and swing have no declared
   * default; full gate and no swing are taken for them.
   */
  const DefaultConfig := RibbonConfig(false, Up, 0.5, 0.0, 0.5, 1.0, 0.8, 1.0, 0.0)

  /** std::array<RibbonConfig, MAX_RIBBONS>. */
  type RibbonConfigs = s: seq<RibbonConfig> | |s| == MaxRibbons
    witness [DefaultConfig, DefaultConfig, DefaultConfig, DefaultConfig, DefaultConfig]

  /** RibbonParams, with the master controls the engine reads. */
  datatype RibbonParams = RibbonParams(
    activeRibbons: int,
    enableRibbons: bool,
    pulse: real,
    variation: real,
    wobble: real,
    swing: real,
    shimmer: real,
    ribbons: RibbonConfigs)

  /**
   * RibbonNote. The engine never assigns `bufferSamplePosition` and
   * `isNoteOn`, which the plugin reads; every new note carries 0 and true.
   */
  datatype RibbonNote = RibbonNote(
    midiNote: int,
    ribbon: int,
    startTime: real,
    duration: real,
    velocity: real,
    spatialPosition: real,
    active: bool,
    stepIndex: int,
    bufferSamplePosition: int,
    isNoteOn: bool)

  /** RibbonState of one ribbon. */
  datatype RibbonState = RibbonState(
    phase: real,
    currentStep: int,
    sequence: seq<int>,
    lastEventTime: real,
    active: bool)

  /** The step counter points into the sequence, or is 0 while there is none. */
  predicate StateOk(s: RibbonState) {
    if s.sequence == [] then s.currentStep == 0 else 0 <= s.currentStep < |s.sequence|
  }

  // ----------------------------------------------------------------------
  // Tempo conversions
  // ----------------------------------------------------------------------

  /** beatsToSamples: 0 for a non-positive tempo. */
  function BeatsToSamples(beats: real, bpm: real, sampleRate: real): (r: real)
    ensures bpm <= 0.0 ==> r == 0.0
  {
    if bpm <= 0.0 then 0.0
    else
      var secondsPerBeat := 1.0 / (bpm / 60.0);
      beats * secondsPerBeat * sampleRate
  }

  /** samplesToBeats: 0 for a non-positive tempo. */
  function SamplesToBeats(samples: real, bpm: real, sampleRate: real): (r: real)
    requires sampleRate != 0.0
    ensures bpm <= 0.0 ==> r == 0.0
  {
    if bpm <= 0.0 then 0.0
    else
      var secondsPerBeat := 1.0 / (bpm / 60.0);
      samples / sampleRate / secondsPerBeat
  }

  /** A beat at `bpm` lasts 60 / bpm seconds: the conversion is linear. */
  lemma BeatsToSamplesLinear(beats: real, bpm: real, sampleRate: real)
    requires bpm > 0.0
    ensures BeatsToSamples(beats, bpm, sampleRate) == beats * 60.0 * sampleRate / bpm
  {
    var spb := 1.0 / (bpm / 60.0);
    assert spb == 60.0 / bpm;
    assert beats * spb * sampleRate == beats * 60.0 * sampleRate / bpm;
  }

  /** Converting beats to samples and back gives the beats again. */
  lemma SamplesToBeatsInvertsBeatsToSamples(beats: real, bpm: real, sampleRate: real)
    requires bpm > 0.0 && sampleRate > 0.0
    ensures SamplesToBeats(BeatsToSamples(beats, bpm, sampleRate), bpm, sampleRate) == beats
  {
    var spb := 1.0 / (bpm / 60.0);
    assert spb > 0.0;
    var x := beats * spb * sampleRate;
    assert x / sampleRate == beats * spb;
    assert beats * spb / spb == beats;
  }

  /** Converting samples to beats and back gives the samples again. */
  lemma BeatsToSamplesInvertsSamplesToBeats(samples: real, bpm: real, sampleRate: real)
    requires bpm > 0.0 && sampleRate > 0.0
    ensures BeatsToSamples(SamplesToBeats(samples, bpm, sampleRate), bpm, sampleRate) == samples
  {
    var spb := 1.0 / (bpm / 60.0);
    assert spb > 0.0;
    var y := samples / sampleRate / spb;
    assert y * spb == samples / sampleRate;
    assert samples / sampleRate * sampleRate == samples;
  }

  // ----------------------------------------------------------------------
  // Master controls to per-ribbon configuration
  // ----------------------------------------------------------------------

  /** The configuration calculateRibbonConfigurations gives an enabled ribbon i. */
  function Configured(p: RibbonParams, i: int, draw: real): RibbonConfig {
    var baseRate := 0.2 + p.pulse * 0.8;
    var variationFactor := 1.0 + (p.variation - 0.5) * 2.0 * (i as real * 0.2);
    var shimmerVariation := 1.0 + (draw - 0.5) * p.shimmer;
    RibbonConfig(
      enabled := true,
      pattern := PatternOf(CRem(i + TruncToInt(p.variation * 7.0), 7)),
      rate := Limit(0.1, 1.0, baseRate * variationFactor),
      offset := p.wobble * (i as real * 0.25),
      spatialSpread := 0.3 + p.wobble * 0.7,
      intensity := Limit(0.3, 1.0, 0.7 * shimmerVariation),
      decay := 0.6 + p.shimmer * 0.4,
      gate := 0.9 - p.pulse * 0.4,
      swing := p.swing)
  }

  /** Ribbon i after the mapping: configured when i < activeRibbons, otherwise only disabled. */
  function ConfigFor(p: RibbonParams, i: int, draw: real, c: RibbonConfig): RibbonConfig {
    if i < p.activeRibbons then Configured(p, i, draw) else c.(enabled := false)
  }

  /**
   * calculateRibbonConfigurations. The i-th std::rand draw (scaled to
   * [0, 1]) is `draws[i]`: the enabled ribbons are a prefix, so ribbon i
   * consumes the i-th draw.
   */
  function Configure(p: RibbonParams, draws: seq<real>): (r: RibbonParams)
    requires |draws| == MaxRibbons
  {
    var rs := seq(MaxRibbons, i requires 0 <= i < MaxRibbons => ConfigFor(p, i, draws[i], p.ribbons[i]));
    p.(ribbons := rs)
  }

  /** calculateRibbonConfigurations writes each ribbon's configuration in place. */
  method ConfigureRibbons(params: RibbonParams, draws: seq<real>) returns (updated: RibbonParams)
    requires |draws| == MaxRibbons
    ensures updated == Configure(params, draws)
  {
    var rs: seq<RibbonConfig> := params.ribbons;
    for i := 0 to MaxRibbons
      invariant |rs| == MaxRibbons
      invariant forall k :: 0 <= k < i ==> rs[k] == ConfigFor(params, k, draws[k], params.ribbons[k])
      invariant forall k :: i <= k < MaxRibbons ==> rs[k] == params.ribbons[k]
    {
      var ribbon := rs[i].(enabled := i < params.activeRibbons);
      if ribbon.enabled {
        ribbon := Configured(params, i, draws[i]);
      }
      rs := rs[i := ribbon];
    }
    updated := params.(ribbons := rs);
  }

  /**
   * The mapping's guarantees: a ribbon is enabled exactly when its index is
   * below activeRibbons; an enabled ribbon's rate is in [0.1, 1], its
   * intensity in [0.3, 1], and its pattern index is (i + (int)(7·variation))
   * with C++ remainder mod 7; a disabled ribbon keeps its other fields.
   */
  lemma ConfigureRanges(p: RibbonParams, draws: seq<real>, i: int)
    requires |draws| == MaxRibbons && 0 <= i < MaxRibbons
    ensures var c := Configure(p, draws).ribbons[i];
      (c.enabled <==> i < p.activeRibbons) &&
      (c.enabled ==> 0.1 <= c.rate <= 1.0 && 0.3 <= c.intensity <= 1.0) &&
      (c.enabled ==> c.pattern == PatternOf(CRem(i + TruncToInt(p.variation * 7.0), 7))) &&
      (!c.enabled ==> c == p.ribbons[i].(enabled := false))
  {
  }

  /**
   * With the master controls in [0, 1], an enabled ribbon gets a named
   * pattern, number (i + ⌊7·variation⌋) mod 7, a spread in [0.3, 1], an
   * offset in [0, i/4], a decay in [0.6, 1] and a gate in [0.5, 0.9].
   */
  lemma ConfigureInRange(p: RibbonParams, draws: seq<real>, i: int)
    requires |draws| == MaxRibbons && 0 <= i < p.activeRibbons && i < MaxRibbons
    requires 0.0 <= p.pulse <= 1.0 && 0.0 <= p.variation <= 1.0
    requires 0.0 <= p.wobble <= 1.0 && 0.0 <= p.shimmer <= 1.0
    ensures var c := Configure(p, draws).ribbons[i];
      c.pattern == PatternOf((i + (p.variation * 7.0).Floor) % 7) && !c.pattern.Unnamed? &&
      0.3 <= c.spatialSpread <= 1.0 &&
      0.0 <= c.offset <= i as real * 0.25 &&
      0.6 <= c.decay <= 1.0 &&
      0.5 <= c.gate <= 0.9
  {
    var c := Configure(p, draws).ribbons[i];
    assert c == Configured(p, i, draws[i]);
    assert p.variation * 7.0 >= 0.0;
    assert 0.0 <= p.wobble * (i as real * 0.25) <= i as real * 0.25;
  }

  // ----------------------------------------------------------------------
  // Spatial position of a ribbon note
  // ----------------------------------------------------------------------

  /**
   * calculateRibbonSpatialPosition: the step's place across the stereo
   * field, scaled by the spread, plus `movement`, clamped to [-1, 1].
   */
  function SpatialPosition(noteIndex: int, totalNotes: int, spread: real, movement: real): (r: real)
    ensures -1.0 <= r <= 1.0
    ensures totalNotes <= 1 ==> r == 0.0
  {
    if totalNotes <= 1 then 0.0
    else
      var basePosition := (noteIndex as real / (totalNotes - 1) as real) * 2.0 - 1.0;
      Limit(-1.0, 1.0, basePosition * spread + movement)
  }

  /** Without movement and with a spread in [0, 1], the clamp never bites. */
  lemma SpatialPositionUnclamped(noteIndex: int, totalNotes: int, spread: real)
    requires 0 <= noteIndex < totalNotes && totalNotes > 1 && 0.0 <= spread <= 1.0
    ensures SpatialPosition(noteIndex, totalNotes, spread, 0.0) ==
      ((noteIndex as real / (totalNotes - 1) as real) * 2.0 - 1.0) * spread
  {
    var q := noteIndex as real / (totalNotes - 1) as real;
    assert 0.0 <= q <= 1.0;
    var b := q * 2.0 - 1.0;
    assert -1.0 <= b <= 1.0;
    assert -1.0 <= b * spread <= 1.0 by {
      if b >= 0.0 { assert b * spread <= b; } else { assert b * spread >= b; }
    }
  }

  /** Without movement, the first and last steps sit mirror-symmetric, and so on inwards. */
  lemma SpatialPositionMirror(noteIndex: int, totalNotes: int, spread: real)
    requires totalNotes > 1
    ensures SpatialPosition(totalNotes - 1 - noteIndex, totalNotes, spread, 0.0) ==
      -SpatialPosition(noteIndex, totalNotes, spread, 0.0)
  {
    var d := (totalNotes - 1) as real;
    var b := (noteIndex as real / d) * 2.0 - 1.0;
    var b' := ((totalNotes - 1 - noteIndex) as real / d) * 2.0 - 1.0;
    var k := noteIndex as real;
    assert (totalNotes - 1 - noteIndex) as real == d - k;
    assert (d - k) / d == d / d - k / d;
    assert d / d == 1.0;
    assert b' == -b;
    assert b' * spread == -(b * spread);
  }

  // ----------------------------------------------------------------------
  // The scheduled-note list
  // ----------------------------------------------------------------------

  /** The notes of ribbon q, in order. */
  function OfRibbon(s: seq<RibbonNote>, q: int): (r: seq<RibbonNote>)
    ensures forall n :: n in r <==> n in s && n.ribbon == q
  {
    if s == [] then []
    else
      var last := s[|s| - 1];
      assert s == s[..|s| - 1] + [last];
      OfRibbon(s[..|s| - 1], q) + (if last.ribbon == q then [last] else [])
  }

  /** How many scheduled notes belong to ribbon q. */
  function CountRibbon(s: seq<RibbonNote>, q: int): nat {
    |OfRibbon(s, q)|
  }

  /** removeIf(note.ribbon == r). */
  function WithoutRibbon(s: seq<RibbonNote>, r: int): (t: seq<RibbonNote>)
    ensures forall n :: n in t <==> n in s && n.ribbon != r
  {
    if s == [] then []
    else
      var last := s[|s| - 1];
      assert s == s[..|s| - 1] + [last];
      WithoutRibbon(s[..|s| - 1], r) + (if last.ribbon != r then [last] else [])
  }

  /** A note has passed once it ended before `pos`. */
  predicate Expired(n: RibbonNote, pos: real) {
    n.startTime + n.duration < pos
  }

  /** removeIf(startTime + duration < pos). */
  function Unexpired(s: seq<RibbonNote>, pos: real): (t: seq<RibbonNote>)
    ensures forall n :: n in t <==> n in s && !Expired(n, pos)
  {
    if s == [] then []
    else
      var last := s[|s| - 1];
      assert s == s[..|s| - 1] + [last];
      Unexpired(s[..|s| - 1], pos) + (if !Expired(last, pos) then [last] else [])
  }

  /** A note sounds in the block [pos, pos + numSamples]. */
  predicate Overlaps(n: RibbonNote, pos: real, numSamples: int) {
    n.startTime <= pos + numSamples as real && n.startTime + n.duration >= pos
  }

  /** The notes processChord returns: those overlapping the block, in order. */
  function InWindow(s: seq<RibbonNote>, pos: real, numSamples: int): (t: seq<RibbonNote>)
    ensures forall n :: n in t <==> n in s && Overlaps(n, pos, numSamples)
  {
    if s == [] then []
    else
      var last := s[|s| - 1];
      assert s == s[..|s| - 1] + [last];
      InWindow(s[..|s| - 1], pos, numSamples) + (if Overlaps(last, pos, numSamples) then [last] else [])
  }

  /** Selecting one ribbon's notes distributes over concatenation. */
  lemma {:induction false} OfRibbonAppend(a: seq<RibbonNote>, b: seq<RibbonNote>, q: int)
    ensures OfRibbon(a + b, q) == OfRibbon(a, q) + OfRibbon(b, q)
    decreases |b|
  {
    if b != [] {
      var b' := b[..|b| - 1];
      assert (a + b)[..|a + b| - 1] == a + b';
      assert (a + b)[|a + b| - 1] == b[|b| - 1];
      OfRibbonAppend(a, b', q);
    } else {
      assert a + b == a;
    }
  }

  /** Removing ribbon r's notes leaves the other ribbons' notes as they were. */
  lemma {:induction false} OfRibbonWithout(s: seq<RibbonNote>, r: int, q: int)
    ensures OfRibbon(WithoutRibbon(s, r), q) == if q == r then [] else OfRibbon(s, q)
    decreases |s|
  {
    if s != [] {
      var s', last := s[..|s| - 1], s[|s| - 1];
      OfRibbonWithout(s', r, q);
      OfRibbonAppend(WithoutRibbon(s', r), if last.ribbon != r then [last] else [], q);
    }
  }

  /** Dropping expired notes never adds a note to a ribbon. */
  lemma {:induction false} CountUnexpired(s: seq<RibbonNote>, pos: real, q: int)
    ensures CountRibbon(Unexpired(s, pos), q) <= CountRibbon(s, q)
    decreases |s|
  {
    if s != [] {
      var s', last := s[..|s| - 1], s[|s| - 1];
      CountUnexpired(s', pos, q);
      OfRibbonAppend(Unexpired(s', pos), if !Expired(last, pos) then [last] else [], q);
    }
  }

  /** Selecting the notes of the block never adds a note to a ribbon. */
  lemma {:induction false} CountInWindow(s: seq<RibbonNote>, pos: real, numSamples: int, q: int)
    ensures CountRibbon(InWindow(s, pos, numSamples), q) <= CountRibbon(s, q)
    decreases |s|
  {
    if s != [] {
      var s', last := s[..|s| - 1], s[|s| - 1];
      CountInWindow(s', pos, numSamples, q);
      OfRibbonAppend(InWindow(s', pos, numSamples), if Overlaps(last, pos, numSamples) then [last] else [], q);
    }
  }

  /** At most one scheduled note per ribbon, and every note from one of the five ribbons. */
  ghost predicate OnePerRibbon(s: seq<RibbonNote>) {
    (forall q :: CountRibbon(s, q) <= 1) && (forall n :: n in s ==> 0 <= n.ribbon < MaxRibbons)
  }

  /** Replacing ribbon r's notes by one new note keeps at most one note per ribbon. */
  lemma ReplaceKeepsOnePerRibbon(s: seq<RibbonNote>, note: RibbonNote)
    requires OnePerRibbon(s) && 0 <= note.ribbon < MaxRibbons
    ensures OnePerRibbon(WithoutRibbon(s, note.ribbon) + [note])
    ensures OfRibbon(WithoutRibbon(s, note.ribbon) + [note], note.ribbon) == [note]
    ensures forall q :: q != note.ribbon ==> OfRibbon(WithoutRibbon(s, note.ribbon) + [note], q) == OfRibbon(s, q)
  {
    var t := WithoutRibbon(s, note.ribbon);
    forall q ensures OfRibbon(t + [note], q) == if q == note.ribbon then [note] else OfRibbon(s, q) {
      OfRibbonAppend(t, [note], q);
      OfRibbonWithout(s, note.ribbon, q);
      assert [note][..0] == [];
    }
    forall q ensures CountRibbon(t + [note], q) <= 1 {
      assert CountRibbon(s, q) <= 1;
    }
    forall n | n in t + [note] ensures 0 <= n.ribbon < MaxRibbons {
      assert n in t || n == note;
    }
  }

  /** Dropping expired notes keeps at most one note per ribbon. */
  lemma UnexpiredKeepsOnePerRibbon(s: seq<RibbonNote>, pos: real)
    requires OnePerRibbon(s)
    ensures OnePerRibbon(Unexpired(s, pos))
  {
    forall q ensures CountRibbon(Unexpired(s, pos), q) <= 1 {
      CountUnexpired(s, pos, q);
    }
  }

  /** The notes of a block come one per ribbon at most. */
  lemma InWindowOnePerRibbon(s: seq<RibbonNote>, pos: real, numSamples: int)
    requires OnePerRibbon(s)
    ensures OnePerRibbon(InWindow(s, pos, numSamples))
  {
    forall q ensures CountRibbon(InWindow(s, pos, numSamples), q) <= 1 {
      CountInWindow(s, pos, numSamples, q);
    }
  }

  // ----------------------------------------------------------------------
  // One ribbon's step (updateRibbonPhase)
  // ----------------------------------------------------------------------

  /** Samples between two steps of a ribbon at `rate`: the rate spans 1 to 9 steps per second. */
  function StepInterval(sampleRate: real, rate: real): real
    requires rate >= 0.0
  {
    sampleRate / (1.0 + rate * 8.0)
  }

  /** It is time for the ribbon's next step. */
  predicate Due(s: RibbonState, config: RibbonConfig, pos: real, sampleRate: real)
    requires config.rate >= 0.0
  {
    var interval := StepInterval(sampleRate, config.rate);
    pos - s.lastEventTime >= interval + config.offset * interval
  }

  /** The swing delay: 40% of the step per unit of swing, on odd steps only. */
  function SwingOffset(step: int, swing: real, interval: real): real {
    if swing > 0.0 && step % 2 == 1 then interval * swing * 0.4 else 0.0
  }

  /**
   * The velocity of step `step` of `size`: the ribbon's intensity, accented
   * by 1.3 on step 0, decaying over the cycle and humanised by a sine
   * (`sine` stands for std::sin), clamped to [0.2, 1].
   */
  function StepVelocity(step: int, size: int, config: RibbonConfig, sine: real -> real): real
    requires size > 0
  {
    var accentFactor := if step == 0 then 1.3 else 1.0;
    var cyclePosition := step as real / size as real;
    var decayFactor := 1.0 - cyclePosition * (1.0 - config.decay);
    var humanization := 0.9 + sine(step as real * 1.1) * 0.1;
    Limit(0.2, 1.0, config.intensity * accentFactor * decayFactor * humanization)
  }

  /** A note's length: the step interval times the gate, the gate clamped to [0.1, 1]. */
  function GatedDuration(interval: real, gate: real): real {
    interval * Limit(0.1, 1.0, gate)
  }

  /**
   * The note a ribbon schedules on its step. Ribbon 0's phase is always 0,
   * so the movement term sin(2π·phase) of the spatial position is 0.
   */
  function NewNote(s: RibbonState, ribbonIndex: int, config: RibbonConfig, pos: real, interval: real, sine: real -> real): RibbonNote
    requires StateOk(s) && s.sequence != []
  {
    var step := s.currentStep;
    var size := |s.sequence|;
    RibbonNote(
      midiNote := s.sequence[step],
      ribbon := ribbonIndex,
      startTime := pos + SwingOffset(step, config.swing, interval),
      duration := GatedDuration(interval, config.gate),
      velocity := StepVelocity(step, size, config, sine),
      spatialPosition := SpatialPosition(step, size, config.spatialSpread, 0.0),
      active := true,
      stepIndex := step,
      bufferSamplePosition := 0,
      isNoteOn := true)
  }

  /**
   * A ribbon without a sequence generates one from its pattern; when it gets
   * one, its last event is put 10000 samples in the past.
   */
  function Prime(s: RibbonState, config: RibbonConfig, ribbonIndex: int, chordNotes: seq<int>, pos: real, draws: seq<int>): RibbonState {
    if s.sequence != [] then s
    else
      var sq := Generate(chordNotes, config.pattern, ribbonIndex, draws);
      if sq == [] then s.(sequence := sq)
      else s.(sequence := sq, lastEventTime := pos - 10000.0)
  }

  /** A ribbon's state and the scheduled notes after its step. */
  datatype StepOutcome = StepOutcome(state: RibbonState, scheduled: seq<RibbonNote>)

  /**
   * A due step: advance the step with wrap-around, record the time, and
   * replace the ribbon's scheduled notes by the note of the new step.
   */
  function Fire(p: RibbonState, scheduled: seq<RibbonNote>, ribbonIndex: int, config: RibbonConfig,
                pos: real, sampleRate: real, sine: real -> real): (r: StepOutcome)
    requires StateOk(p) && p.sequence != [] && config.rate >= 0.0
    ensures StateOk(r.state)
  {
    var next := p.(currentStep := (p.currentStep + 1) % |p.sequence|, lastEventTime := pos);
    var note := NewNote(next, ribbonIndex, config, pos, StepInterval(sampleRate, config.rate), sine);
    StepOutcome(next, WithoutRibbon(scheduled, ribbonIndex) + [note])
  }

  /** updateRibbonPhase on one ribbon: set up a missing sequence, then fire if due. */
  function RibbonStep(s: RibbonState, scheduled: seq<RibbonNote>, ribbonIndex: int, config: RibbonConfig,
                      chordNotes: seq<int>, pos: real, sampleRate: real, draws: seq<int>, sine: real -> real): (r: StepOutcome)
    requires StateOk(s) && config.rate >= 0.0
    ensures StateOk(r.state)
  {
    var p := Prime(s, config, ribbonIndex, chordNotes, pos, draws);
    if p.sequence == [] || !Due(p, config, pos, sampleRate) then StepOutcome(p, scheduled)
    else Fire(p, scheduled, ribbonIndex, config, pos, sampleRate, sine)
  }

  /** The step fires exactly when pos − lastEventTime ≥ (1 + offset)·sampleRate / (1 + 8·rate). */
  lemma DueIff(s: RibbonState, config: RibbonConfig, pos: real, sampleRate: real)
    requires config.rate >= 0.0
    ensures Due(s, config, pos, sampleRate) <==>
      pos - s.lastEventTime >= (1.0 + config.offset) * sampleRate / (1.0 + 8.0 * config.rate)
  {
    var d := 1.0 + config.rate * 8.0;
    var interval := sampleRate / d;
    assert interval + config.offset * interval == (1.0 + config.offset) * interval;
    assert (1.0 + config.offset) * interval == (1.0 + config.offset) * sampleRate / d;
  }

  /** A ribbon whose step is not due changes nothing but its sequence set-up. */
  lemma RibbonStepWaits(s: RibbonState, scheduled: seq<RibbonNote>, ribbonIndex: int, config: RibbonConfig,
                        chordNotes: seq<int>, pos: real, sampleRate: real, draws: seq<int>, sine: real -> real)
    requires StateOk(s) && config.rate >= 0.0
    requires var p := Prime(s, config, ribbonIndex, chordNotes, pos, draws);
      p.sequence == [] || !Due(p, config, pos, sampleRate)
    ensures var r := RibbonStep(s, scheduled, ribbonIndex, config, chordNotes, pos, sampleRate, draws, sine);
      r.scheduled == scheduled && r.state.currentStep == s.currentStep &&
      (s.sequence != [] ==> r.state == s)
  {
  }

  /**
   * A fired step moves to the next step with wrap-around, and the ribbon's
   * only scheduled note is then the new step's pitch, starting after the
   * swing delay and lasting the gated step interval.
   */
  lemma FireSchedulesStep(p: RibbonState, scheduled: seq<RibbonNote>, ribbonIndex: int, config: RibbonConfig,
                          pos: real, sampleRate: real, sine: real -> real)
    requires StateOk(p) && p.sequence != [] && config.rate >= 0.0
    requires OnePerRibbon(scheduled) && 0 <= ribbonIndex < MaxRibbons
    ensures var r := Fire(p, scheduled, ribbonIndex, config, pos, sampleRate, sine);
      var interval := StepInterval(sampleRate, config.rate);
      var step := r.state.currentStep;
      var mine := OfRibbon(r.scheduled, ribbonIndex);
      step == (p.currentStep + 1) % |p.sequence| && r.state.lastEventTime == pos &&
      r.state.sequence == p.sequence && r.state.phase == p.phase &&
      |mine| == 1 && mine[0].midiNote == p.sequence[step] && mine[0].stepIndex == step &&
      mine[0].startTime == pos + SwingOffset(step, config.swing, interval) &&
      mine[0].duration == GatedDuration(interval, config.gate)
  {
    var interval := StepInterval(sampleRate, config.rate);
    var next := p.(currentStep := (p.currentStep + 1) % |p.sequence|, lastEventTime := pos);
    var note := NewNote(next, ribbonIndex, config, pos, interval, sine);
    assert Fire(p, scheduled, ribbonIndex, config, pos, sampleRate, sine) == StepOutcome(next, WithoutRibbon(scheduled, ribbonIndex) + [note]);
    ReplaceKeepsOnePerRibbon(scheduled, note);
    assert note.midiNote == next.sequence[next.currentStep] && note.stepIndex == next.currentStep;
    assert note.startTime == pos + SwingOffset(next.currentStep, config.swing, interval);
  }

  /** A fired step keeps one note per ribbon and leaves the other ribbons' notes as they were. */
  lemma FireKeepsOthers(p: RibbonState, scheduled: seq<RibbonNote>, ribbonIndex: int, config: RibbonConfig,
                        pos: real, sampleRate: real, sine: real -> real)
    requires StateOk(p) && p.sequence != [] && config.rate >= 0.0
    requires OnePerRibbon(scheduled) && 0 <= ribbonIndex < MaxRibbons
    ensures var r := Fire(p, scheduled, ribbonIndex, config, pos, sampleRate, sine);
      OnePerRibbon(r.scheduled) &&
      forall q :: q != ribbonIndex ==> OfRibbon(r.scheduled, q) == OfRibbon(scheduled, q)
  {
    var r := Fire(p, scheduled, ribbonIndex, config, pos, sampleRate, sine);
    var note := NewNote(r.state, ribbonIndex, config, pos, StepInterval(sampleRate, config.rate), sine);
    ReplaceKeepsOnePerRibbon(scheduled, note);
  }

  /** The gated duration lies between a tenth of the step interval and the whole of it. */
  lemma DurationBounds(interval: real, gate: real)
    requires interval >= 0.0
    ensures 0.1 * interval <= GatedDuration(interval, gate) <= interval
    ensures 0.1 <= gate <= 1.0 ==> GatedDuration(interval, gate) == interval * gate
  {
    var g := Limit(0.1, 1.0, gate);
    assert interval * g >= interval * 0.1;
    assert interval * g <= interval * 1.0;
  }

  /** The swing delay is non-zero only on odd steps, and at most 0.4·interval·swing. */
  lemma SwingBounds(step: int, swing: real, interval: real)
    requires interval >= 0.0
    ensures SwingOffset(step, swing, interval) != 0.0 ==> step % 2 == 1 && swing > 0.0
    ensures swing > 0.0 ==> 0.0 <= SwingOffset(step, swing, interval) <= 0.4 * interval * swing
  {
    if swing > 0.0 {
      assert interval * swing >= 0.0;
    }
  }

  /** A scheduled note's velocity is in [0.2, 1] and its position in [-1, 1], 0 for a one-note sequence. */
  lemma NewNoteInRange(s: RibbonState, ribbonIndex: int, config: RibbonConfig, pos: real, interval: real, sine: real -> real)
    requires StateOk(s) && s.sequence != []
    ensures var n := NewNote(s, ribbonIndex, config, pos, interval, sine);
      0.2 <= n.velocity <= 1.0 && -1.0 <= n.spatialPosition <= 1.0 &&
      (|s.sequence| == 1 ==> n.spatialPosition == 0.0) &&
      n.midiNote in s.sequence && n.ribbon == ribbonIndex && n.active
  {
  }

  // ----------------------------------------------------------------------
  // The engine's state as a value
  // ----------------------------------------------------------------------

  /** The five ribbon states, the scheduled notes and the current chord. */
  datatype EngineValue = EngineValue(states: seq<RibbonState>, scheduled: seq<RibbonNote>, chord: seq<int>)

  /** A ribbon's sequence is empty or an arpeggiation of the chord. */
  predicate PlaysChord(sequence: seq<int>, chord: seq<int>) {
    sequence == [] || multiset(sequence) == multiset(chord)
  }

  /**
   * The engine's invariant: five ribbon states whose steps point into their
   * sequences, each sequence an arpeggiation of the current chord, ribbon
   * 0 at phase 0, and at most one scheduled note per ribbon.
   */
  ghost predicate ValueOk(v: EngineValue) {
    |v.states| == MaxRibbons &&
    (forall i :: 0 <= i < MaxRibbons ==> StateOk(v.states[i]) && PlaysChord(v.states[i].sequence, v.chord)) &&
    v.states[0].phase == 0.0 &&
    OnePerRibbon(v.scheduled)
  }

  /** Every enabled ribbon has a rate the step interval can divide by. */
  predicate RatesOk(configs: RibbonConfigs) {
    forall j :: 0 <= j < MaxRibbons && configs[j].enabled ==> configs[j].rate >= 0.0
  }

  /** Ribbon i takes its step, with the engine's current chord. */
  function StepRibbon(v: EngineValue, i: int, config: RibbonConfig, pos: real, sampleRate: real,
                      draws: seq<int>, sine: real -> real): EngineValue
    requires ValueOk(v) && 0 <= i < MaxRibbons && config.rate >= 0.0
  {
    var o := RibbonStep(v.states[i], v.scheduled, i, config, v.chord, pos, sampleRate, draws, sine);
    v.(states := v.states[i := o.state], scheduled := o.scheduled)
  }

  /** A ribbon's step keeps the invariant. */
  lemma StepRibbonOk(v: EngineValue, i: int, config: RibbonConfig, pos: real, sampleRate: real,
                     draws: seq<int>, sine: real -> real)
    requires ValueOk(v) && 0 <= i < MaxRibbons && config.rate >= 0.0
    ensures ValueOk(StepRibbon(v, i, config, pos, sampleRate, draws, sine))
    ensures StepRibbon(v, i, config, pos, sampleRate, draws, sine).chord == v.chord
  {
    var s := v.states[i];
    var p := Prime(s, config, i, v.chord, pos, draws);
    if s.sequence == [] {
      GeneratePermutation(v.chord, config.pattern, i, draws);
    }
    assert PlaysChord(p.sequence, v.chord) && p.phase == s.phase;
    if p.sequence != [] && Due(p, config, pos, sampleRate) {
      FireSchedulesStep(p, v.scheduled, i, config, pos, sampleRate, sine);
      FireKeepsOthers(p, v.scheduled, i, config, pos, sampleRate, sine);
    }
  }

  /** A ribbon's step leaves every other ribbon's state and scheduled notes as they were. */
  lemma StepRibbonFrame(v: EngineValue, i: int, config: RibbonConfig, pos: real, sampleRate: real,
                        draws: seq<int>, sine: real -> real, j: int)
    requires ValueOk(v) && 0 <= i < MaxRibbons && config.rate >= 0.0 && 0 <= j < MaxRibbons && i != j
    ensures var r := StepRibbon(v, i, config, pos, sampleRate, draws, sine);
      r.states[j] == v.states[j] && OfRibbon(r.scheduled, j) == OfRibbon(v.scheduled, j)
  {
    var p := Prime(v.states[i], config, i, v.chord, pos, draws);
    if p.sequence != [] && Due(p, config, pos, sampleRate) {
      FireKeepsOthers(p, v.scheduled, i, config, pos, sampleRate, sine);
    }
  }

  /** Ribbons 0..k-1 take their steps in turn, each when enabled. */
  function UpdateUpTo(v: EngineValue, configs: RibbonConfigs, k: int, pos: real, sampleRate: real,
                      draws: seq<int>, sine: real -> real): (r: EngineValue)
    requires ValueOk(v) && RatesOk(configs) && 0 <= k <= MaxRibbons
    ensures ValueOk(r) && r.chord == v.chord
    decreases k
  {
    if k == 0 then v
    else StepIfEnabled(UpdateUpTo(v, configs, k - 1, pos, sampleRate, draws, sine), k - 1, configs[k - 1],
                       pos, sampleRate, draws, sine)
  }

  /** Ribbon i takes its step if its configuration enables it. */
  function StepIfEnabled(v: EngineValue, i: int, config: RibbonConfig, pos: real, sampleRate: real,
                         draws: seq<int>, sine: real -> real): (r: EngineValue)
    requires ValueOk(v) && 0 <= i < MaxRibbons && (config.enabled ==> config.rate >= 0.0)
    ensures ValueOk(r) && r.chord == v.chord
    ensures !config.enabled ==> r == v
  {
    if config.enabled then
      StepRibbonOk(v, i, config, pos, sampleRate, draws, sine);
      StepRibbon(v, i, config, pos, sampleRate, draws, sine)
    else v
  }

  /**
   * Ribbons at or past k, and disabled ribbons, keep their state and their
   * scheduled notes.
   */
  lemma {:induction false} UpdateUpToFrame(v: EngineValue, configs: RibbonConfigs, k: int, pos: real, sampleRate: real,
                                           draws: seq<int>, sine: real -> real, j: int)
    requires ValueOk(v) && RatesOk(configs) && 0 <= k <= MaxRibbons && 0 <= j < MaxRibbons
    requires j >= k || !configs[j].enabled
    ensures var r := UpdateUpTo(v, configs, k, pos, sampleRate, draws, sine);
      r.states[j] == v.states[j] && OfRibbon(r.scheduled, j) == OfRibbon(v.scheduled, j)
    decreases k
  {
    if k > 0 {
      var w := UpdateUpTo(v, configs, k - 1, pos, sampleRate, draws, sine);
      UpdateUpToFrame(v, configs, k - 1, pos, sampleRate, draws, sine, j);
      var i := k - 1;
      if configs[i].enabled {
        StepRibbonFrame(w, i, configs[i], pos, sampleRate, draws, sine, j);
        assert UpdateUpTo(v, configs, k, pos, sampleRate, draws, sine) == StepRibbon(w, i, configs[i], pos, sampleRate, draws, sine);
      } else {
        assert UpdateUpTo(v, configs, k, pos, sampleRate, draws, sine) == w;
      }
    }
  }

  /** Ribbon i's state once a chord change has regenerated its sequence: pattern i of the chord, back at step 0. */
  function Regenerated(s: RibbonState, chord: seq<int>, i: int, draws: seq<int>): (r: RibbonState)
    ensures r.phase == s.phase && r.lastEventTime == s.lastEventTime && r.active == s.active && r.currentStep == 0
  {
    s.(sequence := Generate(chord, PatternOf(i % 7), i, draws), currentStep := 0)
  }

  /** setCurrentChord: every ribbon i regenerates with pattern i mod 7 from step 0. */
  function WithChord(v: EngineValue, chord: seq<int>, draws: seq<int>): (r: EngineValue)
    requires |v.states| == MaxRibbons
    ensures |r.states| == MaxRibbons
  {
    var states := seq(MaxRibbons, i requires 0 <= i < MaxRibbons => Regenerated(v.states[i], chord, i, draws));
    v.(states := states, chord := chord)
  }

  /**
   * After a chord change ribbon i plays pattern i (Up, Down, Outside, Inside,
   * Random) of the new chord from step 0, every sequence holds exactly the
   * chord's notes, and the invariant holds again.
   */
  lemma WithChordOk(v: EngineValue, chord: seq<int>, draws: seq<int>)
    requires ValueOk(v)
    ensures ValueOk(WithChord(v, chord, draws))
    ensures var r := WithChord(v, chord, draws);
      r.chord == chord && r.scheduled == v.scheduled &&
      forall i :: 0 <= i < MaxRibbons ==>
        r.states[i].sequence == Generate(chord, PatternOf(i), i, draws) &&
        r.states[i].currentStep == 0 &&
        multiset(r.states[i].sequence) == multiset(chord)
  {
    var r := WithChord(v, chord, draws);
    forall i | 0 <= i < MaxRibbons
      ensures r.states[i].sequence == Generate(chord, PatternOf(i), i, draws)
      ensures multiset(r.states[i].sequence) == multiset(chord)
      ensures StateOk(r.states[i]) && PlaysChord(r.states[i].sequence, chord)
    {
      assert i % 7 == i;
      GeneratePermutation(chord, PatternOf(i), i, draws);
    }
  }

  /**
   * processChord on an enabled, non-empty chord, after the configuration:
   * drop the expired notes, take up a changed chord, then step ribbons
   * 0..clamp(activeRibbons, 1, 5)-1 that are enabled.
   */
  function ProcessedValue(v: EngineValue, configs: RibbonConfigs, activeRibbons: int, chordNotes: seq<int>,
                          pos: real, sampleRate: real, draws: seq<int>, sine: real -> real): (r: EngineValue)
    requires ValueOk(v) && RatesOk(configs)
    ensures ValueOk(r) && r.chord == chordNotes
  {
    UnexpiredKeepsOnePerRibbon(v.scheduled, pos);
    var v1 := v.(scheduled := Unexpired(v.scheduled, pos));
    WithChordOk(v1, chordNotes, draws);
    var v2 := if v1.chord != chordNotes then WithChord(v1, chordNotes, draws) else v1;
    UpdateUpTo(v2, configs, LimitInt(1, MaxRibbons, activeRibbons), pos, sampleRate, draws, sine)
  }

  /** The mapping leaves every enabled ribbon a rate of at least 0.1. */
  lemma ConfigureRatesOk(p: RibbonParams, draws: seq<real>)
    requires |draws| == MaxRibbons
    ensures RatesOk(Configure(p, draws).ribbons)
  {
    forall j | 0 <= j < MaxRibbons ensures Configure(p, draws).ribbons[j].enabled ==> Configure(p, draws).ribbons[j].rate >= 0.1 {
      ConfigureRanges(p, draws, j);
    }
  }

  /** reset: back to time 0 and step 0 with nothing scheduled; the sequences stay. */
  function ResetState(s: RibbonState): RibbonState {
    s.(phase := 0.0, currentStep := 0, lastEventTime := 0.0, active := false)
  }

  /** After reset every ribbon keeps its sequence and restarts it from its first note. */
  lemma ResetStateOk(s: RibbonState)
    requires StateOk(s)
    ensures StateOk(ResetState(s)) && ResetState(s).sequence == s.sequence
    ensures ResetState(s).currentStep == 0 && ResetState(s).phase == 0.0
  {
  }

  /**
   * The second half of updateRibbonPhase on a ribbon that has a sequence:
   * when the step is due, advance the step with wrap-around, record the
   * time and replace the ribbon's scheduled note by the new step's note.
   */
  method FireIfDue(p: RibbonState, scheduled: seq<RibbonNote>, ribbonIndex: int, config: RibbonConfig,
                   pos: real, sampleRate: real, sine: real -> real)
    returns (state: RibbonState, notes: seq<RibbonNote>)
    requires StateOk(p) && p.sequence != [] && config.rate >= 0.0
    ensures Due(p, config, pos, sampleRate) ==> StepOutcome(state, notes) == Fire(p, scheduled, ribbonIndex, config, pos, sampleRate, sine)
    ensures !Due(p, config, pos, sampleRate) ==> state == p && notes == scheduled
  {
    state := p;
    notes := scheduled;
    var stepInterval := StepInterval(sampleRate, config.rate);
    var timeSinceLastStep := pos - state.lastEventTime;
    var offsetSamples := config.offset * stepInterval;
    if timeSinceLastStep >= stepInterval + offsetSamples {
      var stepsPerCycle := |state.sequence|;
      notes := WithoutRibbon(notes, ribbonIndex);
      state := state.(currentStep := (state.currentStep + 1) % stepsPerCycle, lastEventTime := pos);
      var newNote := NewNote(state, ribbonIndex, config, pos, stepInterval, sine);
      notes := notes + [newNote];
    }
  }

  /**
   * updateRibbonPhase on one ribbon's state and the scheduled notes:
   * generate a missing sequence (and stop if there is still none), then
   * fire the step if it is due.
   */
  method AdvanceRibbon(s: RibbonState, scheduled: seq<RibbonNote>, ribbonIndex: int, config: RibbonConfig,
                       chordNotes: seq<int>, pos: real, sampleRate: real, draws: seq<int>, sine: real -> real)
    returns (state: RibbonState, notes: seq<RibbonNote>)
    requires StateOk(s) && config.rate >= 0.0
    ensures StepOutcome(state, notes) == RibbonStep(s, scheduled, ribbonIndex, config, chordNotes, pos, sampleRate, draws, sine)
  {
    state := s;
    notes := scheduled;
    if state.sequence == [] {
      state := state.(sequence := Generate(chordNotes, config.pattern, ribbonIndex, draws));
      if state.sequence == [] {
        return;
      }
      state := state.(lastEventTime := pos - 10000.0);
    }
    state, notes := FireIfDue(state, notes, ribbonIndex, config, pos, sampleRate, sine);
  }

  // ----------------------------------------------------------------------
  // The engine
  // ----------------------------------------------------------------------

  /** RibbonEngine. */
  class RibbonEngine {
    var sampleRate: real
    var samplesPerBlock: int
    var currentSamplePosition: real
    var currentChordNotes: seq<int>
    const ribbonStates: array<RibbonState>
    var scheduledNotes: seq<RibbonNote>

    /** The ribbon states, scheduled notes and current chord. */
    function Value(): EngineValue
      reads this, ribbonStates
    {
      EngineValue(ribbonStates[..], scheduledNotes, currentChordNotes)
    }

    ghost predicate Valid()
      reads this, ribbonStates
    {
      ribbonStates.Length == MaxRibbons && ValueOk(Value())
    }

    /** Each ribbon starts without a sequence, inactive, at phase 0.2·i. */
    constructor()
      ensures Valid()
      ensures sampleRate == 44100.0 && samplesPerBlock == 512 && currentSamplePosition == 0.0
      ensures currentChordNotes == [] && scheduledNotes == []
      ensures forall i :: 0 <= i < MaxRibbons ==> ribbonStates[i] == RibbonState(i as real * 0.2, 0, [], 0.0, false)
    {
      sampleRate := 44100.0;
      samplesPerBlock := 512;
      currentSamplePosition := 0.0;
      currentChordNotes := [];
      scheduledNotes := [];
      ribbonStates := new RibbonState[MaxRibbons](i => RibbonState(i as real * 0.2, 0, [], 0.0, false));
    }

    /** prepare: take the audio settings and restart the clock. */
    method Prepare(newSampleRate: real, newSamplesPerBlock: int)
      requires Valid()
      modifies this`sampleRate, this`samplesPerBlock, this`currentSamplePosition
      ensures Valid()
      ensures sampleRate == newSampleRate && samplesPerBlock == newSamplesPerBlock && currentSamplePosition == 0.0
    {
      sampleRate := newSampleRate;
      samplesPerBlock := newSamplesPerBlock;
      currentSamplePosition := 0.0;
      assert Value() == old(Value());
    }

    /** advanceTime: the clock moves on by one block. */
    method AdvanceTime(numSamples: int)
      requires Valid()
      modifies this`currentSamplePosition
      ensures Valid()
      ensures currentSamplePosition == old(currentSamplePosition) + numSamples as real
    {
      currentSamplePosition := currentSamplePosition + numSamples as real;
      assert Value() == old(Value());
    }

    /** reset: clock to 0, nothing scheduled, every ribbon back to step 0 with its sequence kept. */
    method Reset()
      requires Valid()
      modifies this`currentSamplePosition, this`scheduledNotes, ribbonStates
      ensures Valid()
      ensures currentSamplePosition == 0.0 && scheduledNotes == []
      ensures forall i :: 0 <= i < MaxRibbons ==> ribbonStates[i] == ResetState(old(ribbonStates[i]))
    {
      ghost var before := Value();
      currentSamplePosition := 0.0;
      scheduledNotes := [];
      ResetStates();
      forall i | 0 <= i < MaxRibbons ensures StateOk(ribbonStates[i]) && PlaysChord(ribbonStates[i].sequence, currentChordNotes) {
        assert StateOk(before.states[i]) && PlaysChord(before.states[i].sequence, currentChordNotes);
        ResetStateOk(before.states[i]);
      }
      assert OnePerRibbon(scheduledNotes);
    }

    /** The loop of reset: every ribbon state in the array goes back to its first step. */
    method ResetStates()
      requires ribbonStates.Length == MaxRibbons
      modifies ribbonStates
      ensures forall k :: 0 <= k < MaxRibbons ==> ribbonStates[k] == ResetState(old(ribbonStates[k]))
    {
      ghost var before := ribbonStates[..];
      for i := 0 to MaxRibbons
        invariant forall k :: 0 <= k < i ==> ribbonStates[k] == ResetState(before[k])
        invariant forall k :: i <= k < MaxRibbons ==> ribbonStates[k] == before[k]
      {
        ribbonStates[i] := ResetState(ribbonStates[i]);
      }
    }

    /** setCurrentChord. */
    method SetCurrentChord(chordNotes: seq<int>, draws: seq<int>)
      requires Valid()
      modifies this`currentChordNotes, ribbonStates
      ensures Valid()
      ensures Value() == WithChord(old(Value()), chordNotes, draws)
    {
      ghost var v := Value();
      currentChordNotes := chordNotes;
      RegenerateSequences(chordNotes, draws);
      ghost var target := WithChord(v, chordNotes, draws);
      assert ribbonStates[..] == target.states;
      WithChordOk(v, chordNotes, draws);
    }

    /** The loop of setCurrentChord: ribbon i regenerates its sequence with pattern i and restarts. */
    method RegenerateSequences(chordNotes: seq<int>, draws: seq<int>)
      requires ribbonStates.Length == MaxRibbons
      modifies ribbonStates
      ensures forall k :: 0 <= k < MaxRibbons ==> ribbonStates[k] == Regenerated(old(ribbonStates[k]), chordNotes, k, draws)
    {
      ghost var before := ribbonStates[..];
      for i := 0 to MaxRibbons
        invariant forall k :: 0 <= k < i ==> ribbonStates[k] == Regenerated(before[k], chordNotes, k, draws)
        invariant forall k :: i <= k < MaxRibbons ==> ribbonStates[k] == before[k]
      {
        ribbonStates[i] := Regenerated(ribbonStates[i], chordNotes, i, draws);
      }
    }

    /**
     * updateRibbonPhase. It is called only with the chord that is current,
     * and with a rate from the configuration mapping.
     */
    method UpdateRibbonPhase(ribbonIndex: int, config: RibbonConfig, chordNotes: seq<int>, numSamples: int,
                             draws: seq<int>, sine: real -> real)
      requires Valid() && 0 <= ribbonIndex < MaxRibbons && config.rate >= 0.0 && chordNotes == currentChordNotes
      modifies this`scheduledNotes, ribbonStates
      ensures Valid()
      ensures Value() == StepRibbon(old(Value()), ribbonIndex, config, currentSamplePosition, sampleRate, draws, sine)
    {
      ghost var v := Value();
      StepRibbonOk(v, ribbonIndex, config, currentSamplePosition, sampleRate, draws, sine);
      var state, notes := AdvanceRibbon(ribbonStates[ribbonIndex], scheduledNotes, ribbonIndex, config,
                                        chordNotes, currentSamplePosition, sampleRate, draws, sine);
      ribbonStates[ribbonIndex] := state;
      scheduledNotes := notes;
      assert ribbonStates[..] == v.states[ribbonIndex := state];
    }

    /** The loop of processChord: ribbons 0..activeCount-1 that are enabled take their step in turn. */
    method UpdateActiveRibbons(configs: RibbonConfigs, activeCount: int, chordNotes: seq<int>, numSamples: int,
                               draws: seq<int>, sine: real -> real)
      requires Valid() && RatesOk(configs) && 0 <= activeCount <= MaxRibbons && chordNotes == currentChordNotes
      modifies this`scheduledNotes, ribbonStates
      ensures Valid()
      ensures Value() == UpdateUpTo(old(Value()), configs, activeCount, currentSamplePosition, sampleRate, draws, sine)
    {
      ghost var v := Value();
      for i := 0 to activeCount
        invariant Valid() && currentChordNotes == chordNotes
        invariant Value() == UpdateUpTo(v, configs, i, currentSamplePosition, sampleRate, draws, sine)
      {
        ghost var before := Value();
        if configs[i].enabled {
          UpdateRibbonPhase(i, configs[i], chordNotes, numSamples, draws, sine);
        }
        assert Value() == StepIfEnabled(before, i, configs[i], currentSamplePosition, sampleRate, draws, sine);
      }
    }

    /**
     * processChord. `params` is passed by reference and rewritten by the
     * configuration mapping; `updatedParams` is its new value. `randDraws`
     * stands for the std::rand draws, `draws` for the shuffle's randomness
     * and `sine` for std::sin; the host tempo is not read.
     */
    method ProcessChord(chordNotes: seq<int>, params: RibbonParams, numSamples: int, hostTempo: real,
                        randDraws: seq<real>, draws: seq<int>, sine: real -> real)
      returns (notes: seq<RibbonNote>, updatedParams: RibbonParams)
      requires Valid() && |randDraws| == MaxRibbons
      modifies this`scheduledNotes, this`currentChordNotes, ribbonStates
      ensures Valid()
      ensures !params.enableRibbons || chordNotes == [] ==>
        notes == [] && updatedParams == params && Value() == old(Value())
      ensures params.enableRibbons && chordNotes != [] ==>
        updatedParams == Configure(params, randDraws) &&
        RatesOk(updatedParams.ribbons) &&
        Value() == ProcessedValue(old(Value()), updatedParams.ribbons, params.activeRibbons, chordNotes,
                                  currentSamplePosition, sampleRate, draws, sine) &&
        notes == InWindow(scheduledNotes, currentSamplePosition, numSamples)
      ensures OnePerRibbon(notes)
    {
      if !params.enableRibbons || chordNotes == [] {
        return [], params;
      }
      ghost var v := Value();
      updatedParams := ConfigureRibbons(params, randDraws);
      ConfigureRatesOk(params, randDraws);
      UnexpiredKeepsOnePerRibbon(scheduledNotes, currentSamplePosition);
      scheduledNotes := Unexpired(scheduledNotes, currentSamplePosition);
      ghost var v1 := Value();
      assert v1 == v.(scheduled := Unexpired(v.scheduled, currentSamplePosition));
      if currentChordNotes != chordNotes {
        SetCurrentChord(chordNotes, draws);
      }
      ghost var v2 := Value();
      assert v2 == if v1.chord != chordNotes then WithChord(v1, chordNotes, draws) else v1;
      var activeCount := LimitInt(1, MaxRibbons, updatedParams.activeRibbons);
      UpdateActiveRibbons(updatedParams.ribbons, activeCount, chordNotes, numSamples, draws, sine);
      assert Value() == ProcessedValue(v, updatedParams.ribbons, params.activeRibbons, chordNotes,
                                       currentSamplePosition, sampleRate, draws, sine);
      notes := CollectActive(scheduledNotes, currentSamplePosition, numSamples);
      InWindowOnePerRibbon(scheduledNotes, currentSamplePosition, numSamples);
    }
  }

  /** The loop that gathers the scheduled notes overlapping the block. */
  method CollectActive(scheduled: seq<RibbonNote>, pos: real, numSamples: int) returns (activeNotes: seq<RibbonNote>)
    ensures activeNotes == InWindow(scheduled, pos, numSamples)
  {
    activeNotes := [];
    for k := 0 to |scheduled|
      invariant activeNotes == InWindow(scheduled[..k], pos, numSamples)
    {
      assert scheduled[..k + 1][..k] == scheduled[..k];
      if Overlaps(scheduled[k], pos, numSamples) {
        activeNotes := activeNotes + [scheduled[k]];
      }
    }
    assert scheduled[..|scheduled|] == scheduled;
  }
}
