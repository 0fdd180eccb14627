/**
 * The spatial engine: a fixed pool of 16 synth voices that the
 * harmonised MIDI stream drives. Per block it collects the held and the
 * stopped notes, hands each note-on a voice (a free voice, else a quiet
 * releasing one, else the oldest), releases the voices of the stopped
 * notes, force-stops voices that have played too long, and runs the ADSR
 * envelope of every sounding voice sample by sample.
 *
 * The first half of the module states all of this on values (a voice is
 * a `VoiceState`, the pool a sequence of them); the classes at the end
 * are the engine itself, whose methods update the voices in place and
 * are proved to follow the value-level description.
 */
module Spatial {
  import opened Envelope
  import opened JuceMath
  import opened Midi
  import JuceArray

  /** The polyphony: std::array<Voice, 16>. */
  const PoolSize := 16

  /** A voice's noteMaxDuration: the safety limit of 10 seconds, in milliseconds. */
  const NoteMaxDuration := 10000

  /** A snapshot of one voice's fields. */
  datatype VoiceState = VoiceState(
    midiNote: int,
    active: bool,
    position: real,
    phase: real,
    chordPosition: int,
    noteStartTime: int,
    envelopeState: EnvelopeState,
    envelopeLevel: real,
    filterState: real,
    highpassState: real)

  /** A voice as declared: inactive, Idle, silent. */
  const SilentVoice := VoiceState(0, false, 0.0, 0.0, 0, 0, Idle, 0.0, 0.0, 0.0)

  /** A voice just triggered for `note` at time `now`; nothing of its previous state survives. */
  function Triggered(note: int, pos: real, chordPos: int, now: int): VoiceState {
    VoiceState(note, true, pos, 0.0, chordPos, now, Attack, 0.0, 0.0, 0.0)
  }

  /** Voice::release: inactive, and in Release unless it was Idle. */
  function Released(v: VoiceState): VoiceState {
    v.(active := false, envelopeState := if v.envelopeState == Idle then Idle else Release)
  }

  /** Voice::forceStop: inactive, Idle, silent, with both filter states cleared. */
  function ForceStopped(v: VoiceState): VoiceState {
    v.(active := false, envelopeState := Idle, envelopeLevel := 0.0, filterState := 0.0, highpassState := 0.0)
  }

  /** Voice::hasTimedOut: the note started more than 10 seconds before `now`. */
  predicate TimedOut(v: VoiceState, now: int) {
    now - v.noteStartTime > NoteMaxDuration
  }

  /** The pool invariant: an Idle voice is inactive and silent. */
  predicate Settled(v: VoiceState) {
    v.envelopeState == Idle ==> !v.active && v.envelopeLevel == 0.0
  }

  predicate AllSettled(pool: seq<VoiceState>) {
    forall k :: 0 <= k < |pool| ==> Settled(pool[k])
  }

  /** Release never wakes a voice up: Idle stays Idle, anything else ends in Release, and the voice is inactive. */
  lemma ReleasedStates(v: VoiceState)
    ensures !Released(v).active
    ensures v.envelopeState == Idle <==> Released(v).envelopeState == Idle
    ensures v.envelopeState != Idle ==> Released(v).envelopeState == Release
    ensures Released(v).envelopeLevel == v.envelopeLevel
  {
  }

  // ---------------------------------------------------------------------
  // Stereo position
  // ---------------------------------------------------------------------

  /** How far a chord position pushes a voice outwards: root 0.2, even positions 0.5, odd ones 0.8 (C++ `%`, so -1 is odd). */
  function PositionFactor(chordPosition: int): real {
    if chordPosition == 0 then 0.2
    else if CRem(chordPosition, 2) == 0 then 0.5
    else 0.8
  }

  /**
   * calculatePosition: note height and chord function, plus a small
   * jitter from the note number, clamped to [-1, 1] and scaled by width.
   */
  function CalculatePosition(midiNote: int, chordPosition: int, width: real): (r: real)
    ensures 0.0 <= width ==> -width <= r <= width
  {
    var noteHeight := (midiNote as real - 60.0) / 48.0;
    var jitter := CRem(midiNote, 5) as real / 20.0 - 0.1;
    var unit := Limit(-1.0, 1.0, noteHeight * 0.3 + PositionFactor(chordPosition) * 0.6 + jitter);
    ClampedTimesWidth(unit, width);
    unit * width
  }

  lemma ClampedTimesWidth(unit: real, width: real)
    requires -1.0 <= unit <= 1.0
    ensures 0.0 <= width ==> -width <= unit * width <= width
  {
    if 0.0 <= width {
      assert (1.0 - unit) * width >= 0.0 && (1.0 + unit) * width >= 0.0;
    }
  }

  /** Width only scales: the position at any width is the full-width position times the width. */
  lemma PositionScalesWithWidth(midiNote: int, chordPosition: int, width: real)
    ensures CalculatePosition(midiNote, chordPosition, width) == CalculatePosition(midiNote, chordPosition, 1.0) * width
  {
  }

  /**
   * A note missing from the sorted held list (index -1, a note-on whose
   * note-off came later in the block) is placed like an odd chord position.
   */
  lemma MissingNoteIsOdd(midiNote: int, width: real)
    ensures CalculatePosition(midiNote, -1, width) == CalculatePosition(midiNote, 1, width)
  {
  }

  // ---------------------------------------------------------------------
  // Voice allocation
  // ---------------------------------------------------------------------

  /** First tier: a voice whose envelope is Idle. */
  predicate IsFree(v: VoiceState) {
    v.envelopeState == Idle
  }

  /** Second tier: an inactive voice in Release whose level has fallen below 0.01. */
  predicate IsFading(v: VoiceState) {
    !v.active && v.envelopeState == Release && v.envelopeLevel < 0.01
  }

  /** The index of the first voice satisfying p, or -1. */
  function FirstWhere(pool: seq<VoiceState>, p: VoiceState -> bool): (r: int)
    ensures -1 <= r < |pool|
    ensures r >= 0 ==> p(pool[r])
    ensures forall k :: 0 <= k < |pool| && (r == -1 || k < r) ==> !p(pool[k])
    decreases |pool|
  {
    if pool == [] then -1
    else if p(pool[0]) then 0
    else
      var k := FirstWhere(pool[1..], p);
      if k == -1 then -1 else k + 1
  }

  /**
   * The third tier's scan over voices 0..n-1: start from (-1, now) and
   * take voice i whenever its start time is strictly below the best so far.
   */
  function OldestScan(pool: seq<VoiceState>, n: int, now: int): (int, int)
    requires 0 <= n <= |pool|
  {
    if n == 0 then (-1, now)
    else
      var best := OldestScan(pool, n - 1, now);
      if pool[n - 1].noteStartTime < best.1 then (n - 1, pool[n - 1].noteStartTime) else best
  }

  function Oldest(pool: seq<VoiceState>, now: int): (r: int)
    ensures -1 <= r < |pool|
  {
    OldestScanSpec(pool, |pool|, now);
    OldestScan(pool, |pool|, now).0
  }

  lemma {:induction false} OldestScanSpec(pool: seq<VoiceState>, n: int, now: int)
    requires 0 <= n <= |pool|
    ensures var (i, t) := OldestScan(pool, n, now);
      if i == -1 then t == now && forall k :: 0 <= k < n ==> pool[k].noteStartTime >= now
      else
        0 <= i < n && t == pool[i].noteStartTime && t < now &&
        (forall k :: 0 <= k < n ==> pool[k].noteStartTime >= t) &&
        (forall k :: 0 <= k < i ==> pool[k].noteStartTime > t)
  {
    if n > 0 {
      OldestScanSpec(pool, n - 1, now);
    }
  }

  /**
   * The oldest voice: the first voice with the strictly smallest start
   * time, provided that time is before `now`; -1 when every voice started
   * at `now` or later.
   */
  lemma OldestSpec(pool: seq<VoiceState>, now: int)
    ensures -1 <= Oldest(pool, now) < |pool|
    ensures Oldest(pool, now) == -1 <==> forall k :: 0 <= k < |pool| ==> pool[k].noteStartTime >= now
    ensures var r := Oldest(pool, now);
      r >= 0 ==>
        pool[r].noteStartTime < now &&
        (forall k :: 0 <= k < |pool| ==> pool[r].noteStartTime <= pool[k].noteStartTime) &&
        (forall k :: 0 <= k < r ==> pool[r].noteStartTime < pool[k].noteStartTime)
  {
    OldestScanSpec(pool, |pool|, now);
  }

  /** The voice a note-on gets: the first free voice, else the first fading voice, else the oldest, else none (-1). */
  function AllocIndex(pool: seq<VoiceState>, now: int): (r: int)
    ensures -1 <= r < |pool|
  {
    var free := FirstWhere(pool, IsFree);
    if free >= 0 then free
    else
      var fading := FirstWhere(pool, IsFading);
      if fading >= 0 then fading else Oldest(pool, now)
  }

  /** The allocation policy, tier by tier, and when a note is dropped. */
  lemma AllocationPriority(pool: seq<VoiceState>, now: int)
    ensures -1 <= AllocIndex(pool, now) < |pool|
    ensures var r := AllocIndex(pool, now);
      && ((exists k :: 0 <= k < |pool| && IsFree(pool[k])) ==>
            r >= 0 && IsFree(pool[r]) && forall k :: 0 <= k < r ==> !IsFree(pool[k]))
      && ((forall k :: 0 <= k < |pool| ==> !IsFree(pool[k])) && (exists k :: 0 <= k < |pool| && IsFading(pool[k])) ==>
            r >= 0 && IsFading(pool[r]) && forall k :: 0 <= k < r ==> !IsFading(pool[k]))
      && ((forall k :: 0 <= k < |pool| ==> !IsFree(pool[k]) && !IsFading(pool[k])) ==>
            r == Oldest(pool, now))
      && (r == -1 <==> forall k :: 0 <= k < |pool| ==>
            !IsFree(pool[k]) && !IsFading(pool[k]) && pool[k].noteStartTime >= now)
  {
    OldestSpec(pool, now);
  }

  /** The second pass for one note-on: the chosen voice is triggered at the note's position in the sorted held list. */
  function NoteOn(pool: seq<VoiceState>, note: int, sortedNotes: seq<int>, width: real, now: int): (r: seq<VoiceState>)
    ensures |r| == |pool|
  {
    var i := AllocIndex(pool, now);
    if i < 0 then pool
    else
      var chordPosition := JuceArray.IndexOf(sortedNotes, note);
      pool[i := Triggered(note, CalculatePosition(note, chordPosition, width), chordPosition, now)]
  }

  /** A note-on changes at most the one voice it is given, which is then playing that note from the start. */
  lemma NoteOnTriggersOne(pool: seq<VoiceState>, note: int, sortedNotes: seq<int>, width: real, now: int)
    ensures var r := NoteOn(pool, note, sortedNotes, width, now); var i := AllocIndex(pool, now);
      && |r| == |pool|
      && (i == -1 ==> r == pool)
      && (i >= 0 ==> r[i].midiNote == note && r[i].active && r[i].envelopeState == Attack &&
                     r[i].envelopeLevel == 0.0 && r[i].phase == 0.0 && r[i].filterState == 0.0 &&
                     r[i].highpassState == 0.0 && r[i].noteStartTime == now &&
                     r[i].chordPosition == JuceArray.IndexOf(sortedNotes, note))
      && (forall k :: 0 <= k < |pool| && k != i ==> r[k] == pool[k])
  {
    AllocationPriority(pool, now);
  }

  /** The whole second pass: every note-on of the block, in order. */
  function NoteOnPass(pool: seq<VoiceState>, b: Buffer, sortedNotes: seq<int>, width: real, now: int): (r: seq<VoiceState>)
    ensures |r| == |pool|
    decreases |b|
  {
    if b == [] then pool
    else
      var p := NoteOnPass(pool, b[..|b| - 1], sortedNotes, width, now);
      var m := b[|b| - 1].message;
      if IsNoteOn(m) then NoteOn(p, m.pitch, sortedNotes, width, now) else p
  }

  // ---------------------------------------------------------------------
  // Note-offs and the safety timeout
  // ---------------------------------------------------------------------

  /**
   * The third pass for one voice and one stopped note: a voice playing
   * the note goes inactive into Release, its level already lowered by a
   * tenth of one release step.
   */
  function ReleaseIfPlaying(v: VoiceState, note: int, release: real, sampleRate: real): VoiceState
    requires release > 0.0 && sampleRate > 0.0
  {
    if v.active && v.midiNote == note then
      var releaseRate := v.envelopeLevel / InSamples(release, sampleRate);
      v.(active := false, envelopeState := Release, envelopeLevel := v.envelopeLevel - releaseRate * 0.1)
    else v
  }

  function ReleaseNote(pool: seq<VoiceState>, note: int, release: real, sampleRate: real): (r: seq<VoiceState>)
    requires release > 0.0 && sampleRate > 0.0
    ensures |r| == |pool|
  {
    seq(|pool|, k requires 0 <= k < |pool| => ReleaseIfPlaying(pool[k], note, release, sampleRate))
  }

  /** The whole third pass: each stopped note in turn, over every voice. */
  function NoteOffPass(pool: seq<VoiceState>, stopped: seq<int>, release: real, sampleRate: real): (r: seq<VoiceState>)
    requires release > 0.0 && sampleRate > 0.0
    ensures |r| == |pool|
    decreases |stopped|
  {
    if stopped == [] then pool
    else ReleaseNote(NoteOffPass(pool, stopped[..|stopped| - 1], release, sampleRate), stopped[|stopped| - 1], release, sampleRate)
  }

  /**
   * After the third pass no voice is still playing a stopped note; every
   * voice that was playing one is inactive and in Release; every other
   * voice is untouched.
   */
  lemma {:induction false} NoteOffPassReleases(pool: seq<VoiceState>, stopped: seq<int>, release: real, sampleRate: real)
    requires release > 0.0 && sampleRate > 0.0
    ensures var r := NoteOffPass(pool, stopped, release, sampleRate);
      && (forall k :: 0 <= k < |pool| && r[k].active ==> r[k].midiNote !in stopped)
      && (forall k :: 0 <= k < |pool| && pool[k].active && pool[k].midiNote in stopped ==>
            !r[k].active && r[k].envelopeState == Release && r[k].midiNote == pool[k].midiNote)
      && (forall k :: 0 <= k < |pool| && !(pool[k].active && pool[k].midiNote in stopped) ==> r[k] == pool[k])
    decreases |stopped|
  {
    if stopped != [] {
      var pre := stopped[..|stopped| - 1];
      var n := stopped[|stopped| - 1];
      NoteOffPassReleases(pool, pre, release, sampleRate);
      assert forall x :: x in stopped <==> x in pre || x == n;
    }
  }

  /** The timeout pass: active voices that have timed out are force-stopped. */
  function TimeoutPass(pool: seq<VoiceState>, now: int): (r: seq<VoiceState>)
    ensures |r| == |pool|
  {
    seq(|pool|, k requires 0 <= k < |pool| =>
      if pool[k].active && TimedOut(pool[k], now) then ForceStopped(pool[k]) else pool[k])
  }

  /** After the timeout pass no active voice has timed out, and the ones stopped are Idle and silent. */
  lemma TimeoutPassStops(pool: seq<VoiceState>, now: int)
    ensures var r := TimeoutPass(pool, now);
      && (forall k :: 0 <= k < |pool| && r[k].active ==> !TimedOut(r[k], now))
      && (forall k :: 0 <= k < |pool| && pool[k].active && TimedOut(pool[k], now) ==>
            r[k].envelopeState == Idle && r[k].envelopeLevel == 0.0)
  {
  }

  // ---------------------------------------------------------------------
  // The envelope, sample by sample
  // ---------------------------------------------------------------------

  /** The envelope's per-sample bookkeeping: the voice after processEnvelope, and the increment it chose. */
  datatype EnvelopeResult = EnvelopeResult(voice: VoiceState, increment: real)

  /** processEnvelope: the state machine Idle / Attack / Decay / Sustain / Release. */
  function EnvelopeStep(v: VoiceState, adsr: ADSRParams, sampleRate: real): EnvelopeResult
    requires sampleRate > 0.0
  {
    match v.envelopeState
    case Attack =>
      var inc := if adsr.attack > 0.0 then 1.0 / InSamples(adsr.attack, sampleRate) else 1.0 / InSamples(0.001, sampleRate);
      if v.envelopeLevel >= 1.0 then EnvelopeResult(v.(envelopeLevel := 1.0, envelopeState := Decay), inc)
      else EnvelopeResult(v, inc)
    case Decay =>
      var inc := if adsr.decay > 0.0 then (adsr.sustain - 1.0) / InSamples(adsr.decay, sampleRate) else adsr.sustain - 1.0;
      if v.envelopeLevel <= adsr.sustain then EnvelopeResult(v.(envelopeLevel := adsr.sustain, envelopeState := Sustain), 0.0)
      else EnvelopeResult(v, inc)
    case Sustain =>
      var held := v.(envelopeLevel := adsr.sustain);
      if !v.active then EnvelopeResult(held.(envelopeState := Release), -0.01)
      else EnvelopeResult(held, 0.0)
    case Release =>
      var inc := ReleaseIncrement(v.envelopeLevel, adsr.release, sampleRate);
      if v.envelopeLevel <= 0.001 then EnvelopeResult(v.(envelopeLevel := 0.0, envelopeState := Idle, active := false), 0.0)
      else EnvelopeResult(v, inc)
    case Idle =>
      EnvelopeResult(v.(envelopeLevel := 0.0, active := false), 0.0)
  }

  /** A time in seconds as a number of samples. */
  function InSamples(seconds: real, sampleRate: real): (r: real)
    ensures seconds > 0.0 && sampleRate > 0.0 ==> r > 0.0
  {
    seconds * sampleRate
  }

  function Max(a: real, b: real): real {
    if a >= b then a else b
  }

  /**
   * The release increment: the level over the release time in samples,
   * but never a smaller step than 0.0001; a release time of at most
   * 0.001 s drops by 0.1 per sample.
   */
  function ReleaseIncrement(level: real, release: real, sampleRate: real): real
    requires sampleRate > 0.0
  {
    if release > 0.001 then
      var releaseRate := Max(0.001, level) / InSamples(release, sampleRate);
      if releaseRate < 0.0001 then -0.0001 else -releaseRate
    else -0.1
  }

  /**
   * The transitions of the state machine: each state either stays or
   * moves to its one successor, exactly at the documented thresholds;
   * pitch, position and timing fields are never touched.
   */
  lemma EnvelopeTransitions(v: VoiceState, adsr: ADSRParams, sampleRate: real)
    requires sampleRate > 0.0
    ensures var r := EnvelopeStep(v, adsr, sampleRate).voice;
      && r.midiNote == v.midiNote && r.phase == v.phase && r.position == v.position
      && r.noteStartTime == v.noteStartTime && r.chordPosition == v.chordPosition
      && (v.envelopeState == Attack ==>
            if v.envelopeLevel >= 1.0 then r.envelopeState == Decay && r.envelopeLevel == 1.0
            else r == v)
      && (v.envelopeState == Decay ==>
            if v.envelopeLevel <= adsr.sustain then r.envelopeState == Sustain && r.envelopeLevel == adsr.sustain
            else r == v)
      && (v.envelopeState == Sustain ==>
            r.envelopeLevel == adsr.sustain && r.active == v.active &&
            (r.envelopeState == Release <==> !v.active) && (v.active ==> r.envelopeState == Sustain))
      && (v.envelopeState == Release ==>
            if v.envelopeLevel <= 0.001 then r.envelopeState == Idle && !r.active && r.envelopeLevel == 0.0
            else r == v)
      && (v.envelopeState == Idle ==> r.envelopeState == Idle && !r.active && r.envelopeLevel == 0.0)
  {
  }

  /** The release ramp: while the level is above 0.001 it falls by at least 0.0001 per sample. */
  lemma ReleaseIncrementBound(v: VoiceState, adsr: ADSRParams, sampleRate: real)
    requires sampleRate > 0.0 && adsr.release > 0.0
    requires v.envelopeState == Release && v.envelopeLevel > 0.001
    ensures EnvelopeStep(v, adsr, sampleRate).increment <= -0.0001
  {
    if adsr.release > 0.001 {
      var releaseRate := Max(0.001, v.envelopeLevel) / InSamples(adsr.release, sampleRate);
      assert releaseRate > 0.0;
    }
  }

  /** Attack rises by a positive step (levels are then clamped at 1). */
  lemma AttackIncrementPositive(v: VoiceState, adsr: ADSRParams, sampleRate: real)
    requires sampleRate > 0.0 && v.envelopeState == Attack
    ensures EnvelopeStep(v, adsr, sampleRate).increment > 0.0
  {
    if adsr.attack > 0.0 {
      assert InSamples(adsr.attack, sampleRate) > 0.0;
    } else {
      assert InSamples(0.001, sampleRate) > 0.0;
    }
  }

  /** Level clamping of renderVoice. */
  function ClampLevel(x: real): (r: real)
    ensures 0.0 <= r <= 1.0
    ensures 0.0 <= x <= 1.0 ==> r == x
  {
    if x > 1.0 then 1.0 else if x < 0.0 then 0.0 else x
  }

  /** Phase advance of renderVoice: add the increment, wrap once from 1 back by 1. */
  function AdvancePhase(phase: real, phaseIncrement: real): (r: real)
    ensures 0.0 <= phase < 1.0 && 0.0 <= phaseIncrement < 1.0 ==> 0.0 <= r < 1.0
  {
    var p := phase + phaseIncrement;
    if p >= 1.0 then p - 1.0 else p
  }

  /** One rendered sample: envelope step, increment applied and clamped, phase advanced. */
  function Sample(v: VoiceState, adsr: ADSRParams, sampleRate: real, phaseIncrement: real): (r: VoiceState)
    requires sampleRate > 0.0
    ensures 0.0 <= r.envelopeLevel <= 1.0
  {
    var e := EnvelopeStep(v, adsr, sampleRate);
    e.voice.(envelopeLevel := ClampLevel(e.voice.envelopeLevel + e.increment),
             phase := AdvancePhase(e.voice.phase, phaseIncrement))
  }

  /** After any rendered sample an Idle voice is inactive and silent, and a voice never comes back from Idle. */
  lemma SampleSettles(v: VoiceState, adsr: ADSRParams, sampleRate: real, phaseIncrement: real)
    requires sampleRate > 0.0
    ensures Settled(Sample(v, adsr, sampleRate, phaseIncrement))
    ensures v.envelopeState == Idle ==> Sample(v, adsr, sampleRate, phaseIncrement).envelopeState == Idle
  {
  }

  /** In Release a sample lowers the level by at least 0.0001 (to no less than 0), or ends the note. */
  lemma ReleaseSampleFalls(v: VoiceState, adsr: ADSRParams, sampleRate: real, phaseIncrement: real)
    requires sampleRate > 0.0 && adsr.release > 0.0 && v.envelopeState == Release
    ensures var r := Sample(v, adsr, sampleRate, phaseIncrement);
      if v.envelopeLevel <= 0.001 then r.envelopeState == Idle && r.envelopeLevel == 0.0 && !r.active
      else r.envelopeState == Release && (r.envelopeLevel <= v.envelopeLevel - 0.0001 || r.envelopeLevel == 0.0)
  {
    if v.envelopeLevel > 0.001 {
      ReleaseIncrementBound(v, adsr, sampleRate);
    }
  }

  /** n samples, one after the other. */
  function RenderSamples(v: VoiceState, adsr: ADSRParams, sampleRate: real, phaseIncrement: real, n: nat): VoiceState
    requires sampleRate > 0.0
    decreases n
  {
    if n == 0 then v else RenderSamples(Sample(v, adsr, sampleRate, phaseIncrement), adsr, sampleRate, phaseIncrement, n - 1)
  }

  /** Once Idle, a voice stays Idle, inactive and silent however long it is rendered. */
  lemma {:induction false} IdleStays(v: VoiceState, adsr: ADSRParams, sampleRate: real, phaseIncrement: real, n: nat)
    requires sampleRate > 0.0 && v.envelopeState == Idle && Settled(v)
    ensures var r := RenderSamples(v, adsr, sampleRate, phaseIncrement, n);
      r.envelopeState == Idle && !r.active && r.envelopeLevel == 0.0
    decreases n
  {
    if n > 0 {
      SampleSettles(v, adsr, sampleRate, phaseIncrement);
      IdleStays(Sample(v, adsr, sampleRate, phaseIncrement), adsr, sampleRate, phaseIncrement, n - 1);
    }
  }

  /**
   * A voice in Release reaches Idle within a bounded number of samples:
   * from level L it takes at most n samples once 0.001 + 0.0001(n-1) >= L.
   */
  lemma {:induction false} ReleaseReachesIdle(v: VoiceState, adsr: ADSRParams, sampleRate: real, phaseIncrement: real, n: nat)
    requires sampleRate > 0.0 && adsr.release > 0.0 && v.envelopeState == Release
    requires n >= 1 && v.envelopeLevel <= 0.001 + 0.0001 * (n - 1) as real
    ensures var r := RenderSamples(v, adsr, sampleRate, phaseIncrement, n);
      r.envelopeState == Idle && !r.active && r.envelopeLevel == 0.0
    decreases n
  {
    var w := Sample(v, adsr, sampleRate, phaseIncrement);
    ReleaseSampleFalls(v, adsr, sampleRate, phaseIncrement);
    if v.envelopeLevel <= 0.001 {
      IdleStays(w, adsr, sampleRate, phaseIncrement, n - 1);
    } else if w.envelopeLevel == 0.0 {
      ReleaseReachesIdle(w, adsr, sampleRate, phaseIncrement, 1);
      if n >= 2 {
        IdleStays(Sample(w, adsr, sampleRate, phaseIncrement), adsr, sampleRate, phaseIncrement, n - 2);
      }
    } else {
      ReleaseReachesIdle(w, adsr, sampleRate, phaseIncrement, n - 1);
    }
  }

  /** From any level in [0, 1], a released voice is Idle after 10000 samples. */
  lemma ReleaseWithinTenThousand(v: VoiceState, adsr: ADSRParams, sampleRate: real, phaseIncrement: real)
    requires sampleRate > 0.0 && adsr.release > 0.0 && v.envelopeState == Release && v.envelopeLevel <= 1.0
    ensures RenderSamples(v, adsr, sampleRate, phaseIncrement, 10000).envelopeState == Idle
  {
    ReleaseReachesIdle(v, adsr, sampleRate, phaseIncrement, 10000);
  }

  /** renderVoice for a stereo buffer: numSamples samples, then a voice faded out in Release is put to Idle. */
  function Rendered(v: VoiceState, adsr: ADSRParams, sampleRate: real, phaseIncrement: real, numSamples: nat): VoiceState
    requires sampleRate > 0.0
  {
    var w := RenderSamples(v, adsr, sampleRate, phaseIncrement, numSamples);
    if w.envelopeLevel <= 0.001 && w.envelopeState == Release then
      w.(envelopeLevel := 0.0, envelopeState := Idle, active := false)
    else w
  }

  /** The condition under which process renders a voice; every other voice is reset to Idle and silence. */
  predicate Sounding(v: VoiceState) {
    v.active || (v.envelopeState != Idle && v.envelopeLevel > 0.0)
  }

  /**
   * The last loop of process for one voice. A buffer with fewer than two
   * channels makes renderVoice return before touching the voice.
   */
  function RenderOrReset(v: VoiceState, adsr: ADSRParams, sampleRate: real, numSamples: nat, numChannels: int,
                         frequency: int -> real): VoiceState
    requires sampleRate > 0.0
  {
    if Sounding(v) then
      if numChannels < 2 then v else Rendered(v, adsr, sampleRate, frequency(v.midiNote) / sampleRate, numSamples)
    else v.(envelopeState := Idle, envelopeLevel := 0.0)
  }

  function RenderPass(pool: seq<VoiceState>, adsr: ADSRParams, sampleRate: real, numSamples: nat, numChannels: int,
                      frequency: int -> real): (r: seq<VoiceState>)
    requires sampleRate > 0.0
    ensures |r| == |pool|
  {
    seq(|pool|, k requires 0 <= k < |pool| => RenderOrReset(pool[k], adsr, sampleRate, numSamples, numChannels, frequency))
  }

  /**
   * Rendering keeps Idle voices inactive and silent, and leaves every
   * level in [0, 1] once at least one sample has been rendered.
   */
  lemma {:induction false} RenderSamplesKeeps(v: VoiceState, adsr: ADSRParams, sampleRate: real, phaseIncrement: real, n: nat)
    requires sampleRate > 0.0 && Settled(v)
    ensures var r := RenderSamples(v, adsr, sampleRate, phaseIncrement, n);
      Settled(r) && (n >= 1 || 0.0 <= v.envelopeLevel <= 1.0 ==> 0.0 <= r.envelopeLevel <= 1.0)
    decreases n
  {
    if n > 0 {
      SampleSettles(v, adsr, sampleRate, phaseIncrement);
      RenderSamplesKeeps(Sample(v, adsr, sampleRate, phaseIncrement), adsr, sampleRate, phaseIncrement, n - 1);
    }
  }

  /** The last loop of process keeps the pool invariant, and a voice it resets is Idle and silent. */
  lemma RenderOrResetKeeps(v: VoiceState, adsr: ADSRParams, sampleRate: real, numSamples: nat, numChannels: int,
                           frequency: int -> real)
    requires sampleRate > 0.0 && Settled(v)
    ensures var r := RenderOrReset(v, adsr, sampleRate, numSamples, numChannels, frequency);
      && Settled(r)
      && (!Sounding(v) ==> r.envelopeState == Idle && r.envelopeLevel == 0.0)
      && (Sounding(v) && numChannels >= 2 && numSamples >= 1 ==> 0.0 <= r.envelopeLevel <= 1.0)
  {
    if Sounding(v) && numChannels >= 2 {
      RenderSamplesKeeps(v, adsr, sampleRate, frequency(v.midiNote) / sampleRate, numSamples);
    }
  }

  // ---------------------------------------------------------------------
  // A whole block
  // ---------------------------------------------------------------------

  /** The voices after process: note-ons, then note-offs, then the timeout, then rendering. */
  function ProcessedPool(pool: seq<VoiceState>, midi: Buffer, width: real, adsr: ADSRParams, now: int,
                         sampleRate: real, numSamples: nat, numChannels: int, frequency: int -> real): seq<VoiceState>
    requires sampleRate > 0.0 && adsr.release > 0.0
  {
    var sortedNotes := JuceArray.Sort(HeldAfter([], midi));
    var started := NoteOnPass(pool, midi, sortedNotes, width, now);
    var stopped := NoteOffPass(started, NoteOffPitches(midi), adsr.release, sampleRate);
    var checked := TimeoutPass(stopped, now);
    RenderPass(checked, adsr, sampleRate, numSamples, numChannels, frequency)
  }

  /** Every pass keeps the pool invariant: an Idle voice is inactive and silent. */
  lemma {:induction false} NoteOnPassSettled(pool: seq<VoiceState>, b: Buffer, sortedNotes: seq<int>, width: real, now: int)
    requires AllSettled(pool)
    ensures AllSettled(NoteOnPass(pool, b, sortedNotes, width, now))
    decreases |b|
  {
    if b != [] {
      NoteOnPassSettled(pool, b[..|b| - 1], sortedNotes, width, now);
    }
  }

  lemma {:induction false} NoteOffPassSettled(pool: seq<VoiceState>, stopped: seq<int>, release: real, sampleRate: real)
    requires release > 0.0 && sampleRate > 0.0 && AllSettled(pool)
    ensures AllSettled(NoteOffPass(pool, stopped, release, sampleRate))
    decreases |stopped|
  {
    if stopped != [] {
      NoteOffPassSettled(pool, stopped[..|stopped| - 1], release, sampleRate);
    }
  }

  /**
   * A block keeps the pool invariant: if every Idle voice was inactive
   * and silent before process, the same holds after it.
   */
  lemma ProcessKeepsSettled(pool: seq<VoiceState>, midi: Buffer, width: real, adsr: ADSRParams, now: int,
                            sampleRate: real, numSamples: nat, numChannels: int, frequency: int -> real)
    requires sampleRate > 0.0 && adsr.release > 0.0 && AllSettled(pool)
    ensures AllSettled(ProcessedPool(pool, midi, width, adsr, now, sampleRate, numSamples, numChannels, frequency))
  {
    var sortedNotes := JuceArray.Sort(HeldAfter([], midi));
    var started := NoteOnPass(pool, midi, sortedNotes, width, now);
    NoteOnPassSettled(pool, midi, sortedNotes, width, now);
    var stopped := NoteOffPass(started, NoteOffPitches(midi), adsr.release, sampleRate);
    NoteOffPassSettled(started, NoteOffPitches(midi), adsr.release, sampleRate);
    var checked := TimeoutPass(stopped, now);
    var r := RenderPass(checked, adsr, sampleRate, numSamples, numChannels, frequency);
    forall k | 0 <= k < |r|
      ensures Settled(r[k])
    {
      RenderOrResetKeeps(checked[k], adsr, sampleRate, numSamples, numChannels, frequency);
    }
  }

  /**
   * Note-ons are handled before note-offs: after the third pass no voice
   * is still active on a pitch that got a note-off anywhere in the block,
   * even when its note-on came later in the block.
   */
  lemma StoppedNotesSilenced(pool: seq<VoiceState>, midi: Buffer, width: real, adsr: ADSRParams, now: int, sampleRate: real,
                             p: int)
    requires sampleRate > 0.0 && adsr.release > 0.0 && HasNoteOff(midi, p)
    ensures var started := NoteOnPass(pool, midi, JuceArray.Sort(HeldAfter([], midi)), width, now);
      var stopped := NoteOffPass(started, NoteOffPitches(midi), adsr.release, sampleRate);
      forall k :: 0 <= k < |stopped| && stopped[k].midiNote == p ==> !stopped[k].active
  {
    var started := NoteOnPass(pool, midi, JuceArray.Sort(HeldAfter([], midi)), width, now);
    NoteOffPitchesSpec(midi);
    NoteOffPassReleases(started, NoteOffPitches(midi), adsr.release, sampleRate);
  }

  // ---------------------------------------------------------------------
  // The engine
  // ---------------------------------------------------------------------

  /** SpatialEngine::Voice: one voice of the pool, updated in place. */
  class Voice {
    var midiNote: int
    var active: bool
    var position: real
    var phase: real
    var chordPosition: int
    var noteStartTime: int
    var envelopeState: EnvelopeState
    var envelopeLevel: real
    var filterState: real
    var highpassState: real

    /** The voice's fields as a value. */
    function Value(): VoiceState
      reads this
    {
      VoiceState(midiNote, active, position, phase, chordPosition, noteStartTime,
                 envelopeState, envelopeLevel, filterState, highpassState)
    }

    /** The declared initial values. */
    constructor()
      ensures Value() == SilentVoice
    {
      midiNote := 0;
      active := false;
      position := 0.0;
      phase := 0.0;
      chordPosition := 0;
      noteStartTime := 0;
      envelopeState := Idle;
      envelopeLevel := 0.0;
      filterState := 0.0;
      highpassState := 0.0;
    }

    /** Start a note at time `now`: active, in Attack from level 0, phase and filters cleared. */
    method Trigger(note: int, pos: real, chordPos: int, now: int)
      modifies this
      ensures Value() == Triggered(note, pos, chordPos, now)
    {
      midiNote := note;
      active := true;
      position := pos;
      chordPosition := chordPos;
      envelopeState := Attack;
      noteStartTime := now;
      envelopeLevel := 0.0;
      phase := 0.0;
      filterState := 0.0;
      highpassState := 0.0;
    }

    /** Let go of the note: inactive, and into Release unless already Idle. */
    method Release()
      modifies this`active, this`envelopeState
      ensures Value() == Released(old(Value()))
    {
      active := false;
      if envelopeState != Idle {
        envelopeState := EnvelopeState.Release;
      }
    }

    /** Voice::isAudible: still meant to sound and with a level above 0. */
    predicate IsAudible()
      reads this
    {
      (active || envelopeState != Idle) && envelopeLevel > 0.0
    }

    /** Stop at once: inactive, Idle, silent, filters cleared. */
    method ForceStop()
      modifies this`active, this`envelopeState, this`envelopeLevel, this`filterState, this`highpassState
      ensures Value() == ForceStopped(old(Value()))
    {
      active := false;
      envelopeState := Idle;
      envelopeLevel := 0.0;
      filterState := 0.0;
      highpassState := 0.0;
    }

    /** The note has played for more than noteMaxDuration milliseconds. */
    predicate HasTimedOut(currentTime: int)
      reads this
    {
      currentTime - noteStartTime > NoteMaxDuration
    }
  }

  class SpatialEngine {
    /** The pool: std::array<Voice, 16>. The voices themselves never change identity; their fields do. */
    const voices: seq<Voice>
    var sampleRate: real
    var samplesPerBlock: int
    /** The held user notes after the last block, for the keyboard display. */
    var userInputNotes: seq<int>
    /** The pitches of the last non-empty harmony output, for the keyboard display. */
    var generatedNotes: seq<int>
    /** The harmony engine's last output, stored by setChordOutput. */
    var chordOutput: Buffer

    ghost predicate Valid()
      reads this
    {
      && |voices| == PoolSize
      && (forall i, j :: 0 <= i < j < |voices| ==> voices[i] != voices[j])
      && sampleRate > 0.0
    }

    /** The pool's voices as values. */
    function Values(): (r: seq<VoiceState>)
      reads voices
      ensures |r| == |voices|
      ensures forall k :: 0 <= k < |voices| ==> r[k] == voices[k].Value()
    {
      seq(|voices|, k requires 0 <= k < |voices| reads voices => voices[k].Value())
    }

    /** Sixteen voices, all inactive, Idle and silent; no notes yet; 44.1 kHz. */
    constructor()
      ensures Valid()
      ensures forall k :: 0 <= k < |voices| ==> voices[k].Value() == SilentVoice
      ensures userInputNotes == [] && generatedNotes == [] && chordOutput == []
      ensures sampleRate == 44100.0 && samplesPerBlock == 512
    {
      var pool: seq<Voice> := [];
      for i := 0 to PoolSize
        invariant |pool| == i
        invariant forall a, b :: 0 <= a < b < i ==> pool[a] != pool[b]
        invariant forall a :: 0 <= a < i ==> pool[a].Value() == SilentVoice
      {
        var voice := new Voice();
        pool := pool + [voice];
      }
      voices := pool;
      sampleRate := 44100.0;
      samplesPerBlock := 512;
      userInputNotes := [];
      generatedNotes := [];
      chordOutput := [];
    }

    /** Take the host's sample rate and block size. */
    method Prepare(newSampleRate: real, newSamplesPerBlock: int)
      requires Valid() && newSampleRate > 0.0
      modifies this`sampleRate, this`samplesPerBlock
      ensures Valid()
      ensures sampleRate == newSampleRate && samplesPerBlock == newSamplesPerBlock
    {
      sampleRate := newSampleRate;
      samplesPerBlock := newSamplesPerBlock;
    }

    /** Keep the harmony engine's output for the keyboard display. */
    method SetChordOutput(output: Buffer)
      modifies this`chordOutput
      ensures chordOutput == output
    {
      chordOutput := output;
    }

    /** The notes to light on the keyboard: the user's held notes, then the harmony's, duplicates kept. */
    function GetActiveVoiceNotes(): (r: seq<int>)
      reads this
      ensures |r| == |userInputNotes| + |generatedNotes|
      ensures forall n :: n in r <==> n in userInputNotes || n in generatedNotes
      ensures r[..|userInputNotes|] == userInputNotes
    {
      userInputNotes + generatedNotes
    }

    /** The first Idle voice, or -1. */
    method FindFreeVoice() returns (index: int)
      requires Valid()
      ensures index == FirstWhere(Values(), IsFree)
    {
      for i := 0 to PoolSize
        invariant forall k :: 0 <= k < i ==> !IsFree(Values()[k])
      {
        if voices[i].envelopeState == Idle {
          return i;
        }
      }
      return -1;
    }

    /** The first voice that is inactive, in Release and below level 0.01, or -1. */
    method FindFadingVoice() returns (index: int)
      requires Valid()
      ensures index == FirstWhere(Values(), IsFading)
    {
      for i := 0 to PoolSize
        invariant forall k :: 0 <= k < i ==> !IsFading(Values()[k])
      {
        var voice := voices[i];
        if !voice.active && voice.envelopeState == EnvelopeState.Release && voice.envelopeLevel < 0.01 {
          return i;
        }
      }
      return -1;
    }

    /** The first voice with the strictly earliest start time before `now`, or -1. */
    method FindOldestVoice(now: int) returns (index: int)
      requires Valid()
      ensures index == Oldest(Values(), now)
    {
      var oldestTime := now;
      index := -1;
      for i := 0 to PoolSize
        invariant (index, oldestTime) == OldestScan(Values(), i, now)
      {
        if voices[i].noteStartTime < oldestTime {
          oldestTime := voices[i].noteStartTime;
          index := i;
        }
      }
    }

    /** Trigger voice `index` for a note, placed by its position in the sorted held notes. */
    method TriggerVoice(index: int, noteNumber: int, sortedNotes: seq<int>, spatialWidth: real, now: int)
      requires Valid() && 0 <= index < PoolSize
      modifies voices
      ensures var chordPosition := JuceArray.IndexOf(sortedNotes, noteNumber);
        Values() == old(Values())[index := Triggered(noteNumber, CalculatePosition(noteNumber, chordPosition, spatialWidth),
                                                     chordPosition, now)]
    {
      var chordPosition := JuceArray.IndexOf(sortedNotes, noteNumber);
      voices[index].Trigger(noteNumber, CalculatePosition(noteNumber, chordPosition, spatialWidth), chordPosition, now);
      voices[index].envelopeLevel := 0.0;
    }

    /** One note-on of the second pass: try the three tiers in turn; trigger the voice found, if any. */
    method AllocateVoice(noteNumber: int, sortedNotes: seq<int>, spatialWidth: real, now: int)
      requires Valid()
      modifies voices
      ensures Values() == NoteOn(old(Values()), noteNumber, sortedNotes, spatialWidth, now)
    {
      ghost var pool := Values();
      var index := FindFreeVoice();
      if index < 0 {
        index := FindFadingVoice();
      }
      if index < 0 {
        index := FindOldestVoice(now);
      }
      assert index == AllocIndex(pool, now);
      if index >= 0 {
        TriggerVoice(index, noteNumber, sortedNotes, spatialWidth, now);
      }
    }

    /** The second pass: every note-on of the block gets a voice, in order. */
    method AllocateNoteOns(midi: Buffer, sortedNotes: seq<int>, spatialWidth: real, now: int)
      requires Valid()
      modifies voices
      ensures Values() == NoteOnPass(old(Values()), midi, sortedNotes, spatialWidth, now)
    {
      ghost var v0 := Values();
      for i := 0 to |midi|
        invariant Values() == NoteOnPass(v0, midi[..i], sortedNotes, spatialWidth, now)
      {
        var message := midi[i].message;
        if IsNoteOn(message) {
          AllocateVoice(message.pitch, sortedNotes, spatialWidth, now);
        }
        assert midi[..i + 1][..i] == midi[..i];
      }
      assert midi[..|midi|] == midi;
    }

    /** One stopped note of the third pass: every voice playing it goes into Release with a first decrement. */
    method ReleaseVoicesOf(noteNumber: int, release: real)
      requires Valid() && release > 0.0
      modifies voices
      ensures Values() == ReleaseNote(old(Values()), noteNumber, release, sampleRate)
    {
      for k := 0 to PoolSize
        invariant forall j :: 0 <= j < k ==>
          voices[j].Value() == ReleaseIfPlaying(old(voices[j].Value()), noteNumber, release, sampleRate)
        invariant forall j :: k <= j < PoolSize ==> voices[j].Value() == old(voices[j].Value())
      {
        var voice := voices[k];
        if voice.active && voice.midiNote == noteNumber {
          voice.active := false;
          voice.envelopeState := EnvelopeState.Release;
          var releaseRate := voice.envelopeLevel / InSamples(release, sampleRate);
          voice.envelopeLevel := voice.envelopeLevel - releaseRate * 0.1;
        }
      }
    }

    /** The third pass: each stopped note in turn. */
    method ReleaseStoppedNotes(stoppedNotes: seq<int>, release: real)
      requires Valid() && release > 0.0
      modifies voices
      ensures Values() == NoteOffPass(old(Values()), stoppedNotes, release, sampleRate)
    {
      ghost var v0 := Values();
      for i := 0 to |stoppedNotes|
        invariant Values() == NoteOffPass(v0, stoppedNotes[..i], release, sampleRate)
      {
        ReleaseVoicesOf(stoppedNotes[i], release);
        assert stoppedNotes[..i + 1][..i] == stoppedNotes[..i];
      }
      assert stoppedNotes[..|stoppedNotes|] == stoppedNotes;
    }

    /** The safety check: active voices older than the limit are force-stopped. */
    method StopTimedOutVoices(currentTime: int)
      requires Valid()
      modifies voices
      ensures Values() == TimeoutPass(old(Values()), currentTime)
    {
      for k := 0 to PoolSize
        invariant forall j :: 0 <= j < k ==>
          voices[j].Value() == (if old(voices[j].Value()).active && TimedOut(old(voices[j].Value()), currentTime)
                                then ForceStopped(old(voices[j].Value())) else old(voices[j].Value()))
        invariant forall j :: k <= j < PoolSize ==> voices[j].Value() == old(voices[j].Value())
      {
        var voice := voices[k];
        if voice.active && voice.HasTimedOut(currentTime) {
          voice.ForceStop();
        }
      }
    }

    /** processEnvelope: one step of the voice's envelope; the increment to apply is returned. */
    method ProcessEnvelope(voice: Voice, adsr: ADSRParams) returns (envelopeIncrement: real)
      requires sampleRate > 0.0
      modifies voice
      ensures EnvelopeResult(voice.Value(), envelopeIncrement) == EnvelopeStep(old(voice.Value()), adsr, sampleRate)
    {
      envelopeIncrement := 0.0;
      match voice.envelopeState {
        case Attack =>
          if adsr.attack > 0.0 {
            envelopeIncrement := 1.0 / InSamples(adsr.attack, sampleRate);
          } else {
            envelopeIncrement := 1.0 / InSamples(0.001, sampleRate);
          }
          if voice.envelopeLevel >= 1.0 {
            voice.envelopeLevel := 1.0;
            voice.envelopeState := Decay;
          }
        case Decay =>
          if adsr.decay > 0.0 {
            envelopeIncrement := (adsr.sustain - 1.0) / InSamples(adsr.decay, sampleRate);
          } else {
            envelopeIncrement := adsr.sustain - 1.0;
          }
          if voice.envelopeLevel <= adsr.sustain {
            voice.envelopeLevel := adsr.sustain;
            voice.envelopeState := Sustain;
            envelopeIncrement := 0.0;
          }
        case Sustain =>
          envelopeIncrement := 0.0;
          voice.envelopeLevel := adsr.sustain;
          if !voice.active {
            voice.envelopeState := EnvelopeState.Release;
            envelopeIncrement := -0.01;
          }
        case Release =>
          if adsr.release > 0.001 {
            var releaseRate := Max(0.001, voice.envelopeLevel) / InSamples(adsr.release, sampleRate);
            envelopeIncrement := -releaseRate;
            if -envelopeIncrement < 0.0001 {
              envelopeIncrement := -0.0001;
            }
          } else {
            envelopeIncrement := -0.1;
          }
          if voice.envelopeLevel <= 0.001 {
            voice.envelopeLevel := 0.0;
            voice.envelopeState := Idle;
            voice.active := false;
            envelopeIncrement := 0.0;
          }
        case Idle =>
          envelopeIncrement := 0.0;
          voice.envelopeLevel := 0.0;
          voice.active := false;
      }
    }

    /** One sample of renderVoice's loop: envelope step, increment applied and clamped, phase advanced and wrapped. */
    method RenderSample(voice: Voice, adsr: ADSRParams, phaseIncrement: real)
      requires sampleRate > 0.0
      modifies voice
      ensures voice.Value() == Sample(old(voice.Value()), adsr, sampleRate, phaseIncrement)
    {
      var envelopeIncrement := ProcessEnvelope(voice, adsr);
      voice.envelopeLevel := voice.envelopeLevel + envelopeIncrement;
      if voice.envelopeLevel > 1.0 {
        voice.envelopeLevel := 1.0;
      } else if voice.envelopeLevel < 0.0 {
        voice.envelopeLevel := 0.0;
      }
      voice.phase := voice.phase + phaseIncrement;
      if voice.phase >= 1.0 {
        voice.phase := voice.phase - 1.0;
      }
    }

    /**
     * The envelope and phase bookkeeping of renderVoice: per sample, step
     * the envelope, apply and clamp the increment, advance and wrap the
     * phase; afterwards put a faded-out releasing voice to Idle.
     */
    method RenderVoice(voice: Voice, numSamples: nat, numChannels: int, adsr: ADSRParams, frequency: int -> real)
      requires sampleRate > 0.0
      modifies voice
      ensures voice.Value() ==
        if numChannels < 2 then old(voice.Value())
        else Rendered(old(voice.Value()), adsr, sampleRate, frequency(old(voice.midiNote)) / sampleRate, numSamples)
    {
      if numChannels < 2 {
        return;
      }
      var phaseIncrement := frequency(voice.midiNote) / sampleRate;
      ghost var v0 := voice.Value();
      for i := 0 to numSamples
        invariant RenderSamples(voice.Value(), adsr, sampleRate, phaseIncrement, numSamples - i) ==
                  RenderSamples(v0, adsr, sampleRate, phaseIncrement, numSamples)
      {
        RenderSample(voice, adsr, phaseIncrement);
      }
      if voice.envelopeLevel <= 0.001 && voice.envelopeState == EnvelopeState.Release {
        voice.envelopeLevel := 0.0;
        voice.envelopeState := Idle;
        voice.active := false;
      }
    }

    /** The last loop of process: render every sounding voice, reset every other one to Idle and silence. */
    method RenderVoices(numSamples: nat, numChannels: int, adsr: ADSRParams, frequency: int -> real)
      requires Valid()
      modifies voices
      ensures Values() == RenderPass(old(Values()), adsr, sampleRate, numSamples, numChannels, frequency)
    {
      for k := 0 to PoolSize
        invariant forall j :: 0 <= j < k ==>
          voices[j].Value() == RenderOrReset(old(voices[j].Value()), adsr, sampleRate, numSamples, numChannels, frequency)
        invariant forall j :: k <= j < PoolSize ==> voices[j].Value() == old(voices[j].Value())
      {
        var voice := voices[k];
        if voice.active || (voice.envelopeState != Idle && voice.envelopeLevel > 0.0) {
          RenderVoice(voice, numSamples, numChannels, adsr, frequency);
        } else {
          voice.envelopeState := Idle;
          voice.envelopeLevel := 0.0;
        }
      }
    }

    /** The first pass: the notes held at the end of the block and the notes stopped in it, in order. */
    static method CollectNotes(midi: Buffer) returns (activeNotes: seq<int>, stoppedNotes: seq<int>)
      ensures activeNotes == HeldAfter([], midi)
      ensures stoppedNotes == NoteOffPitches(midi)
    {
      activeNotes := [];
      stoppedNotes := [];
      for i := 0 to |midi|
        invariant activeNotes == HeldAfter([], midi[..i])
        invariant stoppedNotes == NoteOffPitches(midi[..i])
      {
        var message := midi[i].message;
        if IsNoteOn(message) {
          activeNotes := JuceArray.AddIfAbsent(activeNotes, message.pitch);
        } else if IsNoteOff(message) {
          stoppedNotes := stoppedNotes + [message.pitch];
          activeNotes := JuceArray.RemoveFirst(activeNotes, message.pitch);
        }
        assert midi[..i + 1][..i] == midi[..i];
      }
      assert midi[..|midi|] == midi;
    }

    /** The display list of harmony notes: the distinct note-on pitches of the stored harmony output. */
    method UpdateGeneratedNotes()
      modifies this`generatedNotes
      ensures generatedNotes == NoteOnPitches(chordOutput)
    {
      generatedNotes := [];
      for i := 0 to |chordOutput|
        invariant NoteOnPitchesFrom(generatedNotes, chordOutput[i..]) == NoteOnPitches(chordOutput)
      {
        var message := chordOutput[i].message;
        if IsNoteOn(message) {
          generatedNotes := JuceArray.AddIfAbsent(generatedNotes, message.pitch);
        }
        assert chordOutput[i..][1..] == chordOutput[i + 1..];
      }
    }

    /**
     * process: collect the block's held and stopped notes, allocate
     * voices to the note-ons, release the stopped notes, refresh the
     * harmony display list, stop timed-out voices and render.
     */
    method Process(midi: Buffer, spatialWidth: real, volume: real, adsr: ADSRParams, currentTime: int,
                   numSamples: nat, numChannels: int, frequency: int -> real)
      requires Valid() && adsr.release > 0.0
      modifies this`userInputNotes, this`generatedNotes, voices
      ensures Valid()
      ensures Values() == ProcessedPool(old(Values()), midi, spatialWidth, adsr, currentTime, sampleRate,
                                        numSamples, numChannels, frequency)
      ensures userInputNotes == HeldAfter([], midi)
      ensures generatedNotes == if chordOutput == [] then old(generatedNotes) else NoteOnPitches(chordOutput)
    {
      ghost var v0 := Values();
      var activeNotes, stoppedNotes := CollectNotes(midi);
      userInputNotes := activeNotes;
      var sortedNotes := JuceArray.Sort(activeNotes);
      assert Values() == v0;
      AllocateNoteOns(midi, sortedNotes, spatialWidth, currentTime);
      ghost var v1 := NoteOnPass(v0, midi, sortedNotes, spatialWidth, currentTime);
      ReleaseStoppedNotes(stoppedNotes, adsr.release);
      ghost var v2 := NoteOffPass(v1, stoppedNotes, adsr.release, sampleRate);
      assert Values() == v2;
      if chordOutput != [] {
        UpdateGeneratedNotes();
      }
      assert Values() == v2;
      StopTimedOutVoices(currentTime);
      ghost var v3 := TimeoutPass(v2, currentTime);
      RenderVoices(numSamples, numChannels, adsr, frequency);
    }
  }
}
