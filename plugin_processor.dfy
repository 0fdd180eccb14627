/**
 * The glue of processBlock in PluginProcessor.cpp: which pitches the
 * ribbons arpeggiate, how ribbon notes become MIDI events, which stream
 * the synth voices hear, and the "releasing notes" list of the keyboard
 * display.
 */
module Plugin {
  import opened JuceMath
  import opened Midi
  import opened Envelope
  import JuceArray
  import Ribbons
  import ChordEngine
  import Spatial

  // ----------------------------------------------------------------------
  // The ribbon source set
  // ----------------------------------------------------------------------

  /**
   * The pitches the ribbons arpeggiate: every note-on pitch of the
   * user's block, then every note-on pitch of the harmony output, each
   * once (`addIfNotAlreadyThere` over both buffers in turn).
   */
  function RibbonSource(user: Buffer, harmony: Buffer): seq<int> {
    NoteOnPitchesFrom(NoteOnPitches(user), harmony)
  }

  /**
   * The source set holds each pitch once, exactly the note-on pitches of
   * either buffer, the user's in first-occurrence order in front and after
   * them only harmony pitches the user did not play.
   */
  lemma RibbonSourceSpec(user: Buffer, harmony: Buffer)
    ensures var r := RibbonSource(user, harmony);
      JuceArray.Distinct(r) &&
      (forall p :: p in r <==> HasNoteOn(user, p) || HasNoteOn(harmony, p)) &&
      |NoteOnPitches(user)| <= |r| && r[..|NoteOnPitches(user)|] == NoteOnPitches(user) &&
      forall k :: |NoteOnPitches(user)| <= k < |r| ==> !HasNoteOn(user, r[k]) && HasNoteOn(harmony, r[k])
  {
    NoteOnPitchesFromExtends(NoteOnPitches(user), harmony);
  }

  /** A list with no members is empty. */
  lemma NoMembersEmpty(r: seq<int>)
    requires forall p :: p !in r
    ensures r == []
  {
    forall x ensures multiset(r)[x] == 0 {
      assert x !in r;
    }
    assert multiset(r) == multiset{};
  }

  /** The ribbon engine is consulted only when ribbons are on and there is something to arpeggiate. */
  predicate RibbonsConsulted(enableRibbons: bool, source: seq<int>) {
    enableRibbons && source != []
  }

  /** A block whose user input and harmony output hold no note-on never consults the ribbons. */
  lemma SilentBlockSkipsRibbons(user: Buffer, harmony: Buffer, enableRibbons: bool)
    requires forall k :: 0 <= k < |user| ==> !IsNoteOn(user[k].message)
    requires forall k :: 0 <= k < |harmony| ==> !IsNoteOn(harmony[k].message)
    ensures !RibbonsConsulted(enableRibbons, RibbonSource(user, harmony))
  {
    RibbonSourceSpec(user, harmony);
    NoMembersEmpty(RibbonSource(user, harmony));
  }

  /**
   * The ribbon parameters processBlock fills in from the host: the switch
   * is on above 0.5, the count is truncated to an int, the five master
   * controls are copied, and the per-ribbon configurations keep their
   * declared defaults until the engine overwrites them.
   */
  function HostRibbonParams(enable: real, count: real, pulse: real, variation: real, wobble: real,
                            swing: real, shimmer: real): (r: Ribbons.RibbonParams)
    ensures r.enableRibbons <==> enable > 0.5
    ensures count >= 0.0 ==> r.activeRibbons == count.Floor
    ensures r.pulse == pulse && r.variation == variation && r.wobble == wobble
    ensures r.swing == swing && r.shimmer == shimmer
    ensures forall i :: 0 <= i < Ribbons.MaxRibbons ==> r.ribbons[i] == Ribbons.DefaultConfig
  {
    var defaults: Ribbons.RibbonConfigs :=
      [Ribbons.DefaultConfig, Ribbons.DefaultConfig, Ribbons.DefaultConfig, Ribbons.DefaultConfig, Ribbons.DefaultConfig];
    Ribbons.RibbonParams(TruncToInt(count), enable > 0.5, pulse, variation, wobble, swing, shimmer, defaults)
  }

  // ----------------------------------------------------------------------
  // Ribbon notes as MIDI
  // ----------------------------------------------------------------------

  /** The ribbon note-on velocity, boosted by a fifth and held in [0.7, 1]. */
  function RibbonVelocity(v: real): real {
    Limit(0.7, 1.0, v * 1.2)
  }

  /** A ribbon note-on always reaches the velocity byte in [89, 127]; inside the clamp it is 1.2 times the note's. */
  lemma RibbonVelocityByte(v: real)
    ensures 89 <= FloatToVelocityByte(RibbonVelocity(v)) <= 127
    ensures 0.7 <= v * 1.2 <= 1.0 ==> FloatToVelocityByte(RibbonVelocity(v)) == RoundToInt(v * 1.2 * 127.0)
  {
    var x := RibbonVelocity(v) * 127.0;
    assert 88.9 <= x <= 127.0;
    assert RoundToInt(x) as real >= x - 0.5;
  }

  /** The MIDI event of one active ribbon note, its position pushed into the block. */
  function RibbonEvent(n: Ribbons.RibbonNote, numSamples: int): (e: TimedMessage)
    ensures numSamples >= 1 ==> 0 <= e.samplePosition <= numSamples - 1
    ensures 0 <= n.bufferSamplePosition < numSamples ==> e.samplePosition == n.bufferSamplePosition
    ensures n.isNoteOn ==> IsNoteOn(e.message) && e.message.velocity == FloatToVelocityByte(RibbonVelocity(n.velocity))
    ensures !n.isNoteOn ==> e.message == NoteOffFor(n.midiNote)
    ensures 0 <= n.midiNote <= 127 ==> e.message.pitch == n.midiNote
  {
    RibbonVelocityByte(n.velocity);
    var position := LimitInt(0, numSamples - 1, n.bufferSamplePosition);
    if n.isNoteOn then TimedMessage(NoteOnFloat(n.midiNote, RibbonVelocity(n.velocity)), position)
    else TimedMessage(NoteOffFor(n.midiNote), position)
  }

  /** The events of the active ribbon notes, in the order processChord returned them. */
  function RibbonEvents(notes: seq<Ribbons.RibbonNote>, numSamples: int): seq<TimedMessage> {
    if notes == [] then []
    else (if notes[0].active then [RibbonEvent(notes[0], numSamples)] else []) + RibbonEvents(notes[1..], numSamples)
  }

  /** Every ribbon event comes from an active ribbon note, and every active note gives one. */
  lemma {:induction false} RibbonEventsSpec(notes: seq<Ribbons.RibbonNote>, numSamples: int)
    ensures forall e :: e in RibbonEvents(notes, numSamples) <==>
      exists n :: n in notes && n.active && e == RibbonEvent(n, numSamples)
    decreases |notes|
  {
    if notes != [] {
      RibbonEventsSpec(notes[1..], numSamples);
      assert notes == [notes[0]] + notes[1..];
      forall e ensures e in RibbonEvents(notes, numSamples) <==>
        exists n :: n in notes && n.active && e == RibbonEvent(n, numSamples)
      {
        if e in RibbonEvents(notes, numSamples) && !(notes[0].active && e == RibbonEvent(notes[0], numSamples)) {
          assert e in RibbonEvents(notes[1..], numSamples);
          var n :| n in notes[1..] && n.active && e == RibbonEvent(n, numSamples);
          assert n in notes;
        }
      }
    }
  }

  /** ribbonMidi: each event added to an empty MidiBuffer in turn. */
  function RibbonMidi(notes: seq<Ribbons.RibbonNote>, numSamples: int): Buffer {
    AddEvents([], RibbonEvents(notes, numSamples))
  }

  /**
   * ribbonMidi is time-ordered and holds exactly one event per active
   * ribbon note, each inside the block, each note-on at a velocity byte
   * of at least 89.
   */
  lemma RibbonMidiSpec(notes: seq<Ribbons.RibbonNote>, numSamples: int)
    ensures var b := RibbonMidi(notes, numSamples);
      TimeOrdered(b) &&
      multiset(b) == multiset(RibbonEvents(notes, numSamples)) &&
      (forall e :: e in b <==> exists n :: n in notes && n.active && e == RibbonEvent(n, numSamples)) &&
      (numSamples >= 1 ==> forall k :: 0 <= k < |b| ==> 0 <= b[k].samplePosition < numSamples) &&
      (forall k :: 0 <= k < |b| && IsNoteOn(b[k].message) ==> b[k].message.velocity >= 89)
  {
    var es := RibbonEvents(notes, numSamples);
    var b := RibbonMidi(notes, numSamples);
    AddEventsSpec([], es);
    RibbonEventsSpec(notes, numSamples);
    forall e ensures e in b <==> e in es {
      assert e in b <==> e in multiset(b);
      assert e in es <==> e in multiset(es);
    }
    forall k | 0 <= k < |b|
      ensures numSamples >= 1 ==> 0 <= b[k].samplePosition < numSamples
      ensures IsNoteOn(b[k].message) ==> b[k].message.velocity >= 89
    {
      assert b[k] in b;
      var n :| n in notes && n.active && b[k] == RibbonEvent(n, numSamples);
      RibbonVelocityByte(n.velocity);
    }
  }

  /**
   * activeRibbonNotes: the pitch of every active ribbon note-on, each once,
   * in first-occurrence order (`addIfNotAlreadyThere`).
   */
  function RibbonDisplay(notes: seq<Ribbons.RibbonNote>): seq<int> {
    RibbonDisplayFrom([], notes)
  }

  /** The display loop from a given list. */
  function RibbonDisplayFrom(acc: seq<int>, notes: seq<Ribbons.RibbonNote>): seq<int>
    decreases |notes|
  {
    if notes == [] then acc
    else
      var n := notes[0];
      RibbonDisplayFrom(if n.active && n.isNoteOn then JuceArray.AddIfAbsent(acc, n.midiNote) else acc, notes[1..])
  }

  /** The display loop keeps its list duplicate-free and adds exactly the active note-on pitches. */
  lemma {:induction false} RibbonDisplayFromSpec(acc: seq<int>, notes: seq<Ribbons.RibbonNote>)
    ensures JuceArray.Distinct(acc) ==> JuceArray.Distinct(RibbonDisplayFrom(acc, notes))
    ensures forall x :: x in RibbonDisplayFrom(acc, notes) <==>
      x in acc || exists n :: n in notes && n.active && n.isNoteOn && n.midiNote == x
    decreases |notes|
  {
    if notes != [] {
      var n := notes[0];
      var acc' := if n.active && n.isNoteOn then JuceArray.AddIfAbsent(acc, n.midiNote) else acc;
      RibbonDisplayFromSpec(acc', notes[1..]);
      assert notes == [n] + notes[1..];
      forall x ensures x in RibbonDisplayFrom(acc, notes) <==>
        x in acc || exists m :: m in notes && m.active && m.isNoteOn && m.midiNote == x
      {
        if x in RibbonDisplayFrom(acc, notes) && x !in acc' {
          var m :| m in notes[1..] && m.active && m.isNoteOn && m.midiNote == x;
          assert m in notes;
        }
      }
    }
  }

  /**
   * The display set is exactly the pitches of the emitted ribbon note-ons:
   * for notes on valid pitches, a pitch is displayed iff ribbonMidi holds
   * a note-on for it.
   */
  lemma RibbonDisplayIsEmittedNoteOns(notes: seq<Ribbons.RibbonNote>, numSamples: int)
    requires forall n :: n in notes ==> 0 <= n.midiNote <= 127
    ensures JuceArray.Distinct(RibbonDisplay(notes))
    ensures forall p :: p in RibbonDisplay(notes) <==> HasNoteOn(RibbonMidi(notes, numSamples), p)
  {
    RibbonDisplayFromSpec([], notes);
    RibbonMidiSpec(notes, numSamples);
    var b := RibbonMidi(notes, numSamples);
    forall p ensures p in RibbonDisplay(notes) <==> HasNoteOn(b, p) {
      if p in RibbonDisplay(notes) {
        var n :| n in notes && n.active && n.isNoteOn && n.midiNote == p;
        var e := RibbonEvent(n, numSamples);
        assert e in b;
        var k :| 0 <= k < |b| && b[k] == e;
      }
      if HasNoteOn(b, p) {
        var k :| 0 <= k < |b| && IsNoteOn(b[k].message) && b[k].message.pitch == p;
        assert b[k] in b;
        var n :| n in notes && n.active && b[k] == RibbonEvent(n, numSamples);
        assert n.isNoteOn;
      }
    }
  }

  // ----------------------------------------------------------------------
  // The combined stream the voices hear
  // ----------------------------------------------------------------------

  /**
   * The user's note-on as written: the velocity byte times 0.3 is handed
   * to the float overload of MidiMessage::noteOn, which expects a value in
   * [0, 1]. Every other message is kept.
   */
  function ReducedAsWritten(e: TimedMessage): TimedMessage {
    if IsNoteOn(e.message) then
      TimedMessage(NoteOnFloat(e.message.pitch, e.message.velocity as real * 0.3), e.samplePosition)
    else e
  }

  /** The intended reduction: the note-on at 30 % of its velocity, as a fraction of full scale. */
  function Reduced(e: TimedMessage): (r: TimedMessage)
    ensures r.samplePosition == e.samplePosition
    ensures !IsNoteOn(e.message) ==> r == e
    ensures IsNoteOn(e.message) ==> r.message.NoteOnMsg? && r.message.pitch == e.message.pitch
  {
    if IsNoteOn(e.message) then
      TimedMessage(NoteOnFloat(e.message.pitch, e.message.velocity as real / 127.0 * 0.3), e.samplePosition)
    else e
  }

  /** From velocity 4 up, the as-written reduction saturates at the loudest velocity byte. */
  lemma ReducedAsWrittenSaturates(e: TimedMessage)
    requires e.message.NoteOnMsg? && e.message.velocity >= 4
    ensures ReducedAsWritten(e).message == NoteOnMsg(e.message.pitch, 127)
  {
    var x := e.message.velocity as real * 0.3 * 127.0;
    assert x >= 152.4;
    assert RoundToInt(x) as real >= x - 0.5;
  }

  /** A concrete case: a user note-on at velocity 100 under ribbons reaches the voices at velocity 127, not 30. */
  lemma ReducedAsWrittenExample()
    ensures ReducedAsWritten(TimedMessage(NoteOnMsg(60, 100), 0)) == TimedMessage(NoteOnMsg(60, 127), 0)
    ensures Reduced(TimedMessage(NoteOnMsg(60, 100), 0)) == TimedMessage(NoteOnMsg(60, 30), 0)
  {
    ReducedAsWrittenSaturates(TimedMessage(NoteOnMsg(60, 100), 0));
    assert 100 as real / 127.0 * 0.3 * 127.0 == 30.0;
  }

  /**
   * The intended reduction lands within half a step of 30 % of the velocity,
   * and is quieter than the note played. The bound admits byte 0: see
   * ReducedLowVelocityIsNoteOff.
   */
  lemma ReducedIsThirtyPercent(e: TimedMessage)
    requires IsNoteOn(e.message)
    ensures var b := Reduced(e).message.velocity;
      e.message.velocity as real * 0.3 - 0.5 <= b as real <= e.message.velocity as real * 0.3 + 0.5 &&
      b < e.message.velocity
  {
    var v := e.message.velocity as real;
    assert v / 127.0 * 0.3 * 127.0 == v * 0.3;
  }

  /**
   * At velocity 1 the intended reduction gives 0.3, which rounds to byte 0,
   * so the event the voices hear is a note-off in JUCE's reading, not a
   * quiet note-on. From velocity 2 (0.6) up the byte is at least 1.
   */
  lemma ReducedLowVelocityIsNoteOff(e: TimedMessage)
    requires IsNoteOn(e.message)
    ensures e.message.velocity == 1 <==> IsNoteOff(Reduced(e).message)
    ensures e.message.velocity == 1 ==> Reduced(e).message == NoteOnMsg(e.message.pitch, 0)
  {
    var v := e.message.velocity as real;
    var x := v / 127.0 * 0.3 * 127.0;
    assert x == v * 0.3;
    if e.message.velocity == 1 {
      assert x.Floor == 0;
    } else {
      assert x >= 0.6;
    }
  }

  /** Two blocks whose events sit at the same sample positions, one for one. */
  predicate SameTiming(a: Buffer, b: Buffer) {
    |a| == |b| && forall k :: 0 <= k < |a| ==> a[k].samplePosition == b[k].samplePosition
  }

  /**
   * The user's block with every note-on reduced: each event stays at its
   * position, every other message is kept, and a note-on stays a note-on
   * of the same pitch.
   */
  function ReducedUser(user: Buffer): (r: Buffer)
    ensures SameTiming(user, r)
    ensures forall k :: 0 <= k < |r| && !IsNoteOn(user[k].message) ==> r[k] == user[k]
    ensures forall k :: 0 <= k < |r| && IsNoteOn(user[k].message) ==>
      r[k].message.NoteOnMsg? && r[k].message.pitch == user[k].message.pitch
  {
    seq(|user|, k requires 0 <= k < |user| => Reduced(user[k]))
  }

  /** The user's block as written, of the same shape; ReducedAsWrittenSaturates gives its note-on velocities. */
  function ReducedUserAsWritten(user: Buffer): (r: Buffer)
    ensures SameTiming(user, r)
    ensures forall k :: 0 <= k < |r| && !IsNoteOn(user[k].message) ==> r[k] == user[k]
    ensures forall k :: 0 <= k < |r| && IsNoteOn(user[k].message) ==>
      r[k].message.NoteOnMsg? && r[k].message.pitch == user[k].message.pitch
  {
    seq(|user|, k requires 0 <= k < |user| => ReducedAsWritten(user[k]))
  }

  /** combinedMidi's construction: every event of the first block added, then every event of the second. */
  function Merged(first: Buffer, second: Buffer): Buffer {
    AddEvents(AddEvents([], first), second)
  }

  /** The merge is time-ordered and holds exactly the events of both blocks. */
  lemma MergedSpec(first: Buffer, second: Buffer)
    ensures TimeOrdered(Merged(first, second))
    ensures multiset(Merged(first, second)) == multiset(first) + multiset(second)
  {
    AddEventsSpec([], first);
    AddEventsSpec(AddEvents([], first), second);
  }

  /** Two time-ordered blocks, the first no later than the start of the second, merge into their concatenation. */
  lemma MergedInOrder(first: Buffer, second: Buffer)
    requires TimeOrdered(first) && TimeOrdered(second)
    requires second != [] ==> NotAfter(first, second[0].samplePosition)
    ensures Merged(first, second) == first + second
  {
    AddEventsInOrder([], first);
    assert [] + first == first;
    AddEventsInOrder(first, second);
  }

  /** Ribbons replace the harmony when they are on and produced at least one event. */
  predicate RibbonsReplaceHarmony(enableRibbons: bool, ribbonMidi: Buffer) {
    enableRibbons && ribbonMidi != []
  }

  /** combinedMidi as written. */
  function CombinedAsWritten(user: Buffer, harmony: Buffer, ribbonMidi: Buffer, enableRibbons: bool): Buffer {
    if RibbonsReplaceHarmony(enableRibbons, ribbonMidi) then Merged(ReducedUserAsWritten(user), ribbonMidi)
    else Merged(user, harmony)
  }

  /** combinedMidi with the intended 30 % reduction. */
  function Combined(user: Buffer, harmony: Buffer, ribbonMidi: Buffer, enableRibbons: bool): Buffer {
    if RibbonsReplaceHarmony(enableRibbons, ribbonMidi) then Merged(ReducedUser(user), ribbonMidi)
    else Merged(user, harmony)
  }

  /**
   * The combined stream, as written and corrected, is time-ordered. Under
   * ribbons it holds exactly the reduced user events and the ribbon events,
   * and no harmony event; without them exactly the user events and the
   * harmony output.
   */
  lemma CombinedSpec(user: Buffer, harmony: Buffer, ribbonMidi: Buffer, enableRibbons: bool)
    ensures TimeOrdered(CombinedAsWritten(user, harmony, ribbonMidi, enableRibbons))
    ensures TimeOrdered(Combined(user, harmony, ribbonMidi, enableRibbons))
    ensures RibbonsReplaceHarmony(enableRibbons, ribbonMidi) ==>
      multiset(CombinedAsWritten(user, harmony, ribbonMidi, enableRibbons)) == multiset(ReducedUserAsWritten(user)) + multiset(ribbonMidi) &&
      multiset(Combined(user, harmony, ribbonMidi, enableRibbons)) == multiset(ReducedUser(user)) + multiset(ribbonMidi)
    ensures !RibbonsReplaceHarmony(enableRibbons, ribbonMidi) ==>
      multiset(CombinedAsWritten(user, harmony, ribbonMidi, enableRibbons)) == multiset(user) + multiset(harmony) &&
      multiset(Combined(user, harmony, ribbonMidi, enableRibbons)) == multiset(user) + multiset(harmony)
  {
    MergedSpec(ReducedUserAsWritten(user), ribbonMidi);
    MergedSpec(ReducedUser(user), ribbonMidi);
    MergedSpec(user, harmony);
  }

  /**
   * "Followed by": a time-ordered user block whose last event is no later
   * than the first event of the second stream comes through in place, as
   * written and corrected, the second stream appended after it.
   */
  lemma CombinedInOrder(user: Buffer, harmony: Buffer, ribbonMidi: Buffer, enableRibbons: bool)
    requires TimeOrdered(user) && TimeOrdered(harmony) && TimeOrdered(ribbonMidi)
    requires RibbonsReplaceHarmony(enableRibbons, ribbonMidi) ==> NotAfter(user, ribbonMidi[0].samplePosition)
    requires !RibbonsReplaceHarmony(enableRibbons, ribbonMidi) && harmony != [] ==> NotAfter(user, harmony[0].samplePosition)
    ensures RibbonsReplaceHarmony(enableRibbons, ribbonMidi) ==>
      CombinedAsWritten(user, harmony, ribbonMidi, enableRibbons) == ReducedUserAsWritten(user) + ribbonMidi &&
      Combined(user, harmony, ribbonMidi, enableRibbons) == ReducedUser(user) + ribbonMidi
    ensures !RibbonsReplaceHarmony(enableRibbons, ribbonMidi) ==>
      CombinedAsWritten(user, harmony, ribbonMidi, enableRibbons) == user + harmony &&
      Combined(user, harmony, ribbonMidi, enableRibbons) == user + harmony
  {
    if RibbonsReplaceHarmony(enableRibbons, ribbonMidi) {
      SameTimingKeepsOrder(user, ReducedUserAsWritten(user), ribbonMidi[0].samplePosition);
      SameTimingKeepsOrder(user, ReducedUser(user), ribbonMidi[0].samplePosition);
      MergedInOrder(ReducedUserAsWritten(user), ribbonMidi);
      MergedInOrder(ReducedUser(user), ribbonMidi);
    } else {
      MergedInOrder(user, harmony);
    }
  }

  /** A block with the same timing as a time-ordered one is time-ordered, with the same bounds. */
  lemma SameTimingKeepsOrder(a: Buffer, b: Buffer, t: int)
    requires TimeOrdered(a) && SameTiming(a, b)
    ensures TimeOrdered(b)
    ensures NotAfter(a, t) ==> NotAfter(b, t)
  {
    forall i, j | 0 <= i < j < |b| ensures b[i].samplePosition <= b[j].samplePosition {
      assert b[i].samplePosition == a[i].samplePosition;
      assert b[j].samplePosition == a[j].samplePosition;
    }
    if NotAfter(a, t) {
      forall k | 0 <= k < |b| ensures b[k].samplePosition <= t {
        assert b[k].samplePosition == a[k].samplePosition;
      }
    }
  }

  // ----------------------------------------------------------------------
  // The releasing-notes display
  // ----------------------------------------------------------------------

  /**
   * releasingNotes: the distinct notes of `activeVoiceNotes` that are
   * neither held by the user nor generated by the harmony, in
   * first-occurrence order.
   */
  function ReleasingFrom(acc: seq<int>, activeVoiceNotes: seq<int>, user: seq<int>, generated: seq<int>): seq<int>
    decreases |activeVoiceNotes|
  {
    if activeVoiceNotes == [] then acc
    else
      var n := activeVoiceNotes[0];
      ReleasingFrom(if n !in user && n !in generated then JuceArray.AddIfAbsent(acc, n) else acc,
                    activeVoiceNotes[1..], user, generated)
  }

  /** The releasing list computed from scratch. */
  function Releasing(activeVoiceNotes: seq<int>, user: seq<int>, generated: seq<int>): seq<int> {
    ReleasingFrom([], activeVoiceNotes, user, generated)
  }

  /** The loop keeps its list duplicate-free and adds exactly the notes that are neither held nor generated. */
  lemma {:induction false} ReleasingFromSpec(acc: seq<int>, activeVoiceNotes: seq<int>, user: seq<int>, generated: seq<int>)
    ensures JuceArray.Distinct(acc) ==> JuceArray.Distinct(ReleasingFrom(acc, activeVoiceNotes, user, generated))
    ensures forall x :: x in ReleasingFrom(acc, activeVoiceNotes, user, generated) <==>
      x in acc || (x in activeVoiceNotes && x !in user && x !in generated)
    decreases |activeVoiceNotes|
  {
    if activeVoiceNotes != [] {
      var n := activeVoiceNotes[0];
      var acc' := if n !in user && n !in generated then JuceArray.AddIfAbsent(acc, n) else acc;
      ReleasingFromSpec(acc', activeVoiceNotes[1..], user, generated);
      assert activeVoiceNotes == [n] + activeVoiceNotes[1..];
    }
  }

  /** releasingNotes holds each note once: the listed notes that are neither held nor generated. */
  lemma ReleasingSpec(activeVoiceNotes: seq<int>, user: seq<int>, generated: seq<int>)
    ensures JuceArray.Distinct(Releasing(activeVoiceNotes, user, generated))
    ensures forall x :: x in Releasing(activeVoiceNotes, user, generated) <==>
      x in activeVoiceNotes && x !in user && x !in generated
  {
    ReleasingFromSpec([], activeVoiceNotes, user, generated);
  }

  /**
   * As written, processBlock passes getActiveVoiceNotes(), which is the
   * user list followed by the generated list, so nothing ever qualifies
   * and the releasing list is always empty.
   */
  lemma ReleasingAsWrittenIsEmpty(user: seq<int>, generated: seq<int>)
    ensures Releasing(user + generated, user, generated) == []
  {
    ReleasingSpec(user + generated, user, generated);
    NoMembersEmpty(Releasing(user + generated, user, generated));
  }

  /** The pitches of the voices still sounding, each once, in pool order. */
  function SoundingNotes(pool: seq<Spatial.VoiceState>): seq<int>
    decreases |pool|
  {
    if pool == [] then []
    else
      var rest := SoundingNotes(pool[..|pool| - 1]);
      var v := pool[|pool| - 1];
      if Spatial.Sounding(v) then JuceArray.AddIfAbsent(rest, v.midiNote) else rest
  }

  /** SoundingNotes lists each pitch once, exactly those of the sounding voices. */
  lemma {:induction false} SoundingNotesSpec(pool: seq<Spatial.VoiceState>)
    ensures JuceArray.Distinct(SoundingNotes(pool))
    ensures forall x :: x in SoundingNotes(pool) <==> exists k :: 0 <= k < |pool| && Spatial.Sounding(pool[k]) && pool[k].midiNote == x
    decreases |pool|
  {
    if pool != [] {
      var pre := pool[..|pool| - 1];
      SoundingNotesSpec(pre);
      forall x ensures x in SoundingNotes(pool) <==> exists k :: 0 <= k < |pool| && Spatial.Sounding(pool[k]) && pool[k].midiNote == x {
        if exists k :: 0 <= k < |pool| && Spatial.Sounding(pool[k]) && pool[k].midiNote == x {
          var k :| 0 <= k < |pool| && Spatial.Sounding(pool[k]) && pool[k].midiNote == x;
          if k < |pre| { assert pre[k] == pool[k]; }
        }
        if x in SoundingNotes(pre) {
          var k :| 0 <= k < |pre| && Spatial.Sounding(pre[k]) && pre[k].midiNote == x;
          assert pool[k] == pre[k];
        }
      }
    }
  }

  /**
   * With the sounding voices' pitches passed in, the releasing list is
   * what its comment promises: the pitches still sounding that nobody
   * holds and the harmony does not generate.
   */
  lemma ReleasingShowsFadingVoices(pool: seq<Spatial.VoiceState>, user: seq<int>, generated: seq<int>)
    ensures JuceArray.Distinct(Releasing(SoundingNotes(pool), user, generated))
    ensures forall x :: x in Releasing(SoundingNotes(pool), user, generated) <==>
      x !in user && x !in generated &&
      exists k :: 0 <= k < |pool| && Spatial.Sounding(pool[k]) && pool[k].midiNote == x
  {
    SoundingNotesSpec(pool);
    ReleasingSpec(SoundingNotes(pool), user, generated);
  }

  /** A concrete case: a voice fading out on E after its key was let go shows as releasing only with the correction. */
  lemma ReleasingExample()
    ensures var v := Spatial.SilentVoice.(midiNote := 64, envelopeState := EnvelopeState.Release, envelopeLevel := 0.5);
      Releasing([] + [], [], []) == [] &&
      Releasing(SoundingNotes([v]), [], []) == [64]
  {
    var v := Spatial.SilentVoice.(midiNote := 64, envelopeState := EnvelopeState.Release, envelopeLevel := 0.5);
    assert [v][..0] == [];
    assert SoundingNotes([v]) == [64];
    assert [64][1..] == [];
    assert Releasing([64], [], []) == ReleasingFrom([64], [], [], []);
  }

  // ----------------------------------------------------------------------
  // The processor
  // ----------------------------------------------------------------------

  /** The host parameter values processBlock reads, one field per parameter. */
  datatype HostParams = HostParams(
    chordDensity: real,
    spatialWidth: real,
    volume: real,
    attack: real,
    decay: real,
    sustain: real,
    release: real,
    enableRibbons: real,
    ribbonCount: real,
    pulse: real,
    variation: real,
    wobble: real,
    swing: real,
    shimmer: real)

  /** The envelope settings handed to the spatial engine. */
  function AdsrOf(h: HostParams): ADSRParams {
    ADSRParams(h.attack, h.decay, h.sustain, h.release)
  }

  /** The ribbon settings of one block. */
  function RibbonParamsOf(h: HostParams): Ribbons.RibbonParams {
    HostRibbonParams(h.enableRibbons, h.ribbonCount, h.pulse, h.variation, h.wobble, h.swing, h.shimmer)
  }

  /** The tempo processBlock hands to processChord: a fixed 120 beats per minute. */
  const HostTempo := 120.0

  class Processor {
    const chordEngine: ChordEngine.ChordEngineObject
    const ribbonEngine: Ribbons.RibbonEngine
    const spatialEngine: Spatial.SpatialEngine
    /** The pitches the keyboard shows as played by the ribbons in the last block. */
    var ribbonDisplayNotes: seq<int>
    /** The pitches the keyboard shows as still sounding after release. */
    var releasingNotes: seq<int>

    /** Each engine keeps its own invariant. */
    ghost predicate Valid()
      reads this, chordEngine, ribbonEngine, ribbonEngine.ribbonStates, spatialEngine
    {
      chordEngine.Valid() && ribbonEngine.Valid() && spatialEngine.Valid()
    }

    /** The engines in their initial states, nothing displayed. */
    constructor()
      ensures Valid()
      ensures ribbonDisplayNotes == [] && releasingNotes == []
    {
      chordEngine := new ChordEngine.ChordEngineObject();
      ribbonEngine := new Ribbons.RibbonEngine();
      spatialEngine := new Spatial.SpatialEngine();
      ribbonDisplayNotes := [];
      releasingNotes := [];
    }

    /** prepareToPlay: every engine takes the sample rate and block size. */
    method PrepareToPlay(sampleRate: real, samplesPerBlock: int)
      requires Valid() && sampleRate > 0.0
      modifies chordEngine, ribbonEngine, spatialEngine
      ensures Valid()
      ensures chordEngine.sampleRate == sampleRate && chordEngine.samplesPerBlock == samplesPerBlock
      ensures ribbonEngine.sampleRate == sampleRate && ribbonEngine.samplesPerBlock == samplesPerBlock
      ensures ribbonEngine.currentSamplePosition == 0.0
      ensures spatialEngine.sampleRate == sampleRate && spatialEngine.samplesPerBlock == samplesPerBlock
    {
      chordEngine.Prepare(sampleRate, samplesPerBlock);
      spatialEngine.Prepare(sampleRate, samplesPerBlock);
      ribbonEngine.Prepare(sampleRate, samplesPerBlock);
    }

    /** releaseResources: only the ribbon engine is reset. */
    method ReleaseResources()
      requires Valid()
      modifies ribbonEngine, ribbonEngine.ribbonStates
      ensures Valid()
      ensures ribbonEngine.currentSamplePosition == 0.0 && ribbonEngine.scheduledNotes == []
      ensures forall i :: 0 <= i < Ribbons.MaxRibbons ==>
        ribbonEngine.ribbonStates[i] == Ribbons.ResetState(old(ribbonEngine.ribbonStates[i]))
    {
      ribbonEngine.Reset();
    }

    /**
     * updateActiveVoices: clear the releasing list, then add each listed
     * note the user does not hold and the harmony does not generate. The
     * spatial engine declares no getUserInputNotes/getGeneratedNotes, so
     * each stands here for the field it names.
     */
    method UpdateActiveVoices(activeVoiceNotes: seq<int>)
      modifies this`releasingNotes
      ensures releasingNotes == Releasing(activeVoiceNotes, spatialEngine.userInputNotes, spatialEngine.generatedNotes)
    {
      var user := spatialEngine.userInputNotes;
      var generated := spatialEngine.generatedNotes;
      releasingNotes := [];
      for i := 0 to |activeVoiceNotes|
        invariant ReleasingFrom(releasingNotes, activeVoiceNotes[i..], user, generated) == Releasing(activeVoiceNotes, user, generated)
      {
        assert activeVoiceNotes[i..][1..] == activeVoiceNotes[i + 1..];
        var noteNumber := activeVoiceNotes[i];
        if noteNumber !in user && noteNumber !in generated {
          releasingNotes := JuceArray.AddIfAbsent(releasingNotes, noteNumber);
        }
      }
    }

    /**
     * processBlock: harmonise the block, arpeggiate the sounding pitches
     * on the ribbons when they are on, choose the stream the voices hear,
     * render it, and refresh the keyboard display. The wall clock is `now`,
     * the random draws of the ribbon engine are `randDraws` and `draws`,
     * and the sine and pitch-to-frequency maps are parameters.
     */
    method ProcessBlock(midi: Buffer, numSamples: nat, numChannels: int, h: HostParams, now: int,
                        randDraws: seq<real>, draws: seq<int>, sine: real -> real, frequency: int -> real)
      returns (chordOutput: Buffer, ribbonNotes: seq<Ribbons.RibbonNote>, combined: Buffer)
      requires Valid() && h.release > 0.0 && |randDraws| == Ribbons.MaxRibbons
      modifies this`ribbonDisplayNotes, this`releasingNotes, chordEngine, ribbonEngine, ribbonEngine.ribbonStates,
               spatialEngine, spatialEngine.voices
      ensures Valid()
      ensures chordEngine.State() == ChordEngine.NextState(old(chordEngine.State()), midi, h.chordDensity)
      ensures chordOutput == ChordEngine.Output(old(chordEngine.State()), midi, h.chordDensity)
      ensures spatialEngine.chordOutput == chordOutput
      ensures Ribbons.RatesOk(Ribbons.Configure(RibbonParamsOf(h), randDraws).ribbons)
      ensures !RibbonsConsulted(RibbonParamsOf(h).enableRibbons, RibbonSource(midi, chordOutput)) ==>
        ribbonNotes == [] && ribbonEngine.Value() == old(ribbonEngine.Value())
      ensures RibbonsConsulted(RibbonParamsOf(h).enableRibbons, RibbonSource(midi, chordOutput)) ==>
        ribbonEngine.Value() == Ribbons.ProcessedValue(old(ribbonEngine.Value()),
          Ribbons.Configure(RibbonParamsOf(h), randDraws).ribbons, RibbonParamsOf(h).activeRibbons,
          RibbonSource(midi, chordOutput), old(ribbonEngine.currentSamplePosition), ribbonEngine.sampleRate, draws, sine) &&
        ribbonNotes == Ribbons.InWindow(ribbonEngine.scheduledNotes, old(ribbonEngine.currentSamplePosition), numSamples)
      ensures ribbonEngine.currentSamplePosition == old(ribbonEngine.currentSamplePosition) + numSamples as real
      ensures ribbonDisplayNotes == RibbonDisplay(ribbonNotes)
      ensures combined == CombinedAsWritten(midi, chordOutput, RibbonMidi(ribbonNotes, numSamples), RibbonParamsOf(h).enableRibbons)
      ensures spatialEngine.Values() == Spatial.ProcessedPool(old(spatialEngine.Values()), combined, h.spatialWidth,
        AdsrOf(h), now, spatialEngine.sampleRate, numSamples, numChannels, frequency)
      ensures spatialEngine.userInputNotes == HeldAfter([], combined)
      ensures spatialEngine.generatedNotes ==
        if chordOutput == [] then old(spatialEngine.generatedNotes) else NoteOnPitches(chordOutput)
      ensures releasingNotes ==
        Releasing(spatialEngine.GetActiveVoiceNotes(), spatialEngine.userInputNotes, spatialEngine.generatedNotes)
      ensures releasingNotes == []
    {
      ghost var sv := spatialEngine.Values();
      ghost var sg := spatialEngine.generatedNotes;
      chordOutput, ribbonNotes := Arrange(midi, numSamples, h, randDraws, draws, sine);
      assert spatialEngine.Values() == sv;
      ghost var cs := chordEngine.State();
      ghost var rv := ribbonEngine.Value();
      ghost var rp := ribbonEngine.currentSamplePosition;
      ghost var sched := ribbonEngine.scheduledNotes;
      combined := CombinedAsWritten(midi, chordOutput, RibbonMidi(ribbonNotes, numSamples), RibbonParamsOf(h).enableRibbons);
      Render(combined, numSamples, numChannels, h, now, frequency);
      assert chordEngine.State() == cs && ribbonEngine.Value() == rv;
      assert ribbonEngine.currentSamplePosition == rp && ribbonEngine.scheduledNotes == sched;
    }

    /**
     * The first half of processBlock: the harmony, the ribbon source set,
     * the ribbon step and the ribbons' display list.
     */
    method Arrange(midi: Buffer, numSamples: nat, h: HostParams, randDraws: seq<real>, draws: seq<int>, sine: real -> real)
      returns (chordOutput: Buffer, ribbonNotes: seq<Ribbons.RibbonNote>)
      requires Valid() && |randDraws| == Ribbons.MaxRibbons
      modifies this`ribbonDisplayNotes, chordEngine, ribbonEngine, ribbonEngine.ribbonStates, spatialEngine`chordOutput
      ensures Valid()
      ensures chordEngine.State() == ChordEngine.NextState(old(chordEngine.State()), midi, h.chordDensity)
      ensures chordOutput == ChordEngine.Output(old(chordEngine.State()), midi, h.chordDensity)
      ensures spatialEngine.chordOutput == chordOutput
      ensures Ribbons.RatesOk(Ribbons.Configure(RibbonParamsOf(h), randDraws).ribbons)
      ensures !RibbonsConsulted(RibbonParamsOf(h).enableRibbons, RibbonSource(midi, chordOutput)) ==>
        ribbonNotes == [] && ribbonEngine.Value() == old(ribbonEngine.Value())
      ensures RibbonsConsulted(RibbonParamsOf(h).enableRibbons, RibbonSource(midi, chordOutput)) ==>
        ribbonEngine.Value() == Ribbons.ProcessedValue(old(ribbonEngine.Value()),
          Ribbons.Configure(RibbonParamsOf(h), randDraws).ribbons, RibbonParamsOf(h).activeRibbons,
          RibbonSource(midi, chordOutput), old(ribbonEngine.currentSamplePosition), ribbonEngine.sampleRate, draws, sine) &&
        ribbonNotes == Ribbons.InWindow(ribbonEngine.scheduledNotes, old(ribbonEngine.currentSamplePosition), numSamples)
      ensures ribbonEngine.currentSamplePosition == old(ribbonEngine.currentSamplePosition) + numSamples as real
      ensures ribbonDisplayNotes == RibbonDisplay(ribbonNotes)
      ensures spatialEngine.Values() == old(spatialEngine.Values())
    {
      ghost var rv := ribbonEngine.Value();
      ghost var rp := ribbonEngine.currentSamplePosition;
      chordOutput := Harmonize(midi, h.chordDensity);
      assert ribbonEngine.Value() == rv && ribbonEngine.currentSamplePosition == rp;
      ghost var cs := chordEngine.State();
      var currentChordNotes := RibbonSource(midi, chordOutput);
      var ribbonParams := RibbonParamsOf(h);
      Ribbons.ConfigureRatesOk(ribbonParams, randDraws);
      ribbonNotes := RunRibbons(currentChordNotes, ribbonParams, numSamples, randDraws, draws, sine);
      assert chordEngine.State() == cs && spatialEngine.chordOutput == chordOutput;
      ribbonDisplayNotes := RibbonDisplay(ribbonNotes);
    }

    /** The harmony step of processBlock: processMidi, and the chord output handed to the spatial engine. */
    method Harmonize(midi: Buffer, density: real) returns (chordOutput: Buffer)
      requires Valid()
      modifies chordEngine, spatialEngine`chordOutput
      ensures Valid()
      ensures chordEngine.State() == ChordEngine.NextState(old(chordEngine.State()), midi, density)
      ensures chordOutput == ChordEngine.Output(old(chordEngine.State()), midi, density)
      ensures spatialEngine.chordOutput == chordOutput
    {
      chordOutput := chordEngine.ProcessMidi(midi, density);
      spatialEngine.SetChordOutput(chordOutput);
    }

    /** The ribbon step of processBlock: processChord when the ribbons are consulted, then the clock advances. */
    method RunRibbons(source: seq<int>, params: Ribbons.RibbonParams, numSamples: nat,
                      randDraws: seq<real>, draws: seq<int>, sine: real -> real)
      returns (ribbonNotes: seq<Ribbons.RibbonNote>)
      requires Valid() && |randDraws| == Ribbons.MaxRibbons
      requires Ribbons.RatesOk(Ribbons.Configure(params, randDraws).ribbons)
      modifies ribbonEngine, ribbonEngine.ribbonStates
      ensures Valid()
      ensures !RibbonsConsulted(params.enableRibbons, source) ==>
        ribbonNotes == [] && ribbonEngine.Value() == old(ribbonEngine.Value())
      ensures RibbonsConsulted(params.enableRibbons, source) ==>
        ribbonEngine.Value() == Ribbons.ProcessedValue(old(ribbonEngine.Value()),
          Ribbons.Configure(params, randDraws).ribbons, params.activeRibbons,
          source, old(ribbonEngine.currentSamplePosition), ribbonEngine.sampleRate, draws, sine) &&
        ribbonNotes == Ribbons.InWindow(ribbonEngine.scheduledNotes, old(ribbonEngine.currentSamplePosition), numSamples)
      ensures ribbonEngine.currentSamplePosition == old(ribbonEngine.currentSamplePosition) + numSamples as real
    {
      ribbonNotes := [];
      if RibbonsConsulted(params.enableRibbons, source) {
        var updatedParams;
        ribbonNotes, updatedParams := ribbonEngine.ProcessChord(source, params, numSamples, HostTempo,
                                                                randDraws, draws, sine);
      }
      ribbonEngine.AdvanceTime(numSamples);
    }

    /** The voice step of processBlock: the spatial engine renders the stream, then the releasing list is refreshed. */
    method Render(combined: Buffer, numSamples: nat, numChannels: int, h: HostParams, now: int, frequency: int -> real)
      requires Valid() && h.release > 0.0
      modifies this`releasingNotes, spatialEngine`userInputNotes, spatialEngine`generatedNotes, spatialEngine.voices
      ensures Valid()
      ensures spatialEngine.Values() == Spatial.ProcessedPool(old(spatialEngine.Values()), combined, h.spatialWidth,
        AdsrOf(h), now, spatialEngine.sampleRate, numSamples, numChannels, frequency)
      ensures spatialEngine.userInputNotes == HeldAfter([], combined)
      ensures spatialEngine.generatedNotes ==
        if spatialEngine.chordOutput == [] then old(spatialEngine.generatedNotes) else NoteOnPitches(spatialEngine.chordOutput)
      ensures releasingNotes ==
        Releasing(spatialEngine.GetActiveVoiceNotes(), spatialEngine.userInputNotes, spatialEngine.generatedNotes)
      ensures releasingNotes == []
    {
      spatialEngine.Process(combined, h.spatialWidth, h.volume, AdsrOf(h), now, numSamples, numChannels, frequency);
      UpdateActiveVoices(spatialEngine.GetActiveVoiceNotes());
      ReleasingAsWrittenIsEmpty(spatialEngine.userInputNotes, spatialEngine.generatedNotes);
    }
  }
}
