/**
 * The standalone polyphonic synth voice of Voice.h: a record of fields
 * that trigger, release and forceStop overwrite in place, and a 30-second
 * safety timeout. The wall clock is the parameter `now`, in milliseconds.
 */
module Synth {
  import opened Envelope

  /** The longest a note may play before the safety timeout applies, in milliseconds. */
  const MaxNoteTimeMs := 30000

  class Voice {
    var active: bool
    var midiNote: int
    var phase: real
    var position: real
    var chordPosition: int
    var envelopeState: EnvelopeState
    var envelopeLevel: real
    var noteStartTime: int
    var filterState: real
    var highpassState: real

    /** The declared defaults: silent and idle on middle C. */
    constructor()
      ensures !active && midiNote == 60 && phase == 0.0 && position == 0.0 && chordPosition == 0
      ensures envelopeState == Idle && envelopeLevel == 0.0 && noteStartTime == 0
      ensures filterState == 0.0 && highpassState == 0.0
    {
      active := false;
      midiNote := 60;
      phase := 0.0;
      position := 0.0;
      chordPosition := 0;
      envelopeState := Idle;
      envelopeLevel := 0.0;
      noteStartTime := 0;
      filterState := 0.0;
      highpassState := 0.0;
    }

    /**
     * Start a note: store pitch, stereo position and chord position, enter
     * Attack from level 0 with phase and both filters cleared, and record
     * the start time.
     */
    method Trigger(newNote: int, newPosition: real, newChordPosition: int, now: int)
      modifies this
      ensures midiNote == newNote && position == newPosition && chordPosition == newChordPosition
      ensures active && envelopeState == Attack && envelopeLevel == 0.0 && phase == 0.0
      ensures filterState == 0.0 && highpassState == 0.0 && noteStartTime == now
      ensures !HasTimedOut(now)
    {
      midiNote := newNote;
      position := newPosition;
      chordPosition := newChordPosition;
      active := true;
      envelopeState := Attack;
      envelopeLevel := 0.0;
      phase := 0.0;
      filterState := 0.0;
      highpassState := 0.0;
      noteStartTime := now;
    }

    /** Release: the voice goes inactive and into Release whatever its state, Idle included. */
    method Release()
      modifies this`active, this`envelopeState
      ensures !active && envelopeState == EnvelopeState.Release
    {
      active := false;
      envelopeState := EnvelopeState.Release;
    }

    /** Force stop: inactive, Idle and silent; phase and filter states are left as they were. */
    method ForceStop()
      modifies this`active, this`envelopeState, this`envelopeLevel
      ensures !active && envelopeState == Idle && envelopeLevel == 0.0
      ensures phase == old(phase) && filterState == old(filterState) && highpassState == old(highpassState)
    {
      active := false;
      envelopeState := Idle;
      envelopeLevel := 0.0;
    }

    /** The note has played for more than 30 seconds. */
    predicate HasTimedOut(currentTime: int)
      reads this
    {
      currentTime - noteStartTime > MaxNoteTimeMs
    }

    /** Once timed out, a note stays timed out as the clock moves on. */
    lemma TimedOutStays(t: int, later: int)
      requires HasTimedOut(t) && t <= later
      ensures HasTimedOut(later)
    {
    }
  }
}
