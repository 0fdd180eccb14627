/**
 * MIDI messages and MIDI buffers as the engines see them through JUCE:
 * a note-on with velocity 0 is a note-off, a buffer is kept in
 * sample-position order, and float velocities are converted to the
 * 7-bit velocity byte.
 */
module Midi {
  import opened JuceMath
  import JuceArray

  /** A MIDI note number. */
  type Pitch = p: int | 0 <= p <= 127

  /** A 7-bit MIDI velocity byte. */
  type Velocity = v: int | 0 <= v <= 127

  /** The messages a block can carry; every non-note message is `Other`. */
  datatype Message =
    | NoteOnMsg(pitch: Pitch, velocity: Velocity)
    | NoteOffMsg(pitch: Pitch)
    | Other(code: int)

  /** juce::MidiMessage::isNoteOn(): a note-on status with non-zero velocity. */
  predicate IsNoteOn(m: Message) {
    m.NoteOnMsg? && m.velocity > 0
  }

  /** juce::MidiMessage::isNoteOff(): a note-off status, or a note-on with velocity 0. */
  predicate IsNoteOff(m: Message) {
    m.NoteOffMsg? || (m.NoteOnMsg? && m.velocity == 0)
  }

  /** A message is never both a note-on and a note-off. */
  lemma OnOffExclusive(m: Message)
    ensures !(IsNoteOn(m) && IsNoteOff(m))
    ensures !m.Other? ==> IsNoteOn(m) || IsNoteOff(m)
  {
  }

  /** MidiMessage::noteOn(channel, note, float velocity): the velocity is scaled to a byte. */
  function FloatToVelocityByte(v: real): (b: Velocity)
    ensures 0.0 <= v <= 1.0 ==> (v * 127.0 - 0.5 <= b as real <= v * 127.0 + 0.5)
  {
    LimitInt(0, 127, RoundToInt(v * 127.0))
  }

  /**
   * MidiMessage::noteOn(channel, note, float velocity). JUCE keeps the low
   * seven bits of the note number (`noteNumber & 127`, which is the
   * Euclidean remainder by 128) and converts the velocity to a byte.
   */
  function NoteOnFloat(n: int, v: real): (m: Message)
    ensures m.NoteOnMsg? && m.pitch == n % 128
    ensures 0 <= n <= 127 ==> m.pitch == n
  {
    NoteOnMsg(n % 128, FloatToVelocityByte(v))
  }

  /** MidiMessage::noteOff(channel, note[, velocity]): again only the low seven bits of the note. */
  function NoteOffFor(n: int): (m: Message)
    ensures m.NoteOffMsg? && m.pitch == n % 128
    ensures 0 <= n <= 127 ==> m.pitch == n
  {
    NoteOffMsg(n % 128)
  }

  /** One entry of a juce::MidiBuffer: a message and its sample position. */
  datatype TimedMessage = TimedMessage(message: Message, samplePosition: int)

  /** A MidiBuffer's contents in iteration order. */
  type Buffer = seq<TimedMessage>

  /** Iteration order never goes back in time. */
  predicate TimeOrdered(b: Buffer) {
    forall i, j :: 0 <= i < j < |b| ==> b[i].samplePosition <= b[j].samplePosition
  }

  /**
   * MidiBuffer::addEvent: the new entry goes in front of the first entry
   * whose sample position is later than its own, so after every entry at
   * the same position.
   */
  function AddEvent(b: Buffer, e: TimedMessage): Buffer {
    if b == [] then [e]
    else if b[0].samplePosition > e.samplePosition then [e] + b
    else [b[0]] + AddEvent(b[1..], e)
  }

  /** No entry of b is earlier than `t`. */
  predicate NotBefore(b: Buffer, t: int) {
    forall k :: 0 <= k < |b| ==> t <= b[k].samplePosition
  }

  /** No entry of b is later than `t`. */
  predicate NotAfter(b: Buffer, t: int) {
    forall k :: 0 <= k < |b| ==> b[k].samplePosition <= t
  }

  /** An entry no later than every entry of a time-ordered buffer may go in front. */
  lemma OrderedCons(x: TimedMessage, b: Buffer)
    requires TimeOrdered(b) && NotBefore(b, x.samplePosition)
    ensures TimeOrdered([x] + b)
  {
    var u := [x] + b;
    forall i, j | 0 <= i < j < |u| ensures u[i].samplePosition <= u[j].samplePosition {
      assert u[j] == b[j - 1];
      if i > 0 { assert u[i] == b[i - 1]; }
    }
  }

  /** addEvent keeps every entry and adds exactly the new one. */
  lemma {:induction false} AddEventContents(b: Buffer, e: TimedMessage)
    ensures multiset(AddEvent(b, e)) == multiset(b) + multiset{e}
    ensures |AddEvent(b, e)| == |b| + 1
  {
    if b != [] && b[0].samplePosition <= e.samplePosition {
      AddEventContents(b[1..], e);
      assert b == [b[0]] + b[1..];
    }
  }

  /** A lower bound on the positions survives addEvent. */
  lemma {:induction false} AddEventNotBefore(b: Buffer, e: TimedMessage, t: int)
    requires NotBefore(b, t) && t <= e.samplePosition
    ensures NotBefore(AddEvent(b, e), t)
  {
    if b != [] && b[0].samplePosition <= e.samplePosition {
      assert NotBefore(b[1..], t) by {
        forall k | 0 <= k < |b[1..]| ensures t <= b[1..][k].samplePosition { assert b[1..][k] == b[k + 1]; }
      }
      AddEventNotBefore(b[1..], e, t);
      var u := AddEvent(b, e);
      var w := AddEvent(b[1..], e);
      assert u == [b[0]] + w;
      forall k | 0 <= k < |u| ensures t <= u[k].samplePosition {
        if k > 0 { assert u[k] == w[k - 1]; }
      }
    } else if b != [] {
      var u := AddEvent(b, e);
      forall k | 0 <= k < |u| ensures t <= u[k].samplePosition {
        if k > 0 { assert u[k] == b[k - 1]; }
      }
    }
  }

  /** addEvent keeps a time-ordered buffer time-ordered. */
  lemma {:induction false} AddEventOrdered(b: Buffer, e: TimedMessage)
    requires TimeOrdered(b)
    ensures TimeOrdered(AddEvent(b, e))
  {
    if b == [] {
    } else if b[0].samplePosition > e.samplePosition {
      forall k | 0 <= k < |b| ensures e.samplePosition <= b[k].samplePosition {
        assert b[0].samplePosition <= b[k].samplePosition || k == 0;
      }
      OrderedCons(e, b);
    } else {
      assert TimeOrdered(b[1..]) by {
        forall i, j | 0 <= i < j < |b[1..]| ensures b[1..][i].samplePosition <= b[1..][j].samplePosition {
          assert b[1..][i] == b[i + 1] && b[1..][j] == b[j + 1];
        }
      }
      assert NotBefore(b[1..], b[0].samplePosition) by {
        forall k | 0 <= k < |b[1..]| ensures b[0].samplePosition <= b[1..][k].samplePosition { assert b[1..][k] == b[k + 1]; }
      }
      AddEventOrdered(b[1..], e);
      AddEventNotBefore(b[1..], e, b[0].samplePosition);
      OrderedCons(b[0], AddEvent(b[1..], e));
    }
  }

  /** An entry no earlier than the last one is simply appended. */
  lemma {:induction false} AddEventAtEnd(b: Buffer, e: TimedMessage)
    requires NotAfter(b, e.samplePosition)
    ensures AddEvent(b, e) == b + [e]
  {
    if b != [] {
      assert NotAfter(b[1..], e.samplePosition) by {
        forall k | 0 <= k < |b[1..]| ensures b[1..][k].samplePosition <= e.samplePosition { assert b[1..][k] == b[k + 1]; }
      }
      AddEventAtEnd(b[1..], e);
      assert b == [b[0]] + b[1..];
      assert [b[0]] + (b[1..] + [e]) == b + [e];
    }
  }

  /** Adding a list of entries one by one, as the engines' loops over another buffer do. */
  function AddEvents(b: Buffer, es: seq<TimedMessage>): Buffer
    decreases |es|
  {
    if es == [] then b else AddEvents(AddEvent(b, es[0]), es[1..])
  }

  /** Adding a whole list keeps every entry and keeps time order. */
  lemma {:induction false} AddEventsSpec(b: Buffer, es: seq<TimedMessage>)
    ensures multiset(AddEvents(b, es)) == multiset(b) + multiset(es)
    ensures |AddEvents(b, es)| == |b| + |es|
    ensures TimeOrdered(b) ==> TimeOrdered(AddEvents(b, es))
    decreases |es|
  {
    if es != [] {
      AddEventContents(b, es[0]);
      if TimeOrdered(b) { AddEventOrdered(b, es[0]); }
      AddEventsSpec(AddEvent(b, es[0]), es[1..]);
      assert es == [es[0]] + es[1..];
    }
  }

  /**
   * Copying a time-ordered buffer into one whose entries are no later than
   * its first entry gives the concatenation.
   */
  lemma {:induction false} AddEventsInOrder(b: Buffer, es: seq<TimedMessage>)
    requires TimeOrdered(es)
    requires es != [] ==> NotAfter(b, es[0].samplePosition)
    ensures AddEvents(b, es) == b + es
    decreases |es|
  {
    if es != [] {
      AddEventAtEnd(b, es[0]);
      var b' := b + [es[0]];
      var rest := es[1..];
      if rest != [] {
        assert rest[0] == es[1];
        forall k | 0 <= k < |b'| ensures b'[k].samplePosition <= rest[0].samplePosition {
          if k < |b| { assert b'[k] == b[k]; } else { assert b'[k] == es[0]; }
        }
      }
      assert TimeOrdered(rest) by {
        forall i, j | 0 <= i < j < |rest| ensures rest[i].samplePosition <= rest[j].samplePosition {
          assert rest[i] == es[i + 1] && rest[j] == es[j + 1];
        }
      }
      AddEventsInOrder(b', rest);
      assert b + [es[0]] + rest == b + es;
    }
  }

  /** Some entry of b is a note-on (velocity > 0) of pitch p. */
  predicate HasNoteOn(b: Buffer, p: int) {
    exists k :: 0 <= k < |b| && IsNoteOn(b[k].message) && b[k].message.pitch == p
  }

  /** Splitting off the first entry. */
  lemma HasNoteOnCons(b: Buffer, p: int)
    requires b != []
    ensures HasNoteOn(b, p) <==> (IsNoteOn(b[0].message) && b[0].message.pitch == p) || HasNoteOn(b[1..], p)
  {
    if HasNoteOn(b, p) {
      var k :| 0 <= k < |b| && IsNoteOn(b[k].message) && b[k].message.pitch == p;
      if k > 0 { assert b[1..][k - 1] == b[k]; }
    }
    if HasNoteOn(b[1..], p) {
      var k :| 0 <= k < |b[1..]| && IsNoteOn(b[1..][k].message) && b[1..][k].message.pitch == p;
      assert b[k + 1] == b[1..][k];
    }
  }

  /** The pitches of the note-ons of a buffer, each once, in first-occurrence order. */
  function NoteOnPitches(b: Buffer): (r: seq<int>)
    ensures JuceArray.Distinct(r)
    ensures forall p :: p in r <==> HasNoteOn(b, p)
  {
    NoteOnPitchesFrom([], b)
  }

  /** The loop `for each entry: if isNoteOn() then acc.addIfNotAlreadyThere(pitch)`. */
  function NoteOnPitchesFrom(acc: seq<int>, b: Buffer): (r: seq<int>)
    ensures JuceArray.Distinct(acc) ==> JuceArray.Distinct(r)
    ensures forall p :: p in r <==> p in acc || HasNoteOn(b, p)
    decreases |b|
  {
    if b == [] then acc
    else
      var acc' := if IsNoteOn(b[0].message) then JuceArray.AddIfAbsent(acc, b[0].message.pitch) else acc;
      forall p ensures HasNoteOn(b, p) <==> (IsNoteOn(b[0].message) && b[0].message.pitch == p) || HasNoteOn(b[1..], p) {
        HasNoteOnCons(b, p);
      }
      NoteOnPitchesFrom(acc', b[1..])
  }

  /**
   * The scan only appends: the starting list stays in front, and every
   * pitch after it is a note-on pitch of the buffer that the starting list
   * lacked.
   */
  lemma {:induction false} NoteOnPitchesFromExtends(acc: seq<int>, b: Buffer)
    ensures var r := NoteOnPitchesFrom(acc, b);
      |acc| <= |r| && r[..|acc|] == acc &&
      forall k :: |acc| <= k < |r| ==> r[k] !in acc && HasNoteOn(b, r[k])
    decreases |b|
  {
    if b != [] {
      var m := b[0].message;
      var acc' := if IsNoteOn(m) then JuceArray.AddIfAbsent(acc, m.pitch) else acc;
      NoteOnPitchesFromExtends(acc', b[1..]);
      var r := NoteOnPitchesFrom(acc', b[1..]);
      assert r == NoteOnPitchesFrom(acc, b);
      assert acc'[..|acc|] == acc;
      assert r[..|acc|] == acc by {
        assert r[..|acc'|][..|acc|] == r[..|acc|];
      }
      forall k | |acc| <= k < |r| ensures r[k] !in acc && HasNoteOn(b, r[k]) {
        HasNoteOnCons(b, r[k]);
        if k < |acc'| {
          assert acc' == acc + [m.pitch] && r[k] == acc'[k] == m.pitch;
        }
      }
    }
  }

  /**
   * How both engines track held notes while scanning a block: a note-on
   * adds its pitch unless already held (`addIfNotAlreadyThere` or
   * `contains` + `add`), a note-off removes the first match.
   */
  function HeldStep(held: seq<int>, m: Message): seq<int> {
    if IsNoteOn(m) then JuceArray.AddIfAbsent(held, m.pitch)
    else if IsNoteOff(m) then JuceArray.RemoveFirst(held, m.pitch)
    else held
  }

  /** The held list after scanning the whole buffer, entry by entry. */
  function HeldAfter(held: seq<int>, b: Buffer): seq<int>
    decreases |b|
  {
    if b == [] then held else HeldStep(HeldAfter(held, b[..|b| - 1]), b[|b| - 1].message)
  }

  /** The pitches of the note-offs of a buffer, in order, with repetitions (the `notesOff`/`stoppedNotes` lists). */
  function NoteOffPitches(b: Buffer): (r: seq<int>)
    ensures |r| <= |b|
    decreases |b|
  {
    if b == [] then []
    else
      var m := b[|b| - 1].message;
      NoteOffPitches(b[..|b| - 1]) + (if IsNoteOff(m) then [m.pitch] else [])
  }

  /** Some entry of b is a note-off (or a velocity-0 note-on) of pitch p. */
  predicate HasNoteOff(b: Buffer, p: int) {
    exists k :: 0 <= k < |b| && IsNoteOff(b[k].message) && b[k].message.pitch == p
  }

  /** The stopped-note list holds exactly the pitches that got a note-off in the block. */
  lemma {:induction false} NoteOffPitchesSpec(b: Buffer)
    ensures forall p :: p in NoteOffPitches(b) <==> HasNoteOff(b, p)
    decreases |b|
  {
    if b != [] {
      var pre := b[..|b| - 1];
      NoteOffPitchesSpec(pre);
      forall p ensures p in NoteOffPitches(b) <==> HasNoteOff(b, p) {
        if HasNoteOff(pre, p) {
          var k :| 0 <= k < |pre| && IsNoteOff(pre[k].message) && pre[k].message.pitch == p;
          assert b[k] == pre[k];
        }
        if HasNoteOff(b, p) {
          var k :| 0 <= k < |b| && IsNoteOff(b[k].message) && b[k].message.pitch == p;
          if k < |b| - 1 { assert pre[k] == b[k]; }
        }
      }
    }
  }

  /** The index of the last note-on or note-off of pitch p in b, or -1 if there is none. */
  function LastNoteEvent(b: Buffer, p: int): (k: int)
    ensures -1 <= k < |b|
    ensures k >= 0 ==> (IsNoteOn(b[k].message) || IsNoteOff(b[k].message)) && b[k].message.pitch == p
    ensures forall j :: k < j < |b| ==> !((IsNoteOn(b[j].message) || IsNoteOff(b[j].message)) && b[j].message.pitch == p)
    decreases |b|
  {
    if b == [] then -1
    else
      var m := b[|b| - 1].message;
      if (IsNoteOn(m) || IsNoteOff(m)) && m.pitch == p then |b| - 1
      else
        var k := LastNoteEvent(b[..|b| - 1], p);
        assert forall j :: k < j < |b| - 1 ==> b[j] == b[..|b| - 1][j];
        k
  }

  /**
   * Reference definition of "held after the block": a pitch is held when its
   * last note event in the block is a note-on, or when the block has no
   * note event for it and it was held before.
   */
  predicate HeldByLastEvent(held: seq<int>, b: Buffer, p: int) {
    var k := LastNoteEvent(b, p);
    if k == -1 then p in held else IsNoteOn(b[k].message)
  }

  /** The held list stays duplicate-free and holds exactly the pitches whose last event is a note-on. */
  lemma {:induction false} HeldAfterSpec(held: seq<int>, b: Buffer)
    requires JuceArray.Distinct(held)
    ensures JuceArray.Distinct(HeldAfter(held, b))
    ensures forall p :: p in HeldAfter(held, b) <==> HeldByLastEvent(held, b, p)
    decreases |b|
  {
    if b != [] {
      var pre := b[..|b| - 1];
      var m := b[|b| - 1].message;
      var h := HeldAfter(held, pre);
      HeldAfterSpec(held, pre);
      if IsNoteOff(m) {
        JuceArray.RemoveFirstDistinct(h, m.pitch);
      }
      forall p ensures p in HeldAfter(held, b) <==> HeldByLastEvent(held, b, p) {
        if !((IsNoteOn(m) || IsNoteOff(m)) && m.pitch == p) {
          assert LastNoteEvent(b, p) == LastNoteEvent(pre, p);
          var k := LastNoteEvent(pre, p);
          if k >= 0 { assert b[k] == pre[k]; }
        }
      }
    }
  }
}
