# HarmonyScape block pipeline, in Dafny

HarmonyScape is a MIDI harmonizer plugin. Every audio block, the plugin
processor does four things:

- It hands the incoming MIDI to a **harmony engine**. That engine keeps the
  held keys and names the chord they form. It chooses a voicing for the
  current chord density, and it emits only the difference against the voicing
  that was already sounding.
- It hands the distinct note-on pitches of the keys and the harmony to a
  **ribbon engine**. That arpeggiator has up to five ribbons. Each ribbon
  walks its own traversal of the chord, and the ribbons share one list of
  scheduled notes.
- It merges the user's, the harmony's and the ribbons' events into one stream.
- It feeds that stream to a **spatial engine**: a pool of sixteen voices with
  a three-tier allocation policy, note-off and timeout handling, and a
  per-sample ADSR envelope.

This project models that pipeline and proves its contracts. It has one Dafny
module per source unit:

| module | file | models |
|---|---|---|
| `JuceMath` | `juce_math.dfy` | `jlimit`, float-to-int rounding and truncation, C++ `%` |
| `JuceArray` | `juce_array.dfy` | the `juce::Array` operations the code relies on (`addIfNotAlreadyThere`, `removeFirstMatchingValue`, `indexOf`, `sort`) |
| `Midi` | `midi.dfy` | MIDI messages, `noteOn`/`noteOff` construction, a time-ordered `MidiBuffer` and its `addEvent` |
| `Envelope` | `envelope.dfy` | the envelope states and ADSR parameters |
| `Synth` | `synth_voice.dfy` | the standalone voice of `Voice.h` |
| `ChordEngine` | `chord_engine.dfy` | chord detection, type matching, voicing, and the `processMidi` object |
| `Arpeggio` | `arpeggio.dfy` | the seven arpeggiation patterns |
| `Ribbons` | `ribbon_engine.dfy` | the ribbon step rule, the master-control mapping, tempo conversions, and the engine object over an array of ribbon states |
| `Spatial` | `spatial_engine.dfy` | the voice pool, allocation, note-off, timeout, the envelope state machine and render bookkeeping |
| `Plugin` | `plugin_processor.dfy` | the block merge rule, the releasing-notes display, and the processor object that runs one block |

The form follows the source:

- Code that mutates objects becomes classes with `modifies` frames:
  - `ChordEngine.ChordEngineObject`
  - `Ribbons.RibbonEngine`, with its `array<RibbonState>`
  - `Spatial.SpatialEngine`, over sixteen `Spatial.Voice` objects
  - `Synth.Voice`
  - `Plugin.Processor`
- Each state-changing method is proved against a pure function of the old
  state. The properties are then proved about those functions.
- Loops become `while`/`for` loops with invariants where the source loops over
  mutable state. Examples: the three passes of `process`, the per-sample render
  loop, the message scan of `processMidi`, and `updateActiveVoices`.

Modelling conventions:

- Floats are `real`.
- A note-on with velocity 0 counts as a note-off, as in JUCE's `isNoteOn`.
- C++ `%` on possibly negative operands is `JuceMath.CRem`, which truncates
  toward zero.
- `static_cast<int>` is `JuceMath.TruncToInt`.
- Float velocities go to MIDI bytes through JUCE's rounding (`FloatToVelocityByte`).
- The wall clock (`juce::Time::currentTimeMillis`) is the parameter `now`.
- The `std::rand` draws of the configuration mapping are the parameter
  `randDraws`.
- The shuffle of the Random pattern is driven by the parameter `draws`.
- Two values are parameters treated as opaque functions, and only the clamps
  around them are modelled:
  - the sine used for ribbon velocity humanisation;
  - the pitch-to-frequency conversion.

### Where the code is inconsistent or cannot run as written

The model follows the code where the code is defined. Where it cannot run as
written, the model makes the choice given in each bullet:

- **Single-note voicing has no range filter.** The single-note branch of
  `generateVoicing` applies no range filter. Only the multi-note branch
  removes pitches outside [36, 108] (ChordEngine.cpp:409-414). See
  `SingleNoteVoicingUnfiltered`: root 127 yields pitch 134.
- **Fields the headers do not declare.** The `.cpp` files read fields the
  headers omit: `RibbonConfig::gate`/`swing`, `RibbonParams::pulse`/`variation`/
  `wobble`/`swing`/`shimmer`, and `RibbonNote::bufferSamplePosition`/`isNoteOn`.
  `PluginProcessor.h` (lines 112-151) declares neither a `ribbonEngine`
  member nor the `enableRibbonsParam`, `ribbonCountParam`, `pulseParam`,
  `variationParam` and `wobbleParam` pointers that the constructor
  (PluginProcessor.cpp:29-33) and `processBlock` use. The model declares
  exactly the fields the code uses, including `Plugin.Processor.ribbonEngine`.
  The ribbon engine never assigns `bufferSamplePosition` or `isNoteOn`, so
  every ribbon note carries 0 and `true` for them.
- **Host parameters that are never registered.** The ribbon host parameters
  `enableRibbons`, `ribbonCount`, `pulse`, `variation` and `wobble` are read
  in the constructor (PluginProcessor.cpp:29-33), but `createParameterLayout`
  (PluginProcessor.h:63-110) never declares them, so `getRawParameterValue`
  returns null for each. `processBlock` dereferences those null pointers,
  which is undefined behaviour. The model does not follow the code here: it
  takes the five values as fields of `Plugin.HostParams`.
- **`process` has a different arity.** The processor calls the spatial
  engine's `process` with eight arguments, while the header declares six. The
  extra spatial-movement and rhythm parameters are not used by any code shown,
  so `Spatial.SpatialEngine.Process` takes the arguments it uses.
- **`setRibbonNotes` is not declared.** `SpatialEngine.h` does not declare it,
  so the call cannot compile. Instead of the call, the model keeps the ribbon
  display list on `Plugin.Processor` as the field `ribbonDisplayNotes`.
- **`getUserInputNotes` and `getGeneratedNotes` are not declared.**
  `SpatialEngine.h` declares only `getActiveVoiceNotes` (line 62), and the
  `userInputNotes` and `generatedNotes` fields are private, yet the processor
  calls `spatialEngine.getUserInputNotes()` and
  `spatialEngine.getGeneratedNotes()` (PluginProcessor.cpp:344, 350 and 374),
  so those calls cannot compile. The model takes each getter to return the
  field of the same name: `Plugin.Processor.UpdateActiveVoices` reads
  `spatialEngine.userInputNotes` and `spatialEngine.generatedNotes`.
- **The spatial engine's held notes come from the combined stream.**
  `userInputNotes` is computed from the stream the processor passes to
  `process`, so it also holds ribbon and harmony pitches.

## Model

| member | source | states |
|---|---|---|
| JuceMath.Limit | HarmonyScape/Source/RibbonEngine/RibbonEngine.cpp:362-363 | `jlimit` on reals: the result lies in [lower, upper], equals the value inside the range and the violated bound outside it |
| JuceMath.LimitInt | HarmonyScape/Source/RibbonEngine/RibbonEngine.cpp:52 | integer `jlimit`: within the bounds whenever they are ordered, the value itself inside, the lower bound below; defined for reversed bounds too (the empty-buffer case of PluginProcessor.cpp:190) |
| JuceMath.RoundToInt | HarmonyScape/Source/PluginProcessor.cpp:196 | rounding to the nearest integer lands within half a unit of the real value |
| JuceMath.TruncToInt | HarmonyScape/Source/RibbonEngine/RibbonEngine.cpp:397 | `static_cast<int>` truncates toward zero: the floor for non-negative values, minus the floor of the negation otherwise, always within one unit |
| JuceMath.CRem | HarmonyScape/Source/RibbonEngine/RibbonEngine.cpp:432 | C++ `%`: agrees with the mathematical remainder for a non-negative dividend and lies in (-b, 0] for a negative one |
| JuceArray.AddIfAbsent | HarmonyScape/Source/PluginProcessor.cpp:148 | `addIfNotAlreadyThere`: afterwards exactly the old members plus x are present, a duplicate-free list stays duplicate-free, and it grows by at most one |
| JuceArray.RemoveFirst | HarmonyScape/Source/ChordEngine/ChordEngine.cpp:37 | `removeFirstMatchingValue`: removes one occurrence of x (the multiset loses one x) and leaves a list without x unchanged |
| JuceArray.RemoveFirstDistinct | HarmonyScape/Source/ChordEngine/ChordEngine.cpp:37 | on a duplicate-free list, removing x leaves exactly the other members and stays duplicate-free |
| JuceArray.IndexOf | HarmonyScape/Source/SpatialEngine/SpatialEngine.cpp:84 | `indexOf`: -1 exactly when x is absent, otherwise the first position holding x |
| JuceArray.Sort | HarmonyScape/Source/ChordEngine/ChordEngine.cpp:100-101 | `sort`: the result is ascending and a permutation of the input |
| JuceArray.SortIsTheSortedPermutation | HarmonyScape/Source/ChordEngine/ChordEngine.cpp:100-101 | any ascending permutation of the input is the sort, so the sort order is unique |
| JuceArray.SortDistinct | HarmonyScape/Source/SpatialEngine/SpatialEngine.cpp:66 | sorting a duplicate-free list keeps it duplicate-free |
| JuceArray.Min | HarmonyScape/Source/ChordEngine/ChordEngine.cpp:103-104 | the minimum is a member and no member is smaller |
| JuceArray.SortHeadIsMin | HarmonyScape/Source/ChordEngine/ChordEngine.cpp:100-104 | the first sorted note, which the code takes as the root, is the lowest note |
| Midi.OnOffExclusive | HarmonyScape/Source/ChordEngine/ChordEngine.cpp:27-38 | no message is both a note-on and a note-off, and every note message is one of the two (a velocity-0 note-on counts as note-off) |
| Midi.FloatToVelocityByte | HarmonyScape/Source/ChordEngine/ChordEngine.cpp:84 | a float velocity in [0, 1] becomes a byte within half a step of 127·v |
| Midi.NoteOnFloat | HarmonyScape/Source/ChordEngine/ChordEngine.cpp:84 | `MidiMessage::noteOn` builds a note-on whose pitch is the note number (masked to 7 bits) |
| Midi.NoteOffFor | HarmonyScape/Source/ChordEngine/ChordEngine.cpp:72 | `MidiMessage::noteOff` builds a note-off for the note number (masked to 7 bits) |
| Midi.OrderedCons | HarmonyScape/Source/PluginProcessor.cpp:197 | an event no later than a time-ordered buffer can be put in front of it |
| Midi.AddEventContents | HarmonyScape/Source/PluginProcessor.cpp:197 | `addEvent` inserts exactly the one event |
| Midi.AddEventNotBefore | HarmonyScape/Source/PluginProcessor.cpp:197 | `addEvent` keeps a lower bound on the buffer's sample positions |
| Midi.AddEventOrdered | HarmonyScape/Source/PluginProcessor.cpp:197 | `addEvent` keeps a `MidiBuffer` ordered by sample position |
| Midi.AddEventAtEnd | HarmonyScape/Source/PluginProcessor.cpp:234 | an event no earlier than every buffered one is appended at the end |
| Midi.AddEventsSpec | HarmonyScape/Source/PluginProcessor.cpp:245-248 | adding a list of events adds exactly those events and keeps the buffer ordered |
| Midi.AddEventsInOrder | HarmonyScape/Source/PluginProcessor.cpp:255-264 | adding an ordered list that starts no earlier than the buffer ends is concatenation |
| Midi.HasNoteOnCons | HarmonyScape/Source/PluginProcessor.cpp:143-150 | a buffer has a note-on for p iff its first event is one or its rest has one |
| Midi.NoteOnPitches | HarmonyScape/Source/SpatialEngine/SpatialEngine.cpp:164-176 | the distinct pitches having a note-on in the buffer, in first-occurrence order |
| Midi.NoteOnPitchesFrom | HarmonyScape/Source/PluginProcessor.cpp:152-160 | extending a pitch list by the buffer's note-on pitches gives exactly the old pitches plus those, without duplicates |
| Midi.NoteOnPitchesFromExtends | HarmonyScape/Source/PluginProcessor.cpp:152-160 | the extension keeps the old list as a prefix, and every later entry is new and comes from a note-on |
| Midi.NoteOffPitches | HarmonyScape/Source/ChordEngine/ChordEngine.cpp:33-37 | the list of note-off pitches has at most one entry per message |
| Midi.NoteOffPitchesSpec | HarmonyScape/Source/ChordEngine/ChordEngine.cpp:33-37 | a pitch is in the note-off list iff the buffer holds a note-off for it |
| Midi.LastNoteEvent | HarmonyScape/Source/ChordEngine/ChordEngine.cpp:23-39 | the index of the last note event for p, or -1; no later message is a note event for p |
| Midi.HeldAfterSpec | HarmonyScape/Source/ChordEngine/ChordEngine.cpp:23-39 | after a block the held list is duplicate-free, and p is held iff its last note event is a note-on, or it had none and was already held |
| Envelope.HostRangeIsValid | HarmonyScape/Source/PluginProcessor.h:76-83 | every attack/decay/sustain/release the host allows is a usable envelope: positive times, sustain in [0, 1] |
| Envelope.DefaultADSRValid | HarmonyScape/Source/Voice.h:6-12 | the default ADSR (0.01, 0.1, 0.5, 0.2) is usable and inside the host ranges |
| Synth.Voice.constructor | HarmonyScape/Source/Voice.h:26-35 | a new voice is inactive and Idle on middle C, with level, phase, position, start time and filters at 0 |
| Synth.Voice.Trigger | HarmonyScape/Source/Voice.h:38-50 | trigger stores note, position and chord position; sets active, Attack, level 0, phase 0, both filters 0 and start time = now; a just-triggered voice has not timed out |
| Synth.Voice.Release | HarmonyScape/Source/Voice.h:53-57 | release always ends inactive and in Release, even from Idle |
| Synth.Voice.ForceStop | HarmonyScape/Source/Voice.h:60-65 | force stop ends inactive, Idle, at level 0, and leaves phase and filter states untouched |
| Synth.Voice.TimedOutStays | HarmonyScape/Source/Voice.h:68-72 | the 30 000 ms timeout, once reached, holds at every later time |
| ChordEngine.Intervals | HarmonyScape/Source/ChordEngine/ChordEngine.cpp:120-127 | the interval list is duplicate-free and holds exactly the positive values of (n - root) % 12 over the notes, with C++'s truncating `%`, so a note below the root adds nothing |
| ChordEngine.MatchChordType | HarmonyScape/Source/ChordEngine/ChordEngine.cpp:153-203 | a type matches iff one of the five triad cores {4,7}, {3,7}, {3,6}, {4,8}, {5,7} is present; a match has a non-empty suffix from the table, a miss an empty one |
| ChordEngine.MatchChordTypeTable | HarmonyScape/Source/ChordEngine/ChordEngine.cpp:158-197 | first-match priority: {4,7} gives maj7 / 7 / maj by 11 and 10, then {3,7} gives m7 / m, then {3,6} gives dim7 / dim, then {4,8} aug, then {5,7} sus4 |
| ChordEngine.MatchChordTypeSetOnly | HarmonyScape/Source/ChordEngine/ChordEngine.cpp:153-203 | matching depends only on which intervals are present, not on their order or repetition |
| ChordEngine.DetectChord | HarmonyScape/Source/ChordEngine/ChordEngine.cpp:94-151 | the empty input gives the empty chord; otherwise the root is the lowest note, the notes are the sorted input, a single note is named by its pitch class, and a chord by root name plus matched suffix ("Unknown" when none) |
| ChordEngine.DetectChordOrderIndependent | HarmonyScape/Source/ChordEngine/ChordEngine.cpp:94-151 | chord detection depends only on the multiset of held notes, not on the order they were pressed |
| ChordEngine.IntervalsOfMajorTriad | HarmonyScape/Source/ChordEngine/ChordEngine.cpp:120-127 | C-E-G has intervals [4, 7] |
| ChordEngine.IntervalsBelowRoot | HarmonyScape/Source/ChordEngine/ChordEngine.cpp:122-127 | B3 under a C4 root gives remainder -1 and no interval; adding E4 gives [4] |
| ChordEngine.IntervalsOfMinorTriad | HarmonyScape/Source/ChordEngine/ChordEngine.cpp:120-127 | C-Eb-G has intervals [3, 7] |
| ChordEngine.SortMajorTriad | HarmonyScape/Source/ChordEngine/ChordEngine.cpp:100-101 | E-C-G sorts to C-E-G |
| ChordEngine.NameOfMajorTriad | HarmonyScape/Source/ChordEngine/ChordEngine.cpp:135-148 | a major triad on C is named "Cmaj" |
| ChordEngine.DetectChordMajorTriad | HarmonyScape/Source/ChordEngine/ChordEngine.cpp:94-151 | pressing E, C, G detects root 60, notes [60, 64, 67], name "Cmaj" |
| ChordEngine.SortMinorTriad | HarmonyScape/Source/ChordEngine/ChordEngine.cpp:100-101 | G-Eb-C sorts to C-Eb-G |
| ChordEngine.NameOfMinorTriad | HarmonyScape/Source/ChordEngine/ChordEngine.cpp:135-148 | a minor triad on C is named "Cm" |
| ChordEngine.DetectChordMinorTriad | HarmonyScape/Source/ChordEngine/ChordEngine.cpp:94-151 | pressing G, Eb, C detects "Cm" |
| ChordEngine.KeepSafeMembers | HarmonyScape/Source/ChordEngine/ChordEngine.cpp:409-414 | the range filter keeps exactly the pitches in [36, 108] and never lengthens the voicing |
| ChordEngine.KeepSafeSnoc | HarmonyScape/Source/ChordEngine/ChordEngine.cpp:409-414 | filtering a voicing with one more pitch filters the prefix and keeps that pitch iff it is in range |
| ChordEngine.RemoveOutOfRangeIsFilter | HarmonyScape/Source/ChordEngine/ChordEngine.cpp:409-414 | the backward in-place removal loop, after visiting positions below i, equals the order-preserving range filter of that prefix followed by the untouched rest |
| ChordEngine.MultiNoteVoicingInRange | HarmonyScape/Source/ChordEngine/ChordEngine.cpp:335-415 | every pitch of a multi-note voicing lies in [36, 108] |
| ChordEngine.MultiNoteVoicingIsFilteredRaw | HarmonyScape/Source/ChordEngine/ChordEngine.cpp:335-415 | the multi-note voicing is the density-bucket voicing with the out-of-range pitches filtered out, in order |
| ChordEngine.SingleNoteVoicingAvoidsRoot | HarmonyScape/Source/ChordEngine/ChordEngine.cpp:212-334 | a single-note voicing is never empty and never contains the pressed note, since every offset added is non-zero |
| ChordEngine.SingleNoteVoicingUnfiltered | HarmonyScape/Source/ChordEngine/ChordEngine.cpp:212-334 | the single-note branch applies no range filter: pressing 127 at low density voices 134 |
| ChordEngine.UpperStructureBound | HarmonyScape/Source/ChordEngine/ChordEngine.cpp:373-377 | adding the upper structure only tops the voicing up to four pitches |
| ChordEngine.MediumVoicingAtMostFour | HarmonyScape/Source/ChordEngine/ChordEngine.cpp:362-378 | a medium-density multi-note voicing has at most four pitches, before and after filtering |
| ChordEngine.DiminishedUsesMinorExtensions | HarmonyScape/Source/ChordEngine/ChordEngine.cpp:383-395 | for every root, a chord named root + "dim" or root + "dim7" contains "m" and not "maj", so at high density its upper structure is the minor one (9th, 11th, b13 below 108; none at or below root 36), plus the octave below for roots 49-71 |
| ChordEngine.ChordFor | HarmonyScape/Source/ChordEngine/ChordEngine.cpp:41-51 | the chord of the held list is empty exactly when nothing is held |
| ChordEngine.HarmonyVelocityByte | HarmonyScape/Source/ChordEngine/ChordEngine.cpp:84 | harmony notes are sent with velocity 0.8, i.e. MIDI byte 102 |
| ChordEngine.OffEventsSpec | HarmonyScape/Source/ChordEngine/ChordEngine.cpp:64-75 | the note-off pass emits, at sample 0, exactly the note-offs of the previously voiced pitches missing from the new voicing |
| ChordEngine.OnEventsSpec | HarmonyScape/Source/ChordEngine/ChordEngine.cpp:77-86 | the note-on pass emits, at sample 0 and velocity 0.8, exactly the note-ons of the new-voicing pitches not voiced before |
| ChordEngine.BlockOutputSpec | HarmonyScape/Source/ChordEngine/ChordEngine.cpp:63-86 | every output event is at sample 0; note-offs only in blocks containing a note-off and only for dropped pitches; note-ons only for new pitches; and every new and, in such blocks, every dropped pitch gets its event |
| ChordEngine.OffEventsNone | HarmonyScape/Source/ChordEngine/ChordEngine.cpp:64-75 | no note-off is emitted when no voiced pitch was dropped |
| ChordEngine.OnEventsNone | HarmonyScape/Source/ChordEngine/ChordEngine.cpp:77-86 | no note-on is emitted when no pitch is new, so unchanged pitches are never re-triggered |
| ChordEngine.BlockOutputUnchanged | HarmonyScape/Source/ChordEngine/ChordEngine.cpp:63-86 | an unchanged voicing produces an empty diff |
| ChordEngine.NextStateConsistent | HarmonyScape/Source/ChordEngine/ChordEngine.cpp:17-92 | after a block the held list is duplicate-free, holds p iff p's last event was a note-on, and chord and voicing are those of the held list |
| ChordEngine.QuietBlockIsSilent | HarmonyScape/Source/ChordEngine/ChordEngine.cpp:17-92 | idempotence: a block without MIDI at unchanged density leaves the state as it was and emits nothing |
| ChordEngine.ReleaseAllLeavesHarmonySounding | HarmonyScape/Source/ChordEngine/ChordEngine.cpp:41-51 | as written: when the last key is released the stored voicing is cleared before the diff, so no harmony note-off is emitted |
| ChordEngine.ReleaseAllExample | HarmonyScape/Source/ChordEngine/ChordEngine.cpp:41-75 | as written: holding middle C voices G4 and C3; releasing C emits nothing, so both keep sounding |
| ChordEngine.ReleaseAllStopsHarmony | HarmonyScape/Source/ChordEngine/ChordEngine.cpp:63-75 | corrected: releasing the last key turns off every previously voiced harmony pitch and emits only note-offs |
| ChordEngine.NoNoteOffKeepsHeld | HarmonyScape/Source/ChordEngine/ChordEngine.cpp:23-39 | without a note-off no held key is dropped |
| ChordEngine.EmptiedMeansNoteOff | HarmonyScape/Source/ChordEngine/ChordEngine.cpp:23-64 | a held list can only empty in a block with a note-off, so the note-off pass runs then |
| ChordEngine.ChordEngineObject.constructor | HarmonyScape/Source/ChordEngine/ChordEngine.h:76-104 | a new engine holds no notes, the empty chord and an empty voicing, at 44.1 kHz and 512 samples |
| ChordEngine.ChordEngineObject.Prepare | HarmonyScape/Source/ChordEngine/ChordEngine.cpp:11-15 | prepare stores sample rate and block size and changes nothing else |
| ChordEngine.ChordEngineObject.ScanMessages | HarmonyScape/Source/ChordEngine/ChordEngine.cpp:23-39 | the message loop leaves the held list as the held-after function says and returns the block's note-off pitches |
| ChordEngine.ChordEngineObject.UpdateChord | HarmonyScape/Source/ChordEngine/ChordEngine.cpp:41-61 | re-detects the chord, clears the stored voicing when nothing is held (so what is left is the block's diff base, `DiffBase`), and returns the voicing of the new chord |
| ChordEngine.ChordEngineObject.ProcessMidi | HarmonyScape/Source/ChordEngine/ChordEngine.cpp:17-92 | `processMidi` moves the state to the next state of the block and returns the diff against the stored voicing as `UpdateChord` leaves it, so cleared when no key is held any more (`Output`, as written); the engine invariant is kept |
| ChordEngine.ChordEngineObject.BlockDiff | HarmonyScape/Source/ChordEngine/ChordEngine.cpp:63-86 | the two output loops build exactly the block diff |
| ChordEngine.ChordEngineObject.AddNoteOffs | HarmonyScape/Source/ChordEngine/ChordEngine.cpp:64-75 | the note-off loop appends the dropped pitches' note-offs |
| ChordEngine.ChordEngineObject.AddNoteOns | HarmonyScape/Source/ChordEngine/ChordEngine.cpp:77-86 | the note-on loop appends the new pitches' note-ons |
| Arpeggio.PatternOf | HarmonyScape/Source/RibbonEngine/RibbonEngine.cpp:119 | `static_cast<RibbonPattern>(k)` names a pattern exactly for k in 0..6 |
| Arpeggio.DownLoop | HarmonyScape/Source/RibbonEngine/RibbonEngine.cpp:142-146 | the downward loop yields the sorted prefix reversed, as a permutation of it |
| Arpeggio.Swap | HarmonyScape/Source/RibbonEngine/RibbonEngine.cpp:198 | a shuffle swap is a permutation |
| Arpeggio.ShuffleDown | HarmonyScape/Source/RibbonEngine/RibbonEngine.cpp:193-200 | the shuffle keeps length and contents, so the Random pattern is a permutation whatever the random draws |
| Arpeggio.Generate | HarmonyScape/Source/RibbonEngine/RibbonEngine.cpp:125-241 | empty input, or a pattern value outside the enumeration, gives an empty sequence |
| Arpeggio.OutsideOddIsEven | HarmonyScape/Source/RibbonEngine/RibbonEngine.cpp:148-174 | the odd-length Outside loop after the middle note is the even-length loop on the notes without the middle |
| Arpeggio.OutsideEvenLoopPerm | HarmonyScape/Source/RibbonEngine/RibbonEngine.cpp:165-172 | the even-length Outside loop from step i takes exactly the upper notes from mid+i and the lower notes below mid-i |
| Arpeggio.OutsideEvenPerm | HarmonyScape/Source/RibbonEngine/RibbonEngine.cpp:165-172 | the even-length Outside order is a permutation |
| Arpeggio.OutsideOddLoopHalves | HarmonyScape/Source/RibbonEngine/RibbonEngine.cpp:154-164 | the odd-length Outside loop takes exactly the notes on both sides of the middle |
| Arpeggio.OutsideOddPerm | HarmonyScape/Source/RibbonEngine/RibbonEngine.cpp:154-164 | the odd-length Outside order is a permutation |
| Arpeggio.OutsidePerm | HarmonyScape/Source/RibbonEngine/RibbonEngine.cpp:148-174 | the Outside order is a permutation for every length |
| Arpeggio.SpiralPerm | HarmonyScape/Source/RibbonEngine/RibbonEngine.cpp:217-237 | the Spiral loop, removing from either end, is a permutation |
| Arpeggio.InsideIsSpiralLoop | HarmonyScape/Source/RibbonEngine/RibbonEngine.cpp:176-191 | the two-pointer Inside loop produces the same order as alternate removal from the ends |
| Arpeggio.CascadeWavesPerm | HarmonyScape/Source/RibbonEngine/RibbonEngine.cpp:202-215 | the two Cascade waves together take each note exactly once |
| Arpeggio.GeneratePermutation | HarmonyScape/Source/RibbonEngine/RibbonEngine.cpp:125-241 | every named pattern returns a permutation of its input (same multiset, same length); empty input gives empty output |
| Arpeggio.UpDownOrder | HarmonyScape/Source/RibbonEngine/RibbonEngine.cpp:137-146 | Up is the ascending sort and Down is its exact reverse |
| Arpeggio.UpDownExample | HarmonyScape/Source/RibbonEngine/RibbonEngine.cpp:137-146 | {64, 60, 67} gives [60, 64, 67] up and [67, 64, 60] down |
| Arpeggio.CascadeWaveEveryOther | HarmonyScape/Source/RibbonEngine/RibbonEngine.cpp:206-213 | one Cascade wave is every other sorted note from its starting parity |
| Arpeggio.CascadeOddWave | HarmonyScape/Source/RibbonEngine/RibbonEngine.cpp:206-213 | the second wave is the odd-indexed sorted notes |
| Arpeggio.CascadeWaves | HarmonyScape/Source/RibbonEngine/RibbonEngine.cpp:206-213 | both waves together are the even-indexed notes followed by the odd-indexed ones |
| Arpeggio.CascadeEvensThenOdds | HarmonyScape/Source/RibbonEngine/RibbonEngine.cpp:202-215 | Cascade is the even-indexed sorted notes followed by the odd-indexed ones |
| Arpeggio.SpiralEvenIsInside | HarmonyScape/Source/RibbonEngine/RibbonEngine.cpp:176-237 | Spiral on an even-indexed ribbon equals Inside |
| Arpeggio.SpiralOddStartsHigh | HarmonyScape/Source/RibbonEngine/RibbonEngine.cpp:217-237 | Spiral on an odd-indexed ribbon starts at the highest note, then the lowest |
| Arpeggio.InsideStartsAtEdges | HarmonyScape/Source/RibbonEngine/RibbonEngine.cpp:176-191 | Inside starts at the lowest note, then the highest |
| Arpeggio.OutsideStartsInMiddle | HarmonyScape/Source/RibbonEngine/RibbonEngine.cpp:148-174 | Outside starts at the sorted note at index size/2 |
| Ribbons.BeatsToSamples | HarmonyScape/Source/RibbonEngine/RibbonEngine.cpp:377-383 | a non-positive tempo gives 0 samples |
| Ribbons.SamplesToBeats | HarmonyScape/Source/RibbonEngine/RibbonEngine.cpp:385-392 | a non-positive tempo gives 0 beats |
| Ribbons.BeatsToSamplesLinear | HarmonyScape/Source/RibbonEngine/RibbonEngine.cpp:377-383 | for a positive tempo, samples = beats · 60 · sampleRate / bpm |
| Ribbons.SamplesToBeatsInvertsBeatsToSamples | HarmonyScape/Source/RibbonEngine/RibbonEngine.cpp:377-392 | round trip: converting beats to samples and back gives the beats, for positive tempo and rate |
| Ribbons.BeatsToSamplesInvertsSamplesToBeats | HarmonyScape/Source/RibbonEngine/RibbonEngine.cpp:377-392 | round trip the other way: samples to beats and back gives the samples |
| Ribbons.ConfigureRibbons | HarmonyScape/Source/RibbonEngine/RibbonEngine.cpp:394-435 | the in-place loop over the five ribbon configs computes the master-control mapping |
| Ribbons.ConfigureRanges | HarmonyScape/Source/RibbonEngine/RibbonEngine.cpp:405-433 | ribbon i is enabled iff i < activeRibbons; an enabled one has rate in [0.1, 1], intensity in [0.3, 1] and pattern (i + trunc(7·variation)) % 7; a disabled one only loses its enabled flag |
| Ribbons.ConfigureInRange | HarmonyScape/Source/RibbonEngine/RibbonEngine.cpp:410-433 | with controls in [0, 1] the pattern index is (i + ⌊7·variation⌋) mod 7 and names a pattern, spread is in [0.3, 1], offset in [0, 0.25·i], decay in [0.6, 1] and gate in [0.5, 0.9] |
| Ribbons.SpatialPosition | HarmonyScape/Source/RibbonEngine/RibbonEngine.cpp:243-262 | a ribbon note's position lies in [-1, 1] and is 0 when the sequence has at most one note |
| Ribbons.SpatialPositionUnclamped | HarmonyScape/Source/RibbonEngine/RibbonEngine.cpp:250-254 | without movement and with spread in [0, 1] the clamp is inactive: the position spreads notes linearly from -spread to spread |
| Ribbons.SpatialPositionMirror | HarmonyScape/Source/RibbonEngine/RibbonEngine.cpp:250-261 | without movement, mirrored note indices get mirrored positions |
| Ribbons.OfRibbon | HarmonyScape/Source/RibbonEngine/RibbonEngine.cpp:322-324 | the notes of one ribbon are exactly the scheduled notes carrying its index |
| Ribbons.WithoutRibbon | HarmonyScape/Source/RibbonEngine/RibbonEngine.cpp:322-324 | `removeIf` on the ribbon index keeps exactly the other ribbons' notes |
| Ribbons.Unexpired | HarmonyScape/Source/RibbonEngine/RibbonEngine.cpp:41-43 | the expiry `removeIf` keeps exactly the notes still playing at the current position |
| Ribbons.InWindow | HarmonyScape/Source/RibbonEngine/RibbonEngine.cpp:62-71 | the returned notes are exactly the scheduled ones overlapping the block |
| Ribbons.OfRibbonAppend | HarmonyScape/Source/RibbonEngine/RibbonEngine.cpp:372 | a ribbon's notes in a concatenation are its notes in each part |
| Ribbons.OfRibbonWithout | HarmonyScape/Source/RibbonEngine/RibbonEngine.cpp:322-324 | removing ribbon r's notes leaves r with none and every other ribbon unchanged |
| Ribbons.CountUnexpired | HarmonyScape/Source/RibbonEngine/RibbonEngine.cpp:41-43 | expiry never adds notes to a ribbon |
| Ribbons.CountInWindow | HarmonyScape/Source/RibbonEngine/RibbonEngine.cpp:62-71 | selecting the block's notes never adds notes to a ribbon |
| Ribbons.ReplaceKeepsOnePerRibbon | HarmonyScape/Source/RibbonEngine/RibbonEngine.cpp:322-372 | removing a ribbon's notes and then adding its new note keeps at most one note per ribbon, gives that ribbon exactly the new note and leaves the others unchanged |
| Ribbons.UnexpiredKeepsOnePerRibbon | HarmonyScape/Source/RibbonEngine/RibbonEngine.cpp:41-43 | expiry keeps the one-note-per-ribbon invariant |
| Ribbons.InWindowOnePerRibbon | HarmonyScape/Source/RibbonEngine/RibbonEngine.cpp:62-71 | the notes returned for a block hold at most one note per ribbon |
| Ribbons.Fire | HarmonyScape/Source/RibbonEngine/RibbonEngine.cpp:318-373 | firing a step keeps the step counter inside the sequence |
| Ribbons.RibbonStep | HarmonyScape/Source/RibbonEngine/RibbonEngine.cpp:292-375 | one ribbon's phase update keeps the step counter inside the sequence (0 while there is none) |
| Ribbons.DueIff | HarmonyScape/Source/RibbonEngine/RibbonEngine.cpp:308-316 | a step is due iff the time since the last step is at least (1 + offset)·sampleRate/(1 + 8·rate) |
| Ribbons.RibbonStepWaits | HarmonyScape/Source/RibbonEngine/RibbonEngine.cpp:297-316 | when no step is due (or the chord yields no sequence) nothing is scheduled and the step counter stays |
| Ribbons.FireSchedulesStep | HarmonyScape/Source/RibbonEngine/RibbonEngine.cpp:318-373 | a fired step advances the counter by one modulo the sequence length, records the time, and leaves the ribbon exactly one note: the sequence's pitch at the new step, started at pos + swing offset, with duration interval·clamp(gate) |
| Ribbons.FireKeepsOthers | HarmonyScape/Source/RibbonEngine/RibbonEngine.cpp:322-372 | firing one ribbon keeps one note per ribbon and leaves every other ribbon's notes unchanged |
| Ribbons.DurationBounds | HarmonyScape/Source/RibbonEngine/RibbonEngine.cpp:331 | a note lasts between 0.1 and 1 step intervals, and exactly gate steps for a gate in [0.1, 1] |
| Ribbons.SwingBounds | HarmonyScape/Source/RibbonEngine/RibbonEngine.cpp:334-339 | the swing offset is non-zero only on odd steps with positive swing, and at most 0.4·interval·swing |
| Ribbons.NewNoteInRange | HarmonyScape/Source/RibbonEngine/RibbonEngine.cpp:342-369 | a new note has velocity in [0.2, 1], position in [-1, 1] (0 for a one-note sequence), a pitch from the sequence, the ribbon's index and is active |
| Ribbons.StepRibbonOk | HarmonyScape/Source/RibbonEngine/RibbonEngine.cpp:292-375 | updating one ribbon keeps every step counter in range and one note per ribbon, and keeps the chord |
| Ribbons.StepRibbonFrame | HarmonyScape/Source/RibbonEngine/RibbonEngine.cpp:292-375 | updating ribbon i leaves every other ribbon's state and notes unchanged |
| Ribbons.UpdateUpTo | HarmonyScape/Source/RibbonEngine/RibbonEngine.cpp:54-60 | updating the first k ribbons keeps the engine invariant and the chord |
| Ribbons.StepIfEnabled | HarmonyScape/Source/RibbonEngine/RibbonEngine.cpp:56-59 | a disabled ribbon is not touched |
| Ribbons.UpdateUpToFrame | HarmonyScape/Source/RibbonEngine/RibbonEngine.cpp:52-60 | ribbons at or beyond the active count, and disabled ones, keep their state and notes |
| Ribbons.Regenerated | HarmonyScape/Source/RibbonEngine/RibbonEngine.cpp:119-121 | regenerating a ribbon resets its step to 0 and keeps its phase, last event time and active flag |
| Ribbons.WithChord | HarmonyScape/Source/RibbonEngine/RibbonEngine.cpp:111-123 | setting a chord keeps the five ribbon states |
| Ribbons.WithChordOk | HarmonyScape/Source/RibbonEngine/RibbonEngine.cpp:111-123 | setting a chord stores it, keeps the scheduled notes, and gives ribbon i the pattern i mod 7 of the chord, a permutation of it, with its step reset to 0 |
| Ribbons.ProcessedValue | HarmonyScape/Source/RibbonEngine/RibbonEngine.cpp:32-60 | processing a chord keeps the engine invariant and leaves the given chord as the current one |
| Ribbons.ConfigureRatesOk | HarmonyScape/Source/RibbonEngine/RibbonEngine.cpp:405-414 | every enabled configured ribbon has a non-negative rate |
| Ribbons.ResetStateOk | HarmonyScape/Source/RibbonEngine/RibbonEngine.cpp:102-108 | reset puts phase and step to 0 and keeps the sequence and the step invariant |
| Ribbons.FireIfDue | HarmonyScape/Source/RibbonEngine/RibbonEngine.cpp:316-374 | fires exactly when the step is due, and otherwise leaves state and notes as they were |
| Ribbons.AdvanceRibbon | HarmonyScape/Source/RibbonEngine/RibbonEngine.cpp:292-375 | the imperative phase update of one ribbon computes the ribbon step function |
| Ribbons.RibbonEngine.constructor | HarmonyScape/Source/RibbonEngine/RibbonEngine.cpp:4-14 | a new engine has no chord and no notes, and ribbon i is inactive with an empty sequence and phase 0.2·i |
| Ribbons.RibbonEngine.Prepare | HarmonyScape/Source/RibbonEngine/RibbonEngine.cpp:20-25 | prepare stores the rate and block size and rewinds the position to 0 |
| Ribbons.RibbonEngine.AdvanceTime | HarmonyScape/Source/RibbonEngine/RibbonEngine.cpp:76-79 | the position advances by exactly the block's samples |
| Ribbons.RibbonEngine.Reset | HarmonyScape/Source/RibbonEngine/RibbonEngine.cpp:97-109 | reset rewinds the position, clears every scheduled note and resets each ribbon state |
| Ribbons.RibbonEngine.SetCurrentChord | HarmonyScape/Source/RibbonEngine/RibbonEngine.cpp:111-123 | setting the chord regenerates all five sequences as specified by WithChord |
| Ribbons.RibbonEngine.ResetStates | HarmonyScape/Source/RibbonEngine/RibbonEngine.cpp:101-108 | the loop of reset puts every ribbon state in the array back to phase 0 and step 0, keeping its sequence |
| Ribbons.RibbonEngine.RegenerateSequences | HarmonyScape/Source/RibbonEngine/RibbonEngine.cpp:116-122 | the loop regenerates every ribbon state in the array |
| Ribbons.RibbonEngine.UpdateRibbonPhase | HarmonyScape/Source/RibbonEngine/RibbonEngine.cpp:292-375 | one ribbon's update in place equals the pure ribbon step and keeps the engine invariant |
| Ribbons.RibbonEngine.UpdateActiveRibbons | HarmonyScape/Source/RibbonEngine/RibbonEngine.cpp:52-60 | the loop over the active ribbons equals updating the first activeCount ribbons |
| Ribbons.RibbonEngine.ProcessChord | HarmonyScape/Source/RibbonEngine/RibbonEngine.cpp:27-74 | disabled ribbons or an empty chord return nothing and change nothing; otherwise the configs are derived from the master controls, the state advances as specified, the result is the scheduled notes overlapping the block, and it holds at most one note per ribbon |
| Ribbons.RibbonEngine.CollectActive | HarmonyScape/Source/RibbonEngine/RibbonEngine.cpp:62-71 | the collection loop returns the notes overlapping the block |
| Spatial.ReleasedStates | HarmonyScape/Source/SpatialEngine/SpatialEngine.h:117-125 | release clears active, moves to Release unless Idle, keeps an Idle voice Idle, and leaves the level alone |
| Spatial.CalculatePosition | HarmonyScape/Source/SpatialEngine/SpatialEngine.cpp:380-411 | a voice's stereo position lies in [-width, width] for width ≥ 0 |
| Spatial.ClampedTimesWidth | HarmonyScape/Source/SpatialEngine/SpatialEngine.cpp:408 | scaling a clamped unit position by a non-negative width stays within ±width |
| Spatial.PositionScalesWithWidth | HarmonyScape/Source/SpatialEngine/SpatialEngine.cpp:380-411 | the position is linear in the width |
| Spatial.MissingNoteIsOdd | HarmonyScape/Source/SpatialEngine/SpatialEngine.cpp:380-411 | a note missing from the held list (index -1) is placed like chord position 1 |
| Spatial.FirstWhere | HarmonyScape/Source/SpatialEngine/SpatialEngine.cpp:78-111 | the first voice meeting the condition, or -1 when none does |
| Spatial.Oldest | HarmonyScape/Source/SpatialEngine/SpatialEngine.cpp:113-138 | the oldest-voice scan returns -1 or a pool index |
| Spatial.OldestScanSpec | HarmonyScape/Source/SpatialEngine/SpatialEngine.cpp:113-128 | after scanning n voices, -1 with the bound still `now`, or the first index holding the strictly smallest start time below now |
| Spatial.OldestSpec | HarmonyScape/Source/SpatialEngine/SpatialEngine.cpp:113-138 | the oldest voice is -1 iff no start time is before now, otherwise the first voice with the smallest start time |
| Spatial.AllocIndex | HarmonyScape/Source/SpatialEngine/SpatialEngine.cpp:75-138 | the voice chosen for a note-on is -1 or a pool index |
| Spatial.AllocationPriority | HarmonyScape/Source/SpatialEngine/SpatialEngine.cpp:75-138 | allocation takes the lowest Idle voice, else the first quiet released voice (inactive, Release, level < 0.01), else the oldest voice; the note is dropped exactly when none qualifies |
| Spatial.NoteOn | HarmonyScape/Source/SpatialEngine/SpatialEngine.cpp:75-138 | handling one note-on keeps the pool size |
| Spatial.NoteOnTriggersOne | HarmonyScape/Source/SpatialEngine/SpatialEngine.cpp:75-138 | a note-on triggers exactly the allocated voice (active, Attack, level, phase and filters 0, start = now, chord position its index in the held list) and leaves every other voice untouched; a dropped note changes nothing |
| Spatial.NoteOnPass | HarmonyScape/Source/SpatialEngine/SpatialEngine.cpp:68-140 | the note-on pass keeps the pool size |
| Spatial.NoteOffPass | HarmonyScape/Source/SpatialEngine/SpatialEngine.cpp:142-162 | the note-off pass keeps the pool size |
| Spatial.NoteOffPassReleases | HarmonyScape/Source/SpatialEngine/SpatialEngine.cpp:142-162 | after the note-off pass no active voice plays a stopped pitch, every active voice that did is inactive in Release on the same pitch, and all other voices are untouched |
| Spatial.TimeoutPassStops | HarmonyScape/Source/SpatialEngine/SpatialEngine.cpp:178-185 | after the timeout pass no active voice has timed out, and every timed-out one is Idle at level 0 |
| Spatial.InSamples | HarmonyScape/Source/SpatialEngine/SpatialEngine.cpp:231 | a positive time at a positive rate is a positive number of samples |
| Spatial.EnvelopeTransitions | HarmonyScape/Source/SpatialEngine/SpatialEngine.cpp:223-317 | Attack→Decay at level ≥ 1 (level 1), Decay→Sustain at level ≤ sustain, Sustain→Release when inactive, Release→Idle at level ≤ 0.001 (inactive, level 0), Idle forces level 0 and inactive; otherwise the state stays; pitch, phase, position and timing are never touched |
| Spatial.ReleaseIncrementBound | HarmonyScape/Source/SpatialEngine/SpatialEngine.cpp:274-300 | while releasing above 0.001 the level falls by at least 0.0001 per sample |
| Spatial.AttackIncrementPositive | HarmonyScape/Source/SpatialEngine/SpatialEngine.cpp:228-241 | attack always raises the level |
| Spatial.ClampLevel | HarmonyScape/Source/SpatialEngine/SpatialEngine.cpp:352-356 | the rendered level lies in [0, 1] and equals the raw level inside that range |
| Spatial.AdvancePhase | HarmonyScape/Source/SpatialEngine/SpatialEngine.cpp:365-368 | the oscillator phase stays in [0, 1) for an increment below 1 |
| Spatial.Sample | HarmonyScape/Source/SpatialEngine/SpatialEngine.cpp:343-369 | after every rendered sample the level is in [0, 1] |
| Spatial.SampleSettles | HarmonyScape/Source/SpatialEngine/SpatialEngine.cpp:343-369 | every rendered sample leaves an Idle voice silent and inactive, and keeps Idle voices Idle |
| Spatial.ReleaseSampleFalls | HarmonyScape/Source/SpatialEngine/SpatialEngine.cpp:274-300 | one released sample either reaches Idle (level ≤ 0.001) or lowers the level by at least 0.0001 (or to 0) |
| Spatial.IdleStays | HarmonyScape/Source/SpatialEngine/SpatialEngine.cpp:302-307 | a silent Idle voice stays Idle, inactive and silent for any number of samples |
| Spatial.ReleaseReachesIdle | HarmonyScape/Source/SpatialEngine/SpatialEngine.cpp:274-300 | a released voice at level at most 0.001 + 0.0001·(n-1) is Idle after n samples |
| Spatial.ReleaseWithinTenThousand | HarmonyScape/Source/SpatialEngine/SpatialEngine.cpp:274-300 | a released voice reaches Idle within 10 000 samples |
| Spatial.RenderSamplesKeeps | HarmonyScape/Source/SpatialEngine/SpatialEngine.cpp:343-369 | rendering keeps every Idle voice silent and leaves the level in [0, 1] |
| Spatial.RenderOrResetKeeps | HarmonyScape/Source/SpatialEngine/SpatialEngine.cpp:200-219 | a voice not rendered is reset to Idle at level 0, a rendered voice ends in [0, 1], and every Idle voice has level 0 |
| Spatial.NoteOnPassSettled | HarmonyScape/Source/SpatialEngine/SpatialEngine.cpp:68-140 | the note-on pass keeps every Idle voice silent |
| Spatial.NoteOffPassSettled | HarmonyScape/Source/SpatialEngine/SpatialEngine.cpp:142-162 | the note-off pass keeps every Idle voice silent |
| Spatial.ProcessKeepsSettled | HarmonyScape/Source/SpatialEngine/SpatialEngine.cpp:24-221 | a whole block keeps the pool invariant that every Idle voice is silent and inactive |
| Spatial.StoppedNotesSilenced | HarmonyScape/Source/SpatialEngine/SpatialEngine.cpp:69-162 | note-ons are handled before note-offs: after the third pass every voice on a pitch that got a note-off anywhere in the block is inactive, including voices triggered in the same block |
| Spatial.Voice.constructor | HarmonyScape/Source/SpatialEngine/SpatialEngine.h:71-91 | a new pool voice is inactive, Idle and silent |
| Spatial.Voice.Trigger | HarmonyScape/Source/SpatialEngine/SpatialEngine.h:98-115 | trigger stores note, position and chord position and starts Attack from level 0 with phase and filters 0 at time now |
| Spatial.Voice.Release | HarmonyScape/Source/SpatialEngine/SpatialEngine.h:117-125 | release updates the voice as the released-state function says |
| Spatial.Voice.ForceStop | HarmonyScape/Source/SpatialEngine/SpatialEngine.h:134-141 | force stop leaves the voice inactive, Idle, at level 0, with both filters 0 |
| Spatial.SpatialEngine.Values | HarmonyScape/Source/SpatialEngine/SpatialEngine.h:176 | the pool's value lists the sixteen voices' fields in order |
| Spatial.SpatialEngine.constructor | HarmonyScape/Source/SpatialEngine/SpatialEngine.cpp:3-12 | the pool has sixteen distinct voices, all inactive, Idle and at level 0, with empty note lists |
| Spatial.SpatialEngine.Prepare | HarmonyScape/Source/SpatialEngine/SpatialEngine.cpp:18-22 | prepare stores the rate and block size |
| Spatial.SpatialEngine.SetChordOutput | HarmonyScape/Source/SpatialEngine/SpatialEngine.h:65 | stores the harmony output |
| Spatial.SpatialEngine.GetActiveVoiceNotes | HarmonyScape/Source/SpatialEngine/SpatialEngine.cpp:437-444 | the "active voice notes" are the user notes followed by the generated notes, nothing else |
| Spatial.SpatialEngine.FindFreeVoice | HarmonyScape/Source/SpatialEngine/SpatialEngine.cpp:78-81 | the first-tier scan returns the lowest Idle voice or -1 |
| Spatial.SpatialEngine.FindFadingVoice | HarmonyScape/Source/SpatialEngine/SpatialEngine.cpp:94-100 | the second-tier scan returns the first quiet released voice or -1 |
| Spatial.SpatialEngine.FindOldestVoice | HarmonyScape/Source/SpatialEngine/SpatialEngine.cpp:113-128 | the third-tier scan returns the oldest voice or -1 |
| Spatial.SpatialEngine.TriggerVoice | HarmonyScape/Source/SpatialEngine/SpatialEngine.cpp:82-88 | triggering voice i changes exactly that voice, at its calculated position and chord position |
| Spatial.SpatialEngine.AllocateVoice | HarmonyScape/Source/SpatialEngine/SpatialEngine.cpp:75-138 | the three tiers in order handle one note-on as the pool function says |
| Spatial.SpatialEngine.AllocateNoteOns | HarmonyScape/Source/SpatialEngine/SpatialEngine.cpp:68-140 | the second pass handles every note-on of the block in order |
| Spatial.SpatialEngine.ReleaseVoicesOf | HarmonyScape/Source/SpatialEngine/SpatialEngine.cpp:150-160 | releases every active voice on the pitch |
| Spatial.SpatialEngine.ReleaseStoppedNotes | HarmonyScape/Source/SpatialEngine/SpatialEngine.cpp:142-162 | the third pass releases every pitch that got a note-off |
| Spatial.SpatialEngine.StopTimedOutVoices | HarmonyScape/Source/SpatialEngine/SpatialEngine.cpp:178-185 | the timeout loop force-stops exactly the active timed-out voices |
| Spatial.SpatialEngine.ProcessEnvelope | HarmonyScape/Source/SpatialEngine/SpatialEngine.cpp:223-317 | the in-place envelope update follows the envelope step function |
| Spatial.SpatialEngine.RenderSample | HarmonyScape/Source/SpatialEngine/SpatialEngine.cpp:343-369 | one sample of rendering: envelope step, clamp and phase advance |
| Spatial.SpatialEngine.RenderVoice | HarmonyScape/Source/SpatialEngine/SpatialEngine.cpp:319-378 | with fewer than two channels the voice is untouched, otherwise every sample of the block is rendered |
| Spatial.SpatialEngine.RenderVoices | HarmonyScape/Source/SpatialEngine/SpatialEngine.cpp:197-220 | renders every sounding voice and resets the others |
| Spatial.SpatialEngine.UpdateGeneratedNotes | HarmonyScape/Source/SpatialEngine/SpatialEngine.cpp:164-176 | the generated notes become the distinct note-on pitches of the harmony output |
| Spatial.SpatialEngine.Process | HarmonyScape/Source/SpatialEngine/SpatialEngine.cpp:24-221 | one block: the pool becomes the processed pool (note-ons, then note-offs, then timeouts, then render), the user notes are the pitches held by the block's events, and the generated notes are refreshed only by a non-empty harmony output |
| Plugin.RibbonSourceSpec | HarmonyScape/Source/PluginProcessor.cpp:139-160 | the ribbon source is duplicate-free, holds exactly the note-on pitches of user input and harmony, starts with the user's in first-occurrence order, and continues with harmony-only pitches |
| Plugin.NoMembersEmpty | HarmonyScape/Source/PluginProcessor.cpp:176 | a list with no members is empty, so `isEmpty` is the absence of note-on pitches |
| Plugin.SilentBlockSkipsRibbons | HarmonyScape/Source/PluginProcessor.cpp:176 | a block without any note-on never consults the ribbon engine |
| Plugin.HostRibbonParams | HarmonyScape/Source/PluginProcessor.cpp:162-170 | enable is "value > 0.5", the ribbon count is truncated, the master controls are copied, and the per-ribbon configs start at their defaults |
| Plugin.RibbonVelocityByte | HarmonyScape/Source/PluginProcessor.cpp:195-196 | a ribbon note-on's MIDI velocity lies in [89, 127], and is round(127·1.2·v) when 1.2·v is inside [0.7, 1] |
| Plugin.RibbonEvent | HarmonyScape/Source/PluginProcessor.cpp:184-207 | the event sits in [0, numSamples-1] (at the note's own position when that is inside), is a note-on with the boosted velocity or a note-off, on the note's pitch |
| Plugin.RibbonEventsSpec | HarmonyScape/Source/PluginProcessor.cpp:182-209 | an event is produced exactly for each active ribbon note |
| Plugin.RibbonMidiSpec | HarmonyScape/Source/PluginProcessor.cpp:173-209 | the ribbon buffer is time-ordered, holds exactly the active notes' events, all inside the block, with every note-on at velocity ≥ 89 |
| Plugin.RibbonDisplayFromSpec | HarmonyScape/Source/PluginProcessor.cpp:174-200 | the display list gains exactly the pitches of active note-on ribbon notes, without duplicates |
| Plugin.RibbonDisplayIsEmittedNoteOns | HarmonyScape/Source/PluginProcessor.cpp:174-201 | the ribbon display list is duplicate-free and holds exactly the pitches of the emitted ribbon note-ons |
| Plugin.Reduced | HarmonyScape/Source/PluginProcessor.cpp:226-240 | corrected: a user note-on keeps its pitch and position with 30 % of its velocity; every other message passes unchanged |
| Plugin.ReducedAsWrittenSaturates | HarmonyScape/Source/PluginProcessor.cpp:232-233 | as written: any user note-on with velocity ≥ 4 is re-sent at velocity 127 |
| Plugin.ReducedLowVelocityIsNoteOff | HarmonyScape/Source/PluginProcessor.cpp:232-233 | corrected: a user note-on becomes a note-off (byte 0) iff its velocity is 1; every louder note-on stays a note-on |
| Plugin.ReducedAsWrittenExample | HarmonyScape/Source/PluginProcessor.cpp:232-233 | velocity 100 becomes 127 as written, 30 when corrected |
| Plugin.ReducedIsThirtyPercent | HarmonyScape/Source/PluginProcessor.cpp:231-233 | corrected: the reduced velocity is within half a step of 0.3·v and always quieter than v |
| Plugin.ReducedUser | HarmonyScape/Source/PluginProcessor.cpp:226-240 | corrected: the reduced user stream has the same timing as the user's, keeps every other message and keeps each note-on's pitch |
| Plugin.ReducedUserAsWritten | HarmonyScape/Source/PluginProcessor.cpp:226-240 | as written: the re-sent user stream has the same timing as the user's, keeps every other message and keeps each note-on's pitch |
| Plugin.MergedSpec | HarmonyScape/Source/PluginProcessor.cpp:219-267 | adding one block's events and then another's gives a time-ordered buffer of exactly both blocks' events |
| Plugin.MergedInOrder | HarmonyScape/Source/PluginProcessor.cpp:219-267 | two ordered blocks, the first no later than the start of the second, merge into their concatenation |
| Plugin.SameTimingKeepsOrder | HarmonyScape/Source/PluginProcessor.cpp:226-240 | re-sending events at their own positions keeps a block's order and its upper bound |
| Plugin.CombinedSpec | HarmonyScape/Source/PluginProcessor.cpp:219-267 | the combined stream, as written and corrected, is time-ordered; with ribbons on and ribbon MIDI present it holds exactly the reduced user events and the ribbon events (no harmony); otherwise exactly the user and harmony events |
| Plugin.CombinedInOrder | HarmonyScape/Source/PluginProcessor.cpp:219-267 | for ordered inputs, as written and corrected, it is the (reduced) user events followed by the ribbon events, or the user events followed by the harmony events |
| Plugin.ReleasingFromSpec | HarmonyScape/Source/PluginProcessor.cpp:372-378 | the releasing loop adds exactly the active-voice pitches in neither list, without duplicates |
| Plugin.ReleasingSpec | HarmonyScape/Source/PluginProcessor.cpp:366-379 | releasing notes are duplicate-free and are exactly the active-voice pitches in neither the user nor the generated list |
| Plugin.ReleasingAsWrittenIsEmpty | HarmonyScape/Source/PluginProcessor.cpp:302 | as written: fed `getActiveVoiceNotes`, which is the union of the two lists, the releasing-notes display is always empty |
| Plugin.SoundingNotesSpec | HarmonyScape/Source/SpatialEngine/SpatialEngine.cpp:197-220 | the pitches the pool is rendering, without duplicates |
| Plugin.ReleasingShowsFadingVoices | HarmonyScape/Source/PluginProcessor.cpp:366-379 | corrected: fed the sounding voices' pitches, releasing notes are exactly the pitches still sounding but neither held nor generated |
| Plugin.ReleasingExample | HarmonyScape/Source/PluginProcessor.cpp:366-379 | a voice on E4 fading in Release shows as releasing when corrected; as written nothing shows |
| Plugin.Processor.constructor | HarmonyScape/Source/PluginProcessor.cpp:5-10 | a new processor has three valid engines and empty display lists |
| Plugin.Processor.PrepareToPlay | HarmonyScape/Source/PluginProcessor.cpp:104-110 | every engine receives the rate and block size, and the ribbon clock rewinds |
| Plugin.Processor.ReleaseResources | HarmonyScape/Source/PluginProcessor.cpp:112-117 | stopping playback resets the ribbon engine |
| Plugin.Processor.UpdateActiveVoices | HarmonyScape/Source/PluginProcessor.cpp:366-379 | the loop refills the releasing list with exactly the releasing pitches |
| Plugin.Processor.ProcessBlock | HarmonyScape/Source/PluginProcessor.cpp:128-303 | one block: the harmony engine advances and its diff is stored; the ribbon engine is consulted only with ribbons on and a non-empty source, and its clock advances by the block; the display holds the ribbon note-ons; the harmony diff is processMidi's as written; the combined stream is the as-written merge, with the float-overload reduction; the pool processes that stream; and the releasing list, fed `getActiveVoiceNotes`, is recomputed and is empty |
| Plugin.Processor.Arrange | HarmonyScape/Source/PluginProcessor.cpp:134-216 | the first half of the block: harmony (processMidi's as-written diff), ribbon source, ribbon engine and display, without touching the voice pool |
| Plugin.Processor.Harmonize | HarmonyScape/Source/PluginProcessor.cpp:134-137 | runs the harmony engine, whose output is processMidi's as-written diff, and stores it in the spatial engine |
| Plugin.Processor.RunRibbons | HarmonyScape/Source/PluginProcessor.cpp:176-213 | consults the ribbon engine exactly when enabled with a non-empty source, and always advances its clock |
| Plugin.Processor.Render | HarmonyScape/Source/PluginProcessor.cpp:298-302 | processes the combined stream and recomputes the releasing list from `getActiveVoiceNotes`, which leaves it empty |

## Left out

- The null-pointer dereference of the five unregistered ribbon parameters
  in `processBlock`: `Plugin.HostParams` supplies the five values instead.
- Audio output: waveform synthesis (`generateSample`), pan gains, per-voice
  volume scaling by the active-voice count, and writing samples into the audio
  buffer. Only the envelope and phase bookkeeping of `renderVoice` is
  modelled, and the `volume` argument of `process` is unused.
- The frequency `pow` of `renderVoice`: the pitch-to-frequency conversion is
  the parameter `frequency`.
- The sine terms: ribbon velocity humanisation is the parameter `sine`, with
  only its clamp modelled. The spatial "movement" term of
  `calculateRibbonSpatialPosition` is taken as 0.
- Randomness: `std::rand` in the configuration mapping is the parameter
  `randDraws`. `std::shuffle` of the Random pattern is a shuffle driven by the
  parameter `draws`, and only the permutation property is claimed.
- Floating-point rounding: floats are exact reals, so `float`/`double`
  rounding and the single-precision arithmetic of the configuration mapping
  are not modelled.
- `int64` overflow of millisecond timestamps, and the 32-bit `int` range of
  pitches and counters: integers are unbounded.
- The MIDI channel: every message is on channel 1, and channel numbers are
  not modelled.
- The clock: `juce::Time::currentTimeMillis` is the parameter `now`, shared
  by the voices triggered in one block.
- Spatial.Voice.HasTimedOut and Spatial.Voice.IsAudible: modelled as
  predicates with no contract of their own. The pool's timeout pass uses
  `Spatial.TimedOut`, with the 10 000 ms limit.
- `activeVoiceCount`: it only scales the audio.
- The spatial-movement and rhythm parameter records of the processor's
  eight-argument `process` call: no shown code reads them.
- `calculateNoteStartTime`: it is never called.
- `RibbonEngine::getActiveNotes`: it is read-only and never called. The block
  window of `processChord` is modelled by `Ribbons.InWindow`.
- The `hostTempo` argument of `processChord`: it is unused. The processor
  passes the constant 120.
- `updateHarmonicContext`, `getSustainingNotes`, `generateContextualVoicing`
  and `findHarmonicBridge`: they are declared without bodies, so there is no
  tonal-gravity or harmonic-bridge behaviour to model.
- `setRibbonNotes` and `getRibbonNotes` of the spatial engine: they are not
  declared. The display list is `Plugin.Processor.ribbonDisplayNotes`.
- The plugin editor and UI, parameter registration (used only for the ranges
  that become preconditions), XML state save and restore, programs, bus
  layout checks and `createEditor`.
- Plugin.Processor.ProcessBlock: requires a positive release time, which the
  host range [0.001, 2] guarantees. It also requires exactly five random
  draws, one per ribbon.

## Findings

The classes run the code as written, so `ChordEngineObject.ProcessMidi`,
`Processor.Harmonize`, `Processor.Arrange`, `Processor.Render` and
`Processor.ProcessBlock` show each of these behaviours. Each corrected
definition stands beside them as a pure function, with the intended
property proved about it.

| source | as written | input that shows it | evidently intended | confidence | as-written member | corrected member |
|---|---|---|---|---|---|---|
| HarmonyScape/Source/ChordEngine/ChordEngine.cpp:41-75 | when the last key is released, `currentVoicing` is cleared before the note-off diff, so the diff runs against an empty voicing and no harmony note-off is sent | hold middle C (voicing G4, C3 at density 0), then release it: the block's output is empty | every previously voiced harmony pitch is turned off when the keys are released | not executed | ChordEngine.ReleaseAllLeavesHarmonySounding, ChordEngine.ReleaseAllExample | ChordEngine.ReleaseAllStopsHarmony (ChordEngine.OutputReleasingHarmony) |
| HarmonyScape/Source/PluginProcessor.cpp:232-233 | `getVelocity() * 0.3f` is a float in 0..38.1 passed to the float-velocity `noteOn` overload, which expects 0..1 and clamps, so the "30 %" base plays at velocity 127 | a user note-on at velocity 100 is re-sent at 127 | 30 % of the original velocity (100 → 30); at velocity 1 the byte rounds to 0, which JUCE reads as a note-off (`Plugin.ReducedLowVelocityIsNoteOff`) | not executed | Plugin.ReducedAsWrittenSaturates, Plugin.ReducedAsWrittenExample | Plugin.ReducedIsThirtyPercent (Plugin.Reduced, Plugin.Combined) |
| HarmonyScape/Source/PluginProcessor.cpp:366-379 | `updateActiveVoices` (called at PluginProcessor.cpp:302) is fed `getActiveVoiceNotes()`, which is the user notes followed by the generated notes (SpatialEngine.cpp:437-444), so no pitch is ever in neither list and `releasingNotes` is always empty (reading the two undeclared getters as the fields they name; see "`getUserInputNotes` and `getGeneratedNotes` are not declared") | any block: the pitch of a voice fading in Release never appears | the pitches of voices still sounding that are neither held nor generated | not executed | Plugin.ReleasingAsWrittenIsEmpty | Plugin.ReleasingShowsFadingVoices, Plugin.ReleasingExample |
