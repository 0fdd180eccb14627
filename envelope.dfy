/**
 * The envelope vocabulary shared by the synth voices: the five ADSR
 * states and the ADSR parameter record.
 */
module Envelope {

  /**
   * The states of a voice's envelope. Voice.h and the spatial engine's
   * nested voice each declare this same five-state enum.
   */
  datatype EnvelopeState = Idle | Attack | Decay | Sustain | Release

  /**
   * ADSR parameters: attack, decay and release are times in seconds,
   * sustain is a level. Voice.h and the spatial engine each declare this
   * record; only Voice.h gives it default values.
   */
  datatype ADSRParams = ADSRParams(attack: real, decay: real, sustain: real, release: real)

  /** The defaults of Voice.h's ADSRParams. */
  const DefaultADSR := ADSRParams(0.01, 0.1, 0.5, 0.2)

  /** Usable envelope parameters: positive times and a sustain level in [0, 1]. */
  predicate ValidADSR(p: ADSRParams) {
    p.attack > 0.0 && p.decay > 0.0 && p.release > 0.0 && 0.0 <= p.sustain <= 1.0
  }

  /** The ranges of the host parameters: times in [0.001, 2] seconds, sustain in [0, 1]. */
  predicate InHostRange(p: ADSRParams) {
    0.001 <= p.attack <= 2.0 && 0.001 <= p.decay <= 2.0 && 0.001 <= p.release <= 2.0 &&
    0.0 <= p.sustain <= 1.0
  }

  /** Every setting the host allows is usable. */
  lemma HostRangeIsValid(p: ADSRParams)
    requires InHostRange(p)
    ensures ValidADSR(p)
  {
  }

  /** The defaults are usable and lie within the host's ranges. */
  lemma DefaultADSRValid()
    ensures ValidADSR(DefaultADSR) && InHostRange(DefaultADSR)
  {
  }
}
