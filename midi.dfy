/** MIDI messages the pedal sends. Each send of the firmware becomes one
    value appended to an output sequence; the serial transport is not modelled. */
module Midi {

  /** The channel every message is sent on (`defaultChannel`). */
  const DefaultChannel: int := 1

  /** Controller value sent for "on" and for "off". */
  const On: int := 127
  const Off: int := 0

  datatype MidiMsg =
    | ControlChange(number: int, value: int, channel: int)
    | ProgramChange(program: int, channel: int)

  /** A message fits the 7-bit data bytes and the 16 channels of MIDI. */
  predicate InMidiRange(m: MidiMsg)
  {
    match m
    case ControlChange(n, v, ch) => 0 <= n <= 127 && 0 <= v <= 127 && 1 <= ch <= 16
    case ProgramChange(p, ch) => 0 <= p <= 127 && 1 <= ch <= 16
  }
}
