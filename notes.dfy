/** Records shared by the views and services: `MIDINote`, whose declaration is not part of
    this model (its fields are the five that its coding extension reads and writes), and
    `UUID` identifiers. */
module Notes {

  /** A `UUID`, represented by its `uuidString`. */
  datatype Uuid = Uuid(uuidString: string)

  /** Swift's `UInt8`. */
  type Byte = x: int | 0 <= x < 256

  /** A note: MIDI pitch, velocity, start and length in quarter-note beats, channel. */
  datatype MidiNote = MidiNote(pitch: Byte, velocity: Byte, startBeat: real, duration: real, channel: Byte)
  {
    /** `endBeat`, the first beat after the note. */
    function EndBeat(): real {
      startBeat + duration
    }

    /** What the decoders promise of every note: it starts at or after beat 0 and lasts. */
    predicate WellFormed() {
      startBeat >= 0.0 && duration > 0.0
    }
  }
}
