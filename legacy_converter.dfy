/** The older converter of MidiPlayer/FingerChartView.swift: a fixed D whistle whose lowest
    note is D5 (MIDI 74), with a fallback that assigns chromatic notes to a neighbouring
    degree, and that file's note-window helpers. */
module LegacyFingerChart {
  import opened Wrappers
  import opened Text
  import opened Notes
  import opened NoteWindow
  import WhistleModels

  /** `WhistleScaleDegree`: the first-octave degrees and their upper-octave variants (there is
      no upper-octave flat seventh). */
  datatype LegacyDegree = I | II | III | IV | V | VI | FlatVII | VII
    | I2 | II2 | III2 | IV2 | V2 | VI2 | VII2
  {
    predicate IsUpperOctave() {
      this in {I2, II2, III2, IV2, V2, VI2, VII2}
    }
  }

  /** The degree's `rawValue`, which is also its image name. */
  function LegacyDegreeName(d: LegacyDegree): string {
    match d
    case I => "I"
    case II => "II"
    case III => "III"
    case IV => "IV"
    case V => "V"
    case VI => "VI"
    case FlatVII => "\U{266D}VII"
    case VII => "VII"
    case I2 => "I\U{00B2}"
    case II2 => "II\U{00B2}"
    case III2 => "III\U{00B2}"
    case IV2 => "IV\U{00B2}"
    case V2 => "V\U{00B2}"
    case VI2 => "VI\U{00B2}"
    case VII2 => "VII\U{00B2}"
  }

  /** D5, the lowest note of the whistle this converter assumes. */
  const BaseTonic := 74

  /** `((interval % 12) + 12) % 12` with Swift's truncating remainder. */
  function NormalizedInterval(pitch: Byte): (n: int)
    ensures 0 <= n < 12
    ensures n == (pitch - BaseTonic) % 12
  {
    var interval := pitch - BaseTonic;
    TruncRem(TruncRem(interval, 12) + 12, 12)
  }

  /** `findClosestDegree`: D#, F, G# and A-flat's neighbours; nil for any other interval. */
  function FindClosestDegree(normalizedInterval: int, octave: int): Option<LegacyDegree> {
    match normalizedInterval
    case 1 => Some(if octave == 0 then II else II2)
    case 3 => Some(if octave == 0 then III else III2)
    case 6 => Some(if octave == 0 then V else V2)
    case 8 => Some(if octave == 0 then V else V2)
    case _ => None
  }

  /** The `switch normalizedInterval` of `pitchToDegree`, with `octave` 1 from D6 up. */
  function DegreeAt(normalizedInterval: int, octave: int): Option<LegacyDegree> {
    match normalizedInterval
    case 0 => Some(if octave == 0 then I else I2)
    case 2 => Some(if octave == 0 then II else II2)
    case 4 => Some(if octave == 0 then III else III2)
    case 5 => Some(if octave == 0 then IV else IV2)
    case 7 => Some(if octave == 0 then V else V2)
    case 9 => Some(if octave == 0 then VI else VI2)
    case 10 => Some(FlatVII)
    case 11 => Some(if octave == 0 then VII else VII2)
    case _ => FindClosestDegree(normalizedInterval, octave)
  }

  /** `pitchToDegree`. */
  function PitchToDegree(pitch: Byte): Option<LegacyDegree> {
    var interval := pitch - BaseTonic;
    DegreeAt(NormalizedInterval(pitch), if interval >= 12 then 1 else 0)
  }

  /** The first-octave degree with the same name in the newer converter. */
  function BaseDegree(d: LegacyDegree): WhistleModels.ScaleDegree {
    match d
    case I | I2 => WhistleModels.I
    case II | II2 => WhistleModels.II
    case III | III2 => WhistleModels.III
    case IV | IV2 => WhistleModels.IV
    case V | V2 => WhistleModels.V
    case VI | VI2 => WhistleModels.VI
    case FlatVII => WhistleModels.FlatVII
    case VII | VII2 => WhistleModels.VII
  }

  /** Every pitch gets a degree. An upper-octave degree is chosen exactly from D6 (MIDI 86) up,
      except for the flat seventh, which has no upper-octave form. */
  lemma PitchToDegreeTotal(pitch: Byte)
    ensures PitchToDegree(pitch).Some?
    ensures PitchToDegree(pitch).value.IsUpperOctave() <==>
      pitch >= BaseTonic + 12 && NormalizedInterval(pitch) != 10
    ensures NormalizedInterval(pitch) == 10 ==> PitchToDegree(pitch) == Some(FlatVII)
  {
  }

  /** On the scale notes the old converter agrees with the newer one for the high D whistle
      (whose tonic pitch class is that of MIDI 74), up to the octave mark; the four chromatic
      intervals are sent to the degree above (D#, F) or next to them (G, G#: V). */
  lemma PitchToDegreeMatchesDWhistle(pitch: Byte)
    ensures var r := WhistleModels.PitchToFingering(pitch, WhistleModels.DHigh);
      var d := PitchToDegree(pitch).value;
      r.Some? ==> BaseDegree(d) == r.value.degree
    ensures var n := NormalizedInterval(pitch);
      var d := PitchToDegree(pitch).value;
      (n == 1 ==> BaseDegree(d) == WhistleModels.II)
      && (n == 3 ==> BaseDegree(d) == WhistleModels.III)
      && (n in {6, 8} ==> BaseDegree(d) == WhistleModels.V)
  {
    var n := NormalizedInterval(pitch);
    assert WhistleModels.Interval(pitch, WhistleModels.DHigh) == n;
    DegreeAtMatchesScale(n, if pitch - BaseTonic >= 12 then 1 else 0);
  }

  /** Interval by interval: the degree found is the newer converter's, or the neighbour the
      fallback picks for a chromatic interval. */
  lemma DegreeAtMatchesScale(n: int, octave: int)
    requires 0 <= n < 12
    ensures DegreeAt(n, octave).Some?
    ensures var d := DegreeAt(n, octave).value;
      (WhistleModels.DegreeForInterval(n).Some? ==> BaseDegree(d) == WhistleModels.DegreeForInterval(n).value)
      && (n == 1 ==> BaseDegree(d) == WhistleModels.II)
      && (n == 3 ==> BaseDegree(d) == WhistleModels.III)
      && (n in {6, 8} ==> BaseDegree(d) == WhistleModels.V)
  {
  }

  /** `pitchToNoteName`, identical to the newer converter's. */
  function LegacyPitchToNoteName(pitch: Byte): (s: string)
    ensures s == WhistleModels.PitchToNoteName(pitch)
  {
    var noteNames := ["C", "C#", "D", "D#", "E", "F", "F#", "G", "G#", "A", "A#", "B"];
    noteNames[pitch % 12] + IntToString(pitch / 12 - 1)
  }

  /** `activeNoteIndex`: the index, among the visible notes, of the first one active at
      `currentBeat`. */
  function ActiveNoteIndex(notes: seq<MidiNote>, currentBeat: real, startMeasure: int, endMeasure: int,
                           beatsPerMeasure: int): Option<nat>
  {
    FirstActive(VisibleNotes(notes, startMeasure, endMeasure, beatsPerMeasure), currentBeat)
  }

  /** `activeNote`: the active visible note, else the first visible note, else nil. */
  function ActiveNote(notes: seq<MidiNote>, currentBeat: real, startMeasure: int, endMeasure: int,
                      beatsPerMeasure: int): Option<MidiNote>
  {
    var visible := VisibleNotes(notes, startMeasure, endMeasure, beatsPerMeasure);
    match FirstActive(visible, currentBeat)
    case Some(i) => Some(visible[i])
    case None => if visible == [] then None else Some(visible[0])
  }

  /** The active note, when there is one, is a visible note sounding now; otherwise the view
      shows the first visible note, and shows nothing only when no note is visible. */
  lemma ActiveNoteChoice(notes: seq<MidiNote>, currentBeat: real, startMeasure: int, endMeasure: int,
                         beatsPerMeasure: int)
    ensures var visible := VisibleNotes(notes, startMeasure, endMeasure, beatsPerMeasure);
      var idx := ActiveNoteIndex(notes, currentBeat, startMeasure, endMeasure, beatsPerMeasure);
      var a := ActiveNote(notes, currentBeat, startMeasure, endMeasure, beatsPerMeasure);
      (idx.Some? ==>
         a == Some(visible[idx.value]) && IsNoteActive(a.value, currentBeat)
         && a.value in notes && InWindow(a.value, startMeasure, endMeasure, beatsPerMeasure))
      && (idx.None? && visible != [] ==>
         a == Some(visible[0]) && forall n :: n in visible ==> !IsNoteActive(n, currentBeat))
      && (a.None? <==> visible == [])
  {
  }
}
