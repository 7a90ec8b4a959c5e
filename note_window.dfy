/** The measure window the chart views share: the beats from the start of `startMeasure` to
    the end of `endMeasure`, the notes that overlap it, and the note sounding at the playback
    position. The same computed properties appear in MidiPlayer/FingerChartView.swift,
    MidiPlayer/Views/FingerChartView.swift and MidiPlayer/Views/FingerChart/FingerChartView.swift. */
module NoteWindow {
  import opened Wrappers
  import opened Notes
  import opened Seqs

  /** First beat of the window: `Double(startMeasure - 1) * Double(beatsPerMeasure)`. */
  function WindowStartBeat(startMeasure: int, beatsPerMeasure: int): real {
    (startMeasure - 1) as real * beatsPerMeasure as real
  }

  /** First beat after the window: `Double(endMeasure) * Double(beatsPerMeasure)`. */
  function WindowEndBeat(endMeasure: int, beatsPerMeasure: int): real {
    endMeasure as real * beatsPerMeasure as real
  }

  /** `startBeatOffset`: the product is taken on integers and converted afterwards, which is the
      window's first beat. */
  function StartBeatOffset(startMeasure: int, beatsPerMeasure: int): (r: real)
    ensures r == WindowStartBeat(startMeasure, beatsPerMeasure)
  {
    ((startMeasure - 1) * beatsPerMeasure) as real
  }

  /** `visibleBeats`: the number of beats in the measures `startMeasure...endMeasure`. */
  function VisibleBeats(startMeasure: int, endMeasure: int, beatsPerMeasure: int): real {
    ((endMeasure - startMeasure + 1) * beatsPerMeasure) as real
  }

  /** The offset and the width together span exactly the window the note filter uses, and the
      width is positive whenever the range is non-empty and a measure has beats. */
  lemma WindowSpan(startMeasure: int, endMeasure: int, beatsPerMeasure: int)
    ensures StartBeatOffset(startMeasure, beatsPerMeasure) + VisibleBeats(startMeasure, endMeasure, beatsPerMeasure)
      == WindowEndBeat(endMeasure, beatsPerMeasure)
    ensures startMeasure <= endMeasure && beatsPerMeasure > 0 ==>
      VisibleBeats(startMeasure, endMeasure, beatsPerMeasure) >= beatsPerMeasure as real
  {
    var a := (startMeasure - 1) * beatsPerMeasure;
    var b := (endMeasure - startMeasure + 1) * beatsPerMeasure;
    assert a + b == endMeasure * beatsPerMeasure;
    assert (a + b) as real == a as real + b as real;
    if startMeasure <= endMeasure && beatsPerMeasure > 0 {
      assert b >= beatsPerMeasure by {
        assert endMeasure - startMeasure + 1 >= 1;
      }
    }
  }

  /** The filter test: some part of the note lies in the window. */
  predicate InWindow(note: MidiNote, startMeasure: int, endMeasure: int, beatsPerMeasure: int) {
    note.EndBeat() > WindowStartBeat(startMeasure, beatsPerMeasure)
    && note.startBeat < WindowEndBeat(endMeasure, beatsPerMeasure)
  }

  /** `visibleNotes`: the notes overlapping the window, in their original order. */
  function VisibleNotes(notes: seq<MidiNote>, startMeasure: int, endMeasure: int, beatsPerMeasure: int)
    : (r: seq<MidiNote>)
    ensures forall n :: n in r <==> n in notes && InWindow(n, startMeasure, endMeasure, beatsPerMeasure)
    ensures Subsequence(r, notes)
    ensures forall n :: multiset(r)[n] ==
               if InWindow(n, startMeasure, endMeasure, beatsPerMeasure) then multiset(notes)[n] else 0
  {
    var keep := (n: MidiNote) => InWindow(n, startMeasure, endMeasure, beatsPerMeasure);
    var r := Filter(keep, notes);
    FilterIsSubsequence(keep, notes);
    FilterMultiset(keep, notes);
    assert forall n :: n in notes && keep(n) ==> n in r by {
      forall n | n in notes && keep(n) ensures n in r {
        var i :| 0 <= i < |notes| && notes[i] == n;
      }
    }
    r
  }

  /** `isNoteActive`: the playback position lies in the note's half-open span
      `[startBeat, endBeat)`. */
  predicate IsNoteActive(note: MidiNote, currentBeat: real) {
    currentBeat >= note.startBeat && currentBeat < note.EndBeat()
  }

  /** A note of positive length is active exactly for the beats from its start up to, not
      including, its end; a note of zero length is never active. */
  lemma IsNoteActiveSpan(note: MidiNote, currentBeat: real)
    ensures IsNoteActive(note, currentBeat) <==>
      note.startBeat <= currentBeat < note.startBeat + note.duration
    ensures note.duration <= 0.0 ==> !IsNoteActive(note, currentBeat)
    ensures note.duration > 0.0 ==> IsNoteActive(note, note.startBeat) && !IsNoteActive(note, note.EndBeat())
  {
  }

  /** `firstIndex(where: isNoteActive)`. */
  function FirstActive(notes: seq<MidiNote>, currentBeat: real): (r: Option<nat>)
    ensures r.Some? ==>
      r.value < |notes| && IsNoteActive(notes[r.value], currentBeat)
      && forall j :: 0 <= j < r.value ==> !IsNoteActive(notes[j], currentBeat)
    ensures r.None? ==> forall j :: 0 <= j < |notes| ==> !IsNoteActive(notes[j], currentBeat)
    decreases |notes|
  {
    if notes == [] then None
    else if IsNoteActive(notes[0], currentBeat) then Some(0)
    else match FirstActive(notes[1..], currentBeat)
      case Some(i) => Some(i + 1)
      case None => None
  }
}
