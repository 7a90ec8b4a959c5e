/** The piano-roll chart of MidiPlayer/Views/FingerChartView.swift: the pitch rows it draws,
    the key column beside them, the shaded grid rows and the measure lines. */
module PianoRoll {
  import opened Wrappers
  import opened Text
  import opened Notes
  import WhistleModels

  /** A `ClosedRange<UInt8>`. */
  datatype PitchSpan = PitchSpan(lower: Byte, upper: Byte)

  /** `pitchRange`: the tune's pitches padded by two semitones each way and clamped to MIDI's
      0...127. Forming `lower...upper` traps when lower > upper; that is None here. */
  function PitchRange(minPitch: Byte, maxPitch: Byte): (r: Option<PitchSpan>)
    ensures r.None? <==> minPitch > maxPitch + 4 || minPitch > 129
    ensures r.Some? ==> 0 <= r.value.lower <= r.value.upper <= 127
    ensures r.Some? ==>
      r.value.lower <= minPitch && (maxPitch <= r.value.upper || r.value.upper == 127)
    ensures r.Some? ==> r.value.lower == 0 || r.value.lower == minPitch - 2
    ensures r.Some? ==> r.value.upper == 127 || r.value.upper == maxPitch + 2
  {
    var lo := if minPitch - 2 > 0 then minPitch - 2 else 0;
    var hi := if maxPitch + 2 < 127 then maxPitch + 2 else 127;
    if lo <= hi then Some(PitchSpan(lo, hi)) else None
  }

  /** For the pitches a tune actually has (lowest at most highest, both MIDI notes) the range
      exists and shows every one of them. */
  lemma PitchRangeCoversTune(minPitch: Byte, maxPitch: Byte)
    requires minPitch <= maxPitch <= 127
    ensures PitchRange(minPitch, maxPitch).Some?
    ensures var r := PitchRange(minPitch, maxPitch).value; r.lower <= minPitch && maxPitch <= r.upper
  {
  }

  /** `totalRows`: one row per pitch of the range. */
  function TotalRows(span: PitchSpan): int
    requires span.lower <= span.upper
  {
    span.upper - span.lower + 1
  }

  /** The key column lists the range's pitches from the top: `pitchRange.reversed()`. */
  function RowPitches(span: PitchSpan): (ps: seq<int>)
    requires span.lower <= span.upper
    ensures |ps| == TotalRows(span)
    ensures forall row :: 0 <= row < |ps| ==> ps[row] == span.upper - row
  {
    seq(span.upper - span.lower + 1, row requires 0 <= row <= span.upper - span.lower => span.upper - row)
  }

  /** Each pitch of the range has exactly one row, the top row is the highest pitch and the
      bottom row the lowest. */
  lemma RowPitchesCoverSpan(span: PitchSpan)
    requires span.lower <= span.upper
    ensures var ps := RowPitches(span);
      ps[0] == span.upper && ps[|ps| - 1] == span.lower
      && (forall p :: span.lower <= p <= span.upper <==> p in ps)
      && (forall i, j :: 0 <= i < j < |ps| ==> ps[i] > ps[j])
  {
    var ps := RowPitches(span);
    forall p | span.lower <= p <= span.upper ensures p in ps {
      assert ps[span.upper - p] == p;
    }
  }

  /** `[1, 3, 6, 8, 10].contains(pitch % 12)` with Swift's truncating remainder. */
  predicate IsBlackKey(pitch: int) {
    TruncRem(pitch, 12) in {1, 3, 6, 8, 10}
  }

  /** A MIDI pitch is a black key exactly when its sharp-spelled name has a '#'. */
  lemma BlackKeyIsSharp(pitch: Byte)
    ensures IsBlackKey(pitch) <==> '#' in WhistleModels.NoteNames[pitch % 12]
  {
    var n := pitch % 12;
    assert n in {0, 1, 2, 3, 4, 5, 6, 7, 8, 9, 10, 11};
  }

  /** The grid shades row `row` of `0...rows` (one line more than there are rows) when it is a
      real row whose pitch `upperBound - row` is a black key. */
  predicate GridRowShaded(row: int, rows: int, upperBound: Byte) {
    row < rows && IsBlackKey(upperBound - row)
  }

  /** The grid's shading lines up with the key column: a row is shaded exactly when the key
      beside it is black, and the extra closing line at `row == rows` is never shaded. */
  lemma GridMatchesKeys(span: PitchSpan, row: int)
    requires span.lower <= span.upper && 0 <= row <= TotalRows(span)
    ensures row < TotalRows(span) ==>
      (GridRowShaded(row, TotalRows(span), span.upper) <==> IsBlackKey(RowPitches(span)[row]))
    ensures !GridRowShaded(TotalRows(span), TotalRows(span), span.upper)
  {
  }

  /** `PianoKeysCompactView.pitchToName`: only the Cs are labelled. */
  function PianoKeyName(pitch: Byte): (s: string)
    ensures s != [] <==> pitch % 12 == 0
    ensures s != [] ==> s == WhistleModels.PitchToNoteName(pitch)
  {
    if pitch % 12 == 0 then "C" + IntToString(pitch / 12 - 1) else ""
  }

  /** The grid draws a strong line at beat `beat` of `0...beats` when it starts a measure:
      `beat % beatsPerMeasure == 0`, which traps for a zero measure length. */
  predicate IsMeasureLine(beat: int, beatsPerMeasure: int)
    requires beatsPerMeasure != 0
  {
    TruncRem(beat, beatsPerMeasure) == 0
  }

  /** The strong lines of a grid of `beats` beats are exactly the multiples of the measure
      length; a negative measure length draws the lines of its magnitude, because Swift's `%`
      takes the sign of the (non-negative) beat. */
  lemma MeasureLinesAreMultiples(beats: nat, beatsPerMeasure: int)
    requires beatsPerMeasure != 0
    ensures var d := if beatsPerMeasure < 0 then -beatsPerMeasure else beatsPerMeasure;
      (set beat | 0 <= beat <= beats && IsMeasureLine(beat, beatsPerMeasure))
      == (set m | 0 <= m <= beats / d :: m * d)
  {
    var d := if beatsPerMeasure < 0 then -beatsPerMeasure else beatsPerMeasure;
    forall beat: nat ensures IsMeasureLine(beat, beatsPerMeasure) <==> beat % d == 0 {
      if beatsPerMeasure < 0 {
        RemOfNegatedDivisor(beat, d);
      }
    }
    assert (set beat | 0 <= beat <= beats && IsMeasureLine(beat, beatsPerMeasure))
      == (set beat | 0 <= beat <= beats && beat % d == 0);
    RemainderFreeAreMultiples(beats, d);
  }

  /** The beats of `0...beats` that a positive `d` divides are the multiples of `d`. */
  lemma RemainderFreeAreMultiples(beats: nat, d: int)
    requires d > 0
    ensures (set beat | 0 <= beat <= beats && beat % d == 0) == (set m | 0 <= m <= beats / d :: m * d)
  {
    var lines := set beat | 0 <= beat <= beats && beat % d == 0;
    var multiples := set m | 0 <= m <= beats / d :: m * d;
    forall beat | beat in lines ensures beat in multiples {
      var m := beat / d;
      assert beat == m * d;
      assert m <= beats / d by {
        DivMonotone(beat, beats, d);
      }
    }
    forall beat | beat in multiples ensures beat in lines {
      var m :| 0 <= m <= beats / d && beat == m * d;
      MultipleBelow(m, beats, d);
      MultipleRemainder(m, d);
    }
  }

  /** Dafny's `%` by a negative divisor equals the remainder by its magnitude. */
  lemma RemOfNegatedDivisor(a: int, d: int)
    requires d > 0
    ensures a % (-d) == a % d
  {
    var q, r := a / (-d), a % (-d);
    var q2, r2 := a / d, a % d;
    assert a == (-d) * q + r && 0 <= r < d;
    assert a == d * q2 + r2 && 0 <= r2 < d;
    assert (q2 + q) * d == r - r2;
    if q2 + q >= 1 {
      MulMonotone(1, q2 + q, d);
      assert false;
    } else if q2 + q <= -1 {
      MulMonotone(q2 + q, -1, d);
      assert false;
    }
  }

  lemma DivMonotone(a: nat, b: nat, d: int)
    requires d > 0 && a <= b
    ensures a / d <= b / d
  {
    var qa, qb := a / d, b / d;
    assert a == qa * d + a % d && b == qb * d + b % d;
    if qa > qb {
      assert qa * d >= (qb + 1) * d by {
        MulMonotone(qb + 1, qa, d);
      }
      assert false;
    }
  }

  lemma MulMonotone(x: int, y: int, d: int)
    requires x <= y && d > 0
    ensures x * d <= y * d
  {
    assert y * d - x * d == (y - x) * d;
  }

  lemma MultipleBelow(m: nat, beats: nat, d: int)
    requires d > 0 && m <= beats / d
    ensures m * d <= beats
  {
    MulMonotone(m, beats / d, d);
    assert beats == (beats / d) * d + beats % d;
  }

  lemma MultipleRemainder(m: nat, d: int)
    requires d > 0
    ensures (m * d) % d == 0
  {
    var q, r := (m * d) / d, (m * d) % d;
    assert m * d == q * d + r && 0 <= r < d;
    assert (m - q) * d == r;
    if m - q >= 1 {
      MulMonotone(1, m - q, d);
      assert false;
    } else if m - q <= -1 {
      MulMonotone(m - q, -1, d);
      assert false;
    }
  }
}
