/** The state rules of the control widgets in MidiPlayer/Views/UIComponents.swift: the whistle
    key picker, the transpose control with its key label, and the measure-range selector. Each
    widget edits a binding owned by its parent view; here that binding is a field of a class
    and each button's action is a method. */
module UIComponents {
  import opened Wrappers
  import opened Text
  import opened Seqs
  import WhistleModels

  // ---------------------------------------------------------------------------------------
  // Whistle key picker

  /** No key appears twice in `allCases`. */
  lemma AllKeysDistinct(a: nat, b: nat)
    requires a < b < |WhistleModels.AllKeys|
    ensures WhistleModels.AllKeys[a] != WhistleModels.AllKeys[b]
  {
  }

  /** Position of a key in `allCases`; `firstIndex(of:)` always finds it. */
  function KeyIndex(k: WhistleModels.WhistleKey): (i: nat)
    ensures i < |WhistleModels.AllKeys| && WhistleModels.AllKeys[i] == k
    ensures forall j :: 0 <= j < |WhistleModels.AllKeys| && WhistleModels.AllKeys[j] == k ==> j == i
  {
    WhistleModels.AllKeysComplete(k);
    var i := FirstIndexOf(WhistleModels.AllKeys, k).value;
    assert forall j :: 0 <= j < |WhistleModels.AllKeys| && WhistleModels.AllKeys[j] == k ==> j == i by {
      forall j | 0 <= j < |WhistleModels.AllKeys| && WhistleModels.AllKeys[j] == k ensures j == i {
        if i < j { AllKeysDistinct(i, j); }
      }
    }
    i
  }

  /** What the left chevron selects: the key before the current one, if there is one. */
  function PreviousKey(k: WhistleModels.WhistleKey): WhistleModels.WhistleKey {
    match FirstIndexOf(WhistleModels.AllKeys, k)
    case Some(index) => if index > 0 then WhistleModels.AllKeys[index - 1] else k
    case None => k
  }

  /** What the right chevron selects: the key after the current one, if there is one. */
  function NextKey(k: WhistleModels.WhistleKey): WhistleModels.WhistleKey {
    match FirstIndexOf(WhistleModels.AllKeys, k)
    case Some(index) =>
      if index < |WhistleModels.AllKeys| - 1 then WhistleModels.AllKeys[index + 1] else k
    case None => k
  }

  /** Stepping moves one place along `allCases` and stops at either end: the first key (high
      E-flat) has no previous key and the last (low D) no next one. */
  lemma KeyStepsMoveOnePlace(k: WhistleModels.WhistleKey)
    ensures KeyIndex(k) > 0 ==> KeyIndex(PreviousKey(k)) == KeyIndex(k) - 1
    ensures KeyIndex(k) == 0 <==> PreviousKey(k) == k
    ensures KeyIndex(k) < |WhistleModels.AllKeys| - 1 ==> KeyIndex(NextKey(k)) == KeyIndex(k) + 1
    ensures KeyIndex(k) == |WhistleModels.AllKeys| - 1 <==> NextKey(k) == k
  {
    var keys := WhistleModels.AllKeys;
    var i := KeyIndex(k);
    assert FirstIndexOf(keys, k) == Some(i);
    if i > 0 {
      AllKeysDistinct(i - 1, i);
      assert PreviousKey(k) == keys[i - 1];
      assert KeyIndex(keys[i - 1]) == i - 1;
    }
    if i < |keys| - 1 {
      AllKeysDistinct(i, i + 1);
      assert NextKey(k) == keys[i + 1];
      assert KeyIndex(keys[i + 1]) == i + 1;
    }
  }

  /** The two chevrons undo each other away from the ends. */
  lemma KeyStepsAreInverse(k: WhistleModels.WhistleKey)
    ensures KeyIndex(k) > 0 ==> NextKey(PreviousKey(k)) == k
    ensures KeyIndex(k) < |WhistleModels.AllKeys| - 1 ==> PreviousKey(NextKey(k)) == k
  {
    KeyStepsMoveOnePlace(k);
    KeyStepsMoveOnePlace(PreviousKey(k));
    KeyStepsMoveOnePlace(NextKey(k));
  }

  /** `WhistleKeyPicker` and its bound `whistleKey`. */
  class WhistleKeyPicker {
    var whistleKey: WhistleModels.WhistleKey

    constructor(whistleKey: WhistleModels.WhistleKey)
      ensures this.whistleKey == whistleKey
    {
      this.whistleKey := whistleKey;
    }

    /** The left chevron (towards the higher whistles). */
    method StepBack()
      modifies this
      ensures whistleKey == PreviousKey(old(whistleKey))
    {
      var keys := WhistleModels.AllKeys;
      var found := FirstIndexOf(keys, whistleKey);
      if found.Some? && found.value > 0 {
        whistleKey := keys[found.value - 1];
      }
    }

    /** The right chevron (towards the lower whistles). */
    method StepForward()
      modifies this
      ensures whistleKey == NextKey(old(whistleKey))
    {
      var keys := WhistleModels.AllKeys;
      var found := FirstIndexOf(keys, whistleKey);
      if found.Some? && found.value < |keys| - 1 {
        whistleKey := keys[found.value + 1];
      }
    }
  }

  // ---------------------------------------------------------------------------------------
  // Transpose control

  /** The control's lowest and highest transposition, in semitones. */
  const MaxTranspose := 12

  /** The minus button: one semitone down unless already at -12. */
  function TransposeDown(t: int): (r: int)
    ensures -MaxTranspose <= t ==> -MaxTranspose <= r
    ensures r <= t && t - r <= 1
    ensures r == t <==> t <= -MaxTranspose
  {
    if t > -MaxTranspose then t - 1 else t
  }

  /** The plus button: one semitone up unless already at +12. */
  function TransposeUp(t: int): (r: int)
    ensures t <= MaxTranspose ==> r <= MaxTranspose
    ensures t <= r && r - t <= 1
    ensures r == t <==> t >= MaxTranspose
  {
    if t < MaxTranspose then t + 1 else t
  }

  /** The buttons keep the transposition within +/-12 and undo each other inside the range. */
  lemma TransposeButtonsStayInRange(t: int)
    requires -MaxTranspose <= t <= MaxTranspose
    ensures -MaxTranspose <= TransposeDown(t) <= MaxTranspose
    ensures -MaxTranspose <= TransposeUp(t) <= MaxTranspose
    ensures t > -MaxTranspose ==> TransposeUp(TransposeDown(t)) == t
    ensures t < MaxTranspose ==> TransposeDown(TransposeUp(t)) == t
  {
  }

  /** `extractNoteName(from:)`: the note letter of a tune key, upper-cased, with a following
      '#' kept and a following 'b' spelled as the enharmonic sharp; "D" for a blank key. */
  function ExtractNoteName(key: string): string {
    NoteNameOfTrimmed(Trim(key))
  }

  /** The part of `extractNoteName` after trimming, on the trimmed key `k`. */
  function NoteNameOfTrimmed(k: string): (r: string)
    ensures 1 <= |r| <= 2 && (|r| == 2 ==> r[1] == '#')
    ensures k == [] ==> r == "D"
    ensures k != [] && (|k| < 2 || k[1] !in {'#', 'b'}) ==> r == [UpperChar(k[0])]
    ensures k != [] && |k| >= 2 && k[1] == '#' ==> r == [UpperChar(k[0]), '#']
    ensures k != [] && |k| >= 2 && k[1] == 'b' ==> r == SharpForFlat([UpperChar(k[0])])
  {
    if k == [] then "D"
    else
      var firstChar := [UpperChar(k[0])];
      if |k| >= 2 then
        var secondChar := k[1];
        if secondChar == '#' then firstChar + "#"
        else if secondChar == 'b' then SharpForFlat(firstChar)
        else firstChar
      else firstChar
  }

  /** The `switch firstChar` that respells a flat as the sharp below it; C-flat and F-flat
      keep the bare letter. */
  function SharpForFlat(firstChar: string): (r: string)
    ensures |firstChar| == 1 ==> 1 <= |r| <= 2 && (|r| == 2 ==> r[1] == '#')
  {
    match firstChar
    case "D" => "C#"
    case "E" => "D#"
    case "G" => "F#"
    case "A" => "G#"
    case "B" => "A#"
    case _ => firstChar
  }

  /** `semitoneNames.firstIndex(of:) ?? 2`: a name the table lacks counts as D. */
  function NameIndex(name: string): (i: nat)
    ensures i < 12
    ensures name in WhistleModels.NoteNames ==> WhistleModels.NoteNames[i] == name
    ensures name !in WhistleModels.NoteNames ==> i == 2
  {
    FirstIndexOf(WhistleModels.NoteNames, name).GetOr(2)
  }

  /** Each table entry is found at its own position. */
  lemma NameIndexAt(a: nat)
    requires a < 12
    ensures NameIndex(WhistleModels.NoteNames[a]) == a
  {
    var i := NameIndex(WhistleModels.NoteNames[a]);
    WhistleModels.NoteNamesDistinct(i, a);
  }

  lemma LetterNames(c: char)
    requires 'A' <= c <= 'G'
    ensures WhistleModels.NoteNames[WhistleModels.LetterPitchClass(c)] == [c]
    ensures c !in {'E', 'B'} ==> WhistleModels.NoteNames[WhistleModels.LetterPitchClass(c) + 1] == [c, '#']
    ensures c !in {'C', 'F'} ==>
      WhistleModels.NoteNames[(WhistleModels.LetterPitchClass(c) + 11) % 12] == SharpForFlat([c])
  {
    assert c in {'A', 'B', 'C', 'D', 'E', 'F', 'G'};
  }

  /** The semitone index of the name extracted from a key that starts with a note letter:
      the letter's pitch class, one above it for a sharp and one below it for a flat. A flat
      on C or F is dropped, and a sharp on E or B gives a name the table lacks, which counts
      as D. */
  lemma ExtractedNameIndex(key: string)
    requires var k := Trim(key); k != [] && 'A' <= UpperChar(k[0]) <= 'G'
    ensures var k := Trim(key);
      var letter := UpperChar(k[0]);
      var pc := WhistleModels.LetterPitchClass(letter);
      var i := NameIndex(ExtractNoteName(key));
      (|k| < 2 || k[1] !in {'#', 'b'} ==> i == pc)
      && (|k| >= 2 && k[1] == '#' ==> i == if letter in {'E', 'B'} then 2 else pc + 1)
      && (|k| >= 2 && k[1] == 'b' ==> i == if letter in {'C', 'F'} then pc else (pc + 11) % 12)
  {
    TrimmedNameIndex(Trim(key));
  }

  lemma TrimmedNameIndex(k: string)
    requires k != [] && 'A' <= UpperChar(k[0]) <= 'G'
    ensures var letter := UpperChar(k[0]);
      var pc := WhistleModels.LetterPitchClass(letter);
      var i := NameIndex(NoteNameOfTrimmed(k));
      (|k| < 2 || k[1] !in {'#', 'b'} ==> i == pc)
      && (|k| >= 2 && k[1] == '#' ==> i == if letter in {'E', 'B'} then 2 else pc + 1)
      && (|k| >= 2 && k[1] == 'b' ==> i == if letter in {'C', 'F'} then pc else (pc + 11) % 12)
  {
    var letter := UpperChar(k[0]);
    if |k| < 2 || k[1] !in {'#', 'b'} {
      assert NoteNameOfTrimmed(k) == [letter];
      NaturalNameIndex(letter);
    } else if k[1] == '#' {
      assert NoteNameOfTrimmed(k) == [letter, '#'];
      SharpNameIndex(letter);
    } else {
      assert NoteNameOfTrimmed(k) == SharpForFlat([letter]);
      FlatNameIndex(letter);
    }
  }

  /** A bare letter indexes as its pitch class. */
  lemma NaturalNameIndex(letter: char)
    requires 'A' <= letter <= 'G'
    ensures NameIndex([letter]) == WhistleModels.LetterPitchClass(letter)
  {
    LetterNames(letter);
    NameIndexAt(WhistleModels.LetterPitchClass(letter));
  }

  /** A sharped letter indexes one above its pitch class; E# and B# are not in the table. */
  lemma SharpNameIndex(letter: char)
    requires 'A' <= letter <= 'G'
    ensures NameIndex([letter, '#'])
            == if letter in {'E', 'B'} then 2 else WhistleModels.LetterPitchClass(letter) + 1
  {
    var name := [letter, '#'];
    LetterNames(letter);
    if letter in {'E', 'B'} {
      assert forall a :: 0 <= a < 12 ==> WhistleModels.NoteNames[a] != name;
    } else {
      NameIndexAt(WhistleModels.LetterPitchClass(letter) + 1);
    }
  }

  /** A flatted letter indexes one below its pitch class; Cb and Fb keep the bare letter. */
  lemma FlatNameIndex(letter: char)
    requires 'A' <= letter <= 'G'
    ensures var pc := WhistleModels.LetterPitchClass(letter);
      NameIndex(SharpForFlat([letter])) == if letter in {'C', 'F'} then pc else (pc + 11) % 12
  {
    var pc := WhistleModels.LetterPitchClass(letter);
    LetterNames(letter);
    if letter in {'C', 'F'} {
      assert SharpForFlat([letter]) == [letter];
      NameIndexAt(pc);
    } else {
      NameIndexAt((pc + 11) % 12);
    }
  }

  /** The label for a base note name: the name alone without a transposition, else the name,
      an arrow and the note `transpose` semitones away. `(index + transpose + 12) % 12`
      truncates in Swift, so it is negative below -12 - index; indexing the table with it
      traps, which is None. */
  function TransposedLabel(baseNoteName: string, transpose: int): (r: Option<string>)
    ensures transpose == 0 ==> r == Some(baseNoteName)
    ensures r.None? <==> transpose != 0 && TruncRem(NameIndex(baseNoteName) + transpose + 12, 12) < 0
  {
    var baseNoteIndex := NameIndex(baseNoteName);
    var newNote := TruncRem(baseNoteIndex + transpose + 12, 12);
    if transpose == 0 then Some(baseNoteName)
    else if newNote < 0 then None
    else
      Some(baseNoteName + Arrow + WhistleModels.NoteNames[newNote])
  }

  /** The separator between the tune's note and the transposed one. */
  const Arrow := " \U{2192} "

  /** `transposeKeyName`: the label for the note name extracted from the tune's key. */
  function TransposeKeyName(originalKey: string, transpose: int): (r: Option<string>)
    ensures transpose == 0 ==> r == Some(ExtractNoteName(originalKey))
    ensures r.None? <==>
      transpose != 0 && TruncRem(NameIndex(ExtractNoteName(originalKey)) + transpose + 12, 12) < 0
  {
    TransposedLabel(ExtractNoteName(originalKey), transpose)
  }

  /** Within the control's +/-12 the label never traps, and names the note `transpose`
      semitones from the tune's note, counted around the octave. */
  lemma TransposeKeyNameNamesTarget(originalKey: string, transpose: int)
    requires -MaxTranspose <= transpose <= MaxTranspose && transpose != 0
    ensures var base := ExtractNoteName(originalKey);
      TransposeKeyName(originalKey, transpose)
        == Some(base + Arrow + WhistleModels.NoteNames[(NameIndex(base) + transpose) % 12])
  {
    TransposedLabelNamesTarget(ExtractNoteName(originalKey), transpose);
  }

  lemma TransposedLabelNamesTarget(base: string, transpose: int)
    requires -MaxTranspose <= transpose <= MaxTranspose && transpose != 0
    ensures TransposedLabel(base, transpose)
      == Some(base + Arrow + WhistleModels.NoteNames[(NameIndex(base) + transpose) % 12])
  {
    OctaveShift(NameIndex(base) + transpose);
  }

  /** Adding an octave before Swift's `%` changes nothing once the sum is not negative. */
  lemma OctaveShift(x: int)
    requires -12 <= x
    ensures TruncRem(x + 12, 12) == x % 12
  {
    var q := x / 12;
    assert x + 12 == (q + 1) * 12 + x % 12;
  }

  /** Far enough below -12 the label would trap: a key of C transposed by -13. */
  lemma TransposeKeyNameTrapsBelowRange()
    ensures TransposeKeyName("C", -13) == None
  {
    assert TrimLeading("C") == "C";
    assert TrimTrailing("C") == "C";
    assert Trim("C") == "C";
    NameIndexAt(0);
    assert TruncRem(0 - 13 + 12, 12) == -1;
  }

  /** `TransposeControl`, its bound `transpose` and the tune key it labels. */
  class TransposeControl {
    var transpose: int
    const originalKey: string

    constructor(transpose: int, originalKey: string)
      ensures this.transpose == transpose && this.originalKey == originalKey
    {
      this.transpose := transpose;
      this.originalKey := originalKey;
    }

    predicate InRange()
      reads this
    {
      -MaxTranspose <= transpose <= MaxTranspose
    }

    /** The label under the value. */
    function KeyName(): Option<string>
      reads this
    {
      TransposeKeyName(originalKey, transpose)
    }

    method Minus()
      modifies this
      ensures transpose == TransposeDown(old(transpose))
      ensures old(InRange()) ==> InRange() && KeyName().Some?
    {
      if transpose > -MaxTranspose {
        transpose := transpose - 1;
      }
      if transpose != 0 && InRange() {
        TransposeKeyNameNamesTarget(originalKey, transpose);
      }
    }

    method Plus()
      modifies this
      ensures transpose == TransposeUp(old(transpose))
      ensures old(InRange()) ==> InRange() && KeyName().Some?
    {
      if transpose < MaxTranspose {
        transpose := transpose + 1;
      }
      if transpose != 0 && InRange() {
        TransposeKeyNameNamesTarget(originalKey, transpose);
      }
    }
  }

  // ---------------------------------------------------------------------------------------
  // Measure selector

  /** The selected measures, `startMeasure...endMeasure`. */
  datatype MeasureRange = MeasureRange(start: int, end: int)

  /** The selector's seven buttons. */
  datatype MeasureAction = StartDown | StartUp | EndDown | EndUp | SelectAll | FirstFour | FiveToEight

  /** The rule every button keeps: `1 <= start <= end <= total`. */
  predicate ValidRange(r: MeasureRange, total: int) {
    1 <= r.start <= r.end <= total
  }

  /** What one button does to the range. */
  function ApplyMeasureAction(r: MeasureRange, total: int, a: MeasureAction): MeasureRange {
    match a
    case StartDown => if r.start > 1 then r.(start := r.start - 1) else r
    case StartUp => if r.start < r.end then r.(start := r.start + 1) else r
    case EndDown => if r.end > r.start then r.(end := r.end - 1) else r
    case EndUp => if r.end < total then r.(end := r.end + 1) else r
    case SelectAll => MeasureRange(1, total)
    case FirstFour => MeasureRange(1, if 4 < total then 4 else total)
    case FiveToEight => if total >= 5 then MeasureRange(5, if 8 < total then 8 else total) else r
  }

  /** Every button keeps a valid range valid. */
  lemma MeasureActionKeepsRange(r: MeasureRange, total: int, a: MeasureAction)
    requires ValidRange(r, total)
    ensures ValidRange(ApplyMeasureAction(r, total, a), total)
  {
  }

  /** The four +/- buttons move one bound by one measure, and only when the other bound and
      the tune allow it. */
  lemma MeasureStepsMoveOneBound(r: MeasureRange, total: int, a: MeasureAction)
    requires a in {StartDown, StartUp, EndDown, EndUp}
    ensures var n := ApplyMeasureAction(r, total, a);
      (a in {StartDown, StartUp} ==> n.end == r.end)
      && (a in {EndDown, EndUp} ==> n.start == r.start)
      && (a == StartDown ==> (n.start == r.start - 1 <==> r.start > 1) && (n.start == r.start <==> r.start <= 1))
      && (a == StartUp ==> (n.start == r.start + 1 <==> r.start < r.end) && (n.start == r.start <==> r.start >= r.end))
      && (a == EndDown ==> (n.end == r.end - 1 <==> r.end > r.start) && (n.end == r.end <==> r.end <= r.start))
      && (a == EndUp ==> (n.end == r.end + 1 <==> r.end < total) && (n.end == r.end <==> r.end >= total))
  {
  }

  /** The quick-select buttons: "All" selects the whole tune, "1-4" the first four measures
      (fewer in a short tune) and "5-8" measures five to eight, doing nothing in a tune of
      fewer than five measures. Every result is a range of at most the named measures. */
  lemma QuickSelectRanges(r: MeasureRange, total: int)
    requires total >= 1
    ensures ApplyMeasureAction(r, total, SelectAll) == MeasureRange(1, total)
    ensures var n := ApplyMeasureAction(r, total, FirstFour);
      n.start == 1 && n.end <= 4 && n.end <= total && (n.end == 4 || n.end == total)
    ensures var n := ApplyMeasureAction(r, total, FiveToEight);
      (total < 5 ==> n == r)
      && (total >= 5 ==> n.start == 5 && 5 <= n.end <= 8 && n.end <= total && (n.end == 8 || n.end == total))
    ensures ValidRange(ApplyMeasureAction(r, total, SelectAll), total)
    ensures ValidRange(ApplyMeasureAction(r, total, FirstFour), total)
  {
  }

  /** `MeasureSelectorView`, its bound `startMeasure` and `endMeasure`, and the tune length. */
  class MeasureSelector {
    var startMeasure: int
    var endMeasure: int
    const totalMeasures: int

    constructor(startMeasure: int, endMeasure: int, totalMeasures: int)
      ensures this.startMeasure == startMeasure && this.endMeasure == endMeasure
      ensures this.totalMeasures == totalMeasures
    {
      this.startMeasure := startMeasure;
      this.endMeasure := endMeasure;
      this.totalMeasures := totalMeasures;
    }

    function Range(): MeasureRange
      reads this
    {
      MeasureRange(startMeasure, endMeasure)
    }

    predicate Valid()
      reads this
    {
      ValidRange(Range(), totalMeasures)
    }

    method StartMinus()
      modifies this
      ensures Range() == ApplyMeasureAction(old(Range()), totalMeasures, StartDown)
      ensures old(Valid()) ==> Valid()
    {
      if startMeasure > 1 {
        startMeasure := startMeasure - 1;
      }
    }

    method StartPlus()
      modifies this
      ensures Range() == ApplyMeasureAction(old(Range()), totalMeasures, StartUp)
      ensures old(Valid()) ==> Valid()
    {
      if startMeasure < endMeasure {
        startMeasure := startMeasure + 1;
      }
    }

    method EndMinus()
      modifies this
      ensures Range() == ApplyMeasureAction(old(Range()), totalMeasures, EndDown)
      ensures old(Valid()) ==> Valid()
    {
      if endMeasure > startMeasure {
        endMeasure := endMeasure - 1;
      }
    }

    method EndPlus()
      modifies this
      ensures Range() == ApplyMeasureAction(old(Range()), totalMeasures, EndUp)
      ensures old(Valid()) ==> Valid()
    {
      if endMeasure < totalMeasures {
        endMeasure := endMeasure + 1;
      }
    }

    /** "All". */
    method SelectAllMeasures()
      modifies this
      ensures Range() == ApplyMeasureAction(old(Range()), totalMeasures, SelectAll)
      ensures old(Valid()) ==> Valid()
    {
      startMeasure := 1;
      endMeasure := totalMeasures;
    }

    /** "1-4". */
    method SelectFirstFour()
      modifies this
      ensures Range() == ApplyMeasureAction(old(Range()), totalMeasures, FirstFour)
      ensures old(Valid()) ==> Valid()
    {
      startMeasure := 1;
      endMeasure := if 4 < totalMeasures then 4 else totalMeasures;
    }

    /** "5-8". */
    method SelectFiveToEight()
      modifies this
      ensures Range() == ApplyMeasureAction(old(Range()), totalMeasures, FiveToEight)
      ensures old(Valid()) ==> Valid()
    {
      if totalMeasures >= 5 {
        startMeasure := 5;
        endMeasure := if 8 < totalMeasures then 8 else totalMeasures;
      }
    }
  }
}
