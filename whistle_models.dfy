/** Whistle keys, scale degrees and the pitch-to-fingering converter
    (MidiPlayer/Models/WhistleModels.swift). */
module WhistleModels {
  import opened Wrappers
  import opened Text
  import opened Notes

  /** The instrument keys, from high E-flat down to low D. */
  datatype WhistleKey = Eb | DHigh | CSharp | C | B | Bb | A | Ab | G | FSharp | F | E | EbLow | DLow

  /** `allCases`, in declaration order. */
  const AllKeys: seq<WhistleKey> := [Eb, DHigh, CSharp, C, B, Bb, A, Ab, G, FSharp, F, E, EbLow, DLow]

  lemma AllKeysComplete(k: WhistleKey)
    ensures k in AllKeys
  {
  }

  /** The raw value each key is stored under. */
  function RawValue(k: WhistleKey): string {
    match k
    case Eb => "Eb"
    case DHigh => "D"
    case CSharp => "C#"
    case C => "C"
    case B => "B"
    case Bb => "Bb"
    case A => "A"
    case Ab => "Ab"
    case G => "G"
    case FSharp => "F#"
    case F => "F"
    case E => "E"
    case EbLow => "Low Eb"
    case DLow => "Low D"
  }

  /** `WhistleKey(rawValue:)`: the key stored under `s`, if any. */
  function FromRawValue(s: string): (r: Option<WhistleKey>)
    ensures r.Some? ==> RawValue(r.value) == s
    ensures r.None? ==> forall k :: RawValue(k) != s
  {
    if s == "Eb" then Some(Eb)
    else if s == "D" then Some(DHigh)
    else if s == "C#" then Some(CSharp)
    else if s == "C" then Some(C)
    else if s == "B" then Some(B)
    else if s == "Bb" then Some(Bb)
    else if s == "A" then Some(A)
    else if s == "Ab" then Some(Ab)
    else if s == "G" then Some(G)
    else if s == "F#" then Some(FSharp)
    else if s == "F" then Some(F)
    else if s == "E" then Some(E)
    else if s == "Low Eb" then Some(EbLow)
    else if s == "Low D" then Some(DLow)
    else None
  }

  /** Raw values are pairwise distinct, so parsing a stored raw value gives the key back. */
  lemma RawValueRoundTrip(k: WhistleKey)
    ensures FromRawValue(RawValue(k)) == Some(k)
  {
    match k
    case Eb => case DHigh => case CSharp => case C => case B => case Bb => case A =>
    case Ab => case G => case FSharp => case F => case E => case EbLow => case DLow =>
  }

  /** Pitch class of the key's tonic (C = 0). */
  function TonicNote(k: WhistleKey): (t: int)
    ensures 0 <= t < 12
  {
    match k
    case Eb | EbLow => 3
    case DHigh | DLow => 2
    case CSharp => 1
    case C => 0
    case B => 11
    case Bb => 10
    case A => 9
    case Ab => 8
    case G => 7
    case FSharp => 6
    case F => 5
    case E => 4
  }

  /** Two keys share a tonic exactly when they are the same key or the high/low pair of
      E-flat or of D. */
  lemma TonicNoteSharing(k1: WhistleKey, k2: WhistleKey)
    ensures TonicNote(k1) == TonicNote(k2) <==>
      k1 == k2 || {k1, k2} == {Eb, EbLow} || {k1, k2} == {DHigh, DLow}
  {
    if TonicNote(k1) == TonicNote(k2) && k1 != k2 {
      match k1
      case Eb => assert k2 == EbLow;
      case EbLow => assert k2 == Eb;
      case DHigh => assert k2 == DLow;
      case DLow => assert k2 == DHigh;
      case _ =>
    }
  }

  /** The first-octave scale degrees a whistle can finger. */
  datatype ScaleDegree = I | II | III | IV | V | VI | FlatVII | VII

  /** The degree's `rawValue`, which is also its image name. */
  function DegreeName(d: ScaleDegree): string {
    match d
    case I => "I"
    case II => "II"
    case III => "III"
    case IV => "IV"
    case V => "V"
    case VI => "VI"
    case FlatVII => "\U{266D}VII"
    case VII => "VII"
  }

  /** Semitones from the tonic: the major scale with both the lowered and the natural seventh. */
  function DegreeOffset(d: ScaleDegree): (o: int)
    ensures 0 <= o < 12
  {
    match d
    case I => 0
    case II => 2
    case III => 4
    case IV => 5
    case V => 7
    case VI => 9
    case FlatVII => 10
    case VII => 11
  }

  datatype FingeringInfo = FingeringInfo(degree: ScaleDegree, needsOverblow: bool)

  /** Semitones from the whistle's tonic up to the pitch, within one octave. */
  function Interval(pitch: Byte, key: WhistleKey): (i: int)
    ensures 0 <= i < 12
    ensures i == (pitch - TonicNote(key)) % 12
  {
    var interval := pitch % 12 - TonicNote(key);
    if interval < 0 then interval + 12 else interval
  }

  /** The `switch interval` of pitchToFingering. */
  function DegreeForInterval(interval: int): Option<ScaleDegree> {
    match interval
    case 0 => Some(I)
    case 2 => Some(II)
    case 4 => Some(III)
    case 5 => Some(IV)
    case 7 => Some(V)
    case 9 => Some(VI)
    case 10 => Some(FlatVII)
    case 11 => Some(VII)
    case _ => None
  }

  /** C5 (MIDI 72) and above is the upper, overblown octave. */
  const OverblowPitch := 72

  /** `WhistleConverter.pitchToFingering`: the degree to finger and whether to overblow, or
      None for a chromatic note. */
  function PitchToFingering(pitch: Byte, key: WhistleKey): Option<FingeringInfo> {
    match DegreeForInterval(Interval(pitch, key))
    case Some(d) => Some(FingeringInfo(d, pitch >= OverblowPitch))
    case None => None
  }

  /** The converter finds a degree exactly for the diatonic intervals, and the degree it finds
      is the one whose offset from the tonic is the interval; overblowing depends on the pitch
      alone. */
  lemma FingeringMatchesScale(pitch: Byte, key: WhistleKey)
    ensures var i := Interval(pitch, key);
      PitchToFingering(pitch, key).None? <==> i in {1, 3, 6, 8}
    ensures var r := PitchToFingering(pitch, key);
      r.Some? ==>
        DegreeOffset(r.value.degree) == Interval(pitch, key) && (r.value.needsOverblow <==> pitch >= 72)
  {
  }

  /** Every degree is reached: a pitch at a degree's offset above the tonic is fingered as that
      degree. */
  lemma FingeringReachesEveryDegree(pitch: Byte, key: WhistleKey, d: ScaleDegree)
    requires Interval(pitch, key) == DegreeOffset(d)
    ensures PitchToFingering(pitch, key) == Some(FingeringInfo(d, pitch >= 72))
  {
    match d
    case I => case II => case III => case IV => case V => case VI => case FlatVII => case VII =>
  }

  /** Apart from the overblow flag, the answer depends only on the pitch class and the tonic. */
  lemma FingeringDependsOnPitchClass(p: Byte, q: Byte, k1: WhistleKey, k2: WhistleKey)
    requires p % 12 == q % 12 && TonicNote(k1) == TonicNote(k2)
    ensures PitchToFingering(p, k1).Some? == PitchToFingering(q, k2).Some?
    ensures PitchToFingering(p, k1).Some? ==>
      PitchToFingering(p, k1).value.degree == PitchToFingering(q, k2).value.degree
  {
    assert Interval(p, k1) == Interval(q, k2);
  }

  const NoteNames: seq<string> := ["C", "C#", "D", "D#", "E", "F", "F#", "G", "G#", "A", "A#", "B"]

  /** `pitchToNoteName`: sharp-spelled note name followed by the octave, 60 -> "C4". */
  function PitchToNoteName(pitch: Byte): string {
    NoteNames[pitch % 12] + IntToString(pitch / 12 - 1)
  }

  lemma PitchToNoteNameExamples()
    ensures PitchToNoteName(60) == "C4"
    ensures PitchToNoteName(69) == "A4"
    ensures PitchToNoteName(0) == "C-1"
    ensures PitchToNoteName(75) == "D#5"
  {
    assert NatToString(4) == "4";
    assert NatToString(5) == "5";
    assert NatToString(1) == "1";
  }

  /** Each name is a letter, optionally followed by '#'. */
  lemma NoteNameShape(a: nat)
    requires a < 12
    ensures 1 <= |NoteNames[a]| <= 2
    ensures |NoteNames[a]| == 2 ==> NoteNames[a][1] == '#'
  {
  }

  lemma NoteNamesDistinct(a: nat, b: nat)
    requires a < 12 && b < 12 && NoteNames[a] == NoteNames[b]
    ensures a == b
  {
  }

  lemma NameThenNumber(a: nat, b: nat, x: int, y: int)
    requires a < 12 && b < 12
    requires NoteNames[a] + IntToString(x) == NoteNames[b] + IntToString(y)
    ensures a == b && x == y
  {
    var na, nb := NoteNames[a], NoteNames[b];
    var sx, sy := IntToString(x), IntToString(y);
    var s := na + sx;
    NoteNameShape(a);
    NoteNameShape(b);
    assert sx[0] != '#' && sy[0] != '#';
    assert na == s[..|na|] == nb;
    assert sx == s[|na|..] == sy;
    NoteNamesDistinct(a, b);
    IntToStringRoundTrip(x);
    IntToStringRoundTrip(y);
  }

  /** Distinct pitches get distinct names: the name determines the pitch. */
  lemma PitchToNoteNameInjective(p: Byte, q: Byte)
    requires PitchToNoteName(p) == PitchToNoteName(q)
    ensures p == q
  {
    NameThenNumber(p % 12, q % 12, p / 12 - 1, q / 12 - 1);
  }

  /** First character plus an optional '#' taken from an upper-cased key, as written: the branch
      meant to recognise a flat requires a second character 'B' that is also 'M', so it never
      changes the name. */
  function KeyNoteName(key: string): string
    requires key != []
  {
    var first := [key[0]];
    if |key| >= 2 then
      var second := key[1];
      if second == '#' then first + "#"
      else if second == 'B' && key[..2] != "BB" then
        (if key[..2] == "BB" || key[..2] == "BM" then "B" else first)
      else first
    else first
  }

  /** The `switch noteName` of `from(tuneKey:)`. */
  function KeyForNoteName(noteName: string): WhistleKey {
    if noteName in {"EB", "E\U{266D}"} then Eb
    else if noteName == "D" then DHigh
    else if noteName in {"C#", "DB", "D\U{266D}"} then CSharp
    else if noteName == "C" then C
    else if noteName == "B" then B
    else if noteName in {"BB", "B\U{266D}", "A#"} then Bb
    else if noteName == "A" then A
    else if noteName in {"AB", "A\U{266D}", "G#"} then Ab
    else if noteName == "G" then G
    else if noteName in {"F#", "GB", "G\U{266D}"} then FSharp
    else if noteName == "F" then F
    else if noteName == "E" then E
    else DHigh
  }

  /** `WhistleKey.from(tuneKey:)`: the whistle for a tune key such as "Dmaj" or "Ador". */
  function FromTuneKey(tuneKey: string): WhistleKey {
    var key := Upper(Trim(tuneKey));
    if key == [] then DHigh else KeyForNoteName(KeyNoteName(key))
  }

  /** Pitch class of a natural note letter. */
  function LetterPitchClass(c: char): int
    requires 'A' <= c <= 'G'
  {
    match c
    case 'C' => 0
    case 'D' => 2
    case 'E' => 4
    case 'F' => 5
    case 'G' => 7
    case 'A' => 9
    case _ => 11
  }

  /** The note name KeyNoteName extracts is the first character plus '#' when one follows. */
  lemma KeyNoteNameShape(key: string)
    requires key != []
    ensures KeyNoteName(key) == if |key| >= 2 && key[1] == '#' then [key[0], '#'] else [key[0]]
  {
  }

  /** KeyForNoteName on a natural letter, a sharped letter, or anything else. */
  lemma KeyForLetter(c: char, sharp: bool)
    ensures var k := KeyForNoteName(if sharp then [c, '#'] else [c]);
      if 'A' <= c <= 'G' && !sharp then
        TonicNote(k) == LetterPitchClass(c) && k != EbLow && k != DLow
      else if sharp && c in {'C', 'F', 'G', 'A'} then
        TonicNote(k) == LetterPitchClass(c) + 1
      else k == DHigh
  {
    var n: string := if sharp then [c, '#'] else [c];
    if sharp {
      assert n[0] == c && |n| == 2;
    } else {
      assert n[0] == c && |n| == 1;
    }
  }

  /** The result depends only on the first letter and on whether a '#' follows it: a natural
      letter gives the key on that pitch class, C#, F#, G# and A# give the key a semitone up,
      and everything else (blank input, D#, E#, B#, other characters) gives high D. */
  lemma FromTuneKeyByLetter(tuneKey: string)
    ensures var key := Upper(Trim(tuneKey));
      var k := FromTuneKey(tuneKey);
      if key == [] then k == DHigh
      else
        var sharp := |key| >= 2 && key[1] == '#';
        if 'A' <= key[0] <= 'G' && !sharp then
          TonicNote(k) == LetterPitchClass(key[0]) && k != EbLow && k != DLow
        else if sharp && key[0] in {'C', 'F', 'G', 'A'} then
          TonicNote(k) == LetterPitchClass(key[0]) + 1
        else k == DHigh
  {
    var key := Upper(Trim(tuneKey));
    if key != [] {
      KeyNoteNameShape(key);
      KeyForLetter(key[0], |key| >= 2 && key[1] == '#');
    }
  }

  /** The flat and low keys can never come out of `from(tuneKey:)`. */
  lemma FromTuneKeyRange(tuneKey: string)
    ensures FromTuneKey(tuneKey) !in {Eb, EbLow, DLow}
  {
    var key := Upper(Trim(tuneKey));
    if key != [] {
      KeyNoteNameShape(key);
      KeyForShortName(key[0], |key| >= 2 && key[1] == '#');
    }
  }

  lemma KeyForShortName(c: char, sharp: bool)
    ensures KeyForNoteName(if sharp then [c, '#'] else [c]) !in {Eb, EbLow, DLow}
  {
    var n: string := if sharp then [c, '#'] else [c];
    assert n != "EB" && n != "E\U{266D}";
  }

  /** A key with no surrounding whitespace is decided by its first two characters, upper-cased. */
  lemma FromTuneKeyUntrimmed(tuneKey: string)
    requires tuneKey != [] && !IsWhitespace(tuneKey[0]) && !IsWhitespace(tuneKey[|tuneKey| - 1])
    ensures var first := UpperChar(tuneKey[0]);
      FromTuneKey(tuneKey) == KeyForNoteName(
        if |tuneKey| >= 2 && tuneKey[1] == '#' then [first, '#'] else [first])
  {
    assert TrimLeading(tuneKey) == tuneKey;
    assert TrimTrailing(tuneKey) == tuneKey;
    KeyNoteNameShape(Upper(tuneKey));
  }

  lemma FromTuneKeyBlank()
    ensures FromTuneKey("") == DHigh && FromTuneKey("  ") == DHigh
  {
    var blank := "  ";
    assert IsWhitespace(blank[0]) && IsWhitespace(blank[1]);
    assert Trim(blank) == [];
    assert Trim("") == [];
    assert Upper([]) == [];
  }

  /** A flat after the letter ("Bb", "EB", "A\U{266D}") is ignored: the key is that of the bare
      letter, so a B-flat tune selects the B whistle. */
  lemma FromTuneKeyIgnoresFlat(tuneKey: string)
    requires |tuneKey| >= 2 && tuneKey[1] in {'b', 'B', '\U{266D}'}
    requires !IsWhitespace(tuneKey[0]) && !IsWhitespace(tuneKey[|tuneKey| - 1])
    ensures FromTuneKey(tuneKey) == FromTuneKey([tuneKey[0]])
  {
    FromTuneKeyUntrimmed(tuneKey);
    FromTuneKeyUntrimmed([tuneKey[0]]);
  }

  lemma FromTuneKeyBb()
    ensures FromTuneKey("Bb") == B
  {
    FromTuneKeyUntrimmed("Bb");
    assert UpperChar('B') == 'B' && KeyForNoteName("B") == B;
  }

  lemma FromTuneKeyDmaj()
    ensures FromTuneKey("Dmaj") == DHigh
  {
    FromTuneKeyUntrimmed("Dmaj");
    assert UpperChar('D') == 'D' && KeyForNoteName("D") == DHigh;
  }

  lemma FromTuneKeyFSharpMinor()
    ensures FromTuneKey("f#m") == FSharp
  {
    FromTuneKeyUntrimmed("f#m");
    assert UpperChar('f') == 'F' && KeyForNoteName("F#") == FSharp;
  }

  // ---------------------------------------------------------------------------------------
  // The flat spellings of the note-name switch

  /** As written the extracted name never carries a flat, so the switch's flat cases ("EB",
      "DB", "GB", "AB", "BB" and their '\U{266D}' spellings) cannot be reached: an E-flat tune
      selects the E whistle although the switch maps "EB" to the E-flat one. */
  lemma FlatSpellingsUnreachable()
    ensures FromTuneKey("Eb") == E && FromTuneKey("Ab") == A
    ensures KeyForNoteName("EB") == Eb && KeyForNoteName("AB") == Ab
  {
    FlatTuneKeysAsWritten();
    SwitchFlatCases();
  }

  lemma FlatTuneKeysAsWritten()
    ensures FromTuneKey("Eb") == E && FromTuneKey("Ab") == A
  {
    FromTuneKeyEb();
    FromTuneKeyAb();
  }

  lemma FromTuneKeyEb()
    ensures FromTuneKey("Eb") == E
  {
    FromTuneKeyUntrimmed("Eb");
    assert UpperChar('E') == 'E' && KeyForNoteName("E") == E;
  }

  lemma FromTuneKeyAb()
    ensures FromTuneKey("Ab") == A
  {
    FromTuneKeyUntrimmed("Ab");
    assert UpperChar('A') == 'A' && KeyForNoteName("A") == A;
  }

  lemma SwitchFlatCases()
    ensures KeyForNoteName("EB") == Eb && KeyForNoteName("AB") == Ab
  {
  }

  predicate IsAccidental(c: char) {
    c == '#' || c == 'B' || c == '\U{266D}'
  }

  /** The note name with the accidental kept: a second character '#', 'B' (an upper-cased
      'b') or '\U{266D}' is appended to the letter. It differs from the as-written KeyNoteName
      only on a flat, where it names the flatted letter in place of the bare one. */
  function KeyNoteNameCorrected(key: string): (n: string)
    requires key != []
    ensures |key| >= 2 && key[1] in {'B', '\U{266D}'} ==>
      |n| == 2 && n[0] == key[0] && n[1] == key[1] && KeyNoteName(key) == [key[0]]
    ensures !(|key| >= 2 && key[1] in {'B', '\U{266D}'}) ==> n == KeyNoteName(key)
  {
    if |key| >= 2 && IsAccidental(key[1]) then [key[0], key[1]] else [key[0]]
  }

  /** `from(tuneKey:)` with the accidental kept, so that every case of the switch is
      reachable. */
  function FromTuneKeyCorrected(tuneKey: string): WhistleKey {
    var key := Upper(Trim(tuneKey));
    if key == [] then DHigh else KeyForNoteName(KeyNoteNameCorrected(key))
  }

  /** A flatted D, E, G, A or B names the key a semitone down. */
  lemma KeyForFlat(c: char, f: char)
    requires c in {'D', 'E', 'G', 'A', 'B'} && f in {'B', '\U{266D}'}
    ensures TonicNote(KeyForNoteName([c, f])) == (LetterPitchClass(c) + 11) % 12
    ensures KeyForNoteName([c, f]) !in {EbLow, DLow}
  {
    var n: string := [c, f];
    assert n[0] == c && n[1] == f && |n| == 2;
  }

  /** With the correction, a tune in D-, E-, G-, A- or B-flat selects the whistle a semitone
      below the letter, and a key whose second character is not a flat is read as before. */
  lemma FromTuneKeyCorrectedReadsFlats(tuneKey: string)
    requires |tuneKey| >= 2 && !IsWhitespace(tuneKey[0]) && !IsWhitespace(tuneKey[|tuneKey| - 1])
    ensures var c, f := UpperChar(tuneKey[0]), UpperChar(tuneKey[1]);
      c in {'D', 'E', 'G', 'A', 'B'} && f in {'B', '\U{266D}'} ==>
        TonicNote(FromTuneKeyCorrected(tuneKey)) == (LetterPitchClass(c) + 11) % 12
    ensures UpperChar(tuneKey[1]) !in {'B', '\U{266D}'} ==>
      FromTuneKeyCorrected(tuneKey) == FromTuneKey(tuneKey)
  {
    assert TrimLeading(tuneKey) == tuneKey;
    assert TrimTrailing(tuneKey) == tuneKey;
    var key := Upper(tuneKey);
    KeyNoteNameShape(key);
    var c, f := key[0], key[1];
    if c in {'D', 'E', 'G', 'A', 'B'} && f in {'B', '\U{266D}'} {
      assert KeyNoteNameCorrected(key) == [c, f];
      KeyForFlat(c, f);
    }
  }

  lemma FromTuneKeyCorrectedExamples()
    ensures FromTuneKeyCorrected("Eb") == Eb
    ensures FromTuneKeyCorrected("Bbmaj") == Bb
    ensures FromTuneKeyCorrected("Dmaj") == DHigh
  {
    FromTuneKeyCorrectedReadsFlats("Eb");
    FromTuneKeyCorrectedReadsFlats("Bbmaj");
    FromTuneKeyCorrectedReadsFlats("Dmaj");
    FromTuneKeyDmaj();
  }
}
