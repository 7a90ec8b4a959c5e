# Whistly / MidiPlayer and ApphudBase core, modelled in Dafny

This project models the deterministic core of an iOS tin-whistle tutor. The app reads MIDI or
ABC tunes and shows each note as a whistle fingering. The project also models the store-product
library that prices the app's subscriptions. Nothing in the model is executed: every property
below is proved by the Dafny verifier.

On the music side it models:

- **Whistle keys** (`WhistleModels`): the key table, the pitch-to-fingering converter, note
  names and the reading of a tune's key such as "Dmaj".
- **The older D-only converter** (`LegacyFingerChart`), with its chromatic fallback.
- **The measure window** (`NoteWindow` and `FingeringChart`). The chart views share it: its
  beats, the notes that overlap it, and the note sounding now.
- **The piano-roll rows** (`PianoRoll`): the key names, black keys and measure lines.
- **Pagination of the fingering row** (`FingeringRow`). It counts slots, picks a page size,
  splits the notes into pages and lays out note and gap slots. These are imperative loops,
  each proved equal to a specification function.
- **The control widgets** (`UIComponents`): the key picker, the transpose control and the
  measure-range selector. Each is a class whose button actions are methods.
- **The saved tune record** (`TuneModel`) and its JSON keys.
- **The app settings** (`AppSettings`) and the scroll state object (`ScrollManager`).

On the store side it models:

- **The local `.storekit` file** (`StoreKitContent`): its decoding, its product list, and its
  ISO 8601 period strings. These use the one-component designator form of section 4.4.3.2 of
  ISO 8601:2004, restricted to Y, M, W and D.
- **Subscription periods** (`ProductPeriod`): days, and the early returns of `format`.
- **Prices** (`Decimals`): Foundation's `Decimal`, with NaN for a division by zero.
- **Introductory offers** (`ProductIntroductory`) and the provider's derived prices and
  discounts (`ProductDataProvider`).
- **The mapping from a local product record to provider data** (`LocalStoreKitProvider`).

Conventions:

- Doubles, CGFloats, beats and `Decimal` values are Dafny `real`.
- `UInt8` is `Byte`.
- A Swift trap (`!` on nil, `fatalError`, `0..<negative`, a `ClosedRange` whose bounds are out
  of order) is a `None` or `Failure` result. The one exception is a measure length that is
  not positive: the fingering row's pagination members require it, see "## Left out".
- `Decimal(string:locale:)` and the product table loaded from the bundle are parameters.

## Model

| member | source | states |
|---|---|---|
| WhistleModels.AllKeysComplete | MidiPlayer/Models/WhistleModels.swift:13-28 | every whistle key is in `allCases` |
| WhistleModels.FromRawValue | MidiPlayer/Models/WhistleModels.swift:13-28 | a key is found only under its own raw value, and nil means no key has that raw value |
| WhistleModels.RawValueRoundTrip | MidiPlayer/Models/WhistleModels.swift:13-28 | reading a key's raw value gives the key back |
| WhistleModels.TonicNote | MidiPlayer/Models/WhistleModels.swift:51-66 | every tonic is a pitch class 0..11 |
| WhistleModels.TonicNoteSharing | MidiPlayer/Models/WhistleModels.swift:51-66 | two keys share a tonic exactly when they are equal, Eb and Low Eb, or D and Low D |
| WhistleModels.DegreeOffset | MidiPlayer/Models/WhistleModels.swift:71-82 | every scale degree lies 0..11 semitones above the tonic |
| WhistleModels.Interval | MidiPlayer/Models/WhistleModels.swift:98-106 | the fixed-up interval is in 0..11 and is the pitch's distance above the tonic mod 12 |
| WhistleModels.FingeringMatchesScale | MidiPlayer/Models/WhistleModels.swift:97-127 | no fingering exactly for intervals 1, 3, 6 and 8; otherwise the degree is the one at that interval, and overblowing holds exactly from pitch 72 up |
| WhistleModels.FingeringReachesEveryDegree | MidiPlayer/Models/WhistleModels.swift:109-126 | the degree at the pitch's interval is returned, with the overblow flag of the pitch |
| WhistleModels.FingeringDependsOnPitchClass | MidiPlayer/Models/WhistleModels.swift:98-123 | pitches in one pitch class on keys with one tonic get the same answer and degree |
| WhistleModels.PitchToNoteNameExamples | MidiPlayer/Models/WhistleModels.swift:129-134 | 60 is "C4", 69 is "A4", 0 is "C-1" and 75 is "D#5" |
| WhistleModels.PitchToNoteNameInjective | MidiPlayer/Models/WhistleModels.swift:129-134 | different pitches get different names |
| WhistleModels.NoteNamesDistinct | MidiPlayer/Models/WhistleModels.swift:130 | the twelve note names are distinct |
| WhistleModels.NameThenNumber | MidiPlayer/Models/WhistleModels.swift:130-133 | a note name followed by an octave number determines both parts |
| WhistleModels.KeyNoteNameShape | MidiPlayer/Models/WhistleModels.swift:146-159 | the extracted name is the first letter, plus '#' when the second character is '#' |
| WhistleModels.KeyForLetter | MidiPlayer/Models/WhistleModels.swift:161-175 | a natural letter gives the key with that tonic; C#, F#, G# and A# give the key a semitone up; anything else gives D |
| WhistleModels.FromTuneKeyByLetter | MidiPlayer/Models/WhistleModels.swift:141-176 | the tune key is read from its trimmed, upper-cased first letter and an optional '#'; blank and unknown input gives D |
| WhistleModels.FromTuneKeyRange | MidiPlayer/Models/WhistleModels.swift:141-176 | Eb, Low Eb and Low D are never returned |
| WhistleModels.KeyForShortName | MidiPlayer/Models/WhistleModels.swift:161-175 | a one-letter name, with or without '#', never reaches Eb, Low Eb or Low D |
| WhistleModels.FromTuneKeyUntrimmed | MidiPlayer/Models/WhistleModels.swift:142-161 | for input with no surrounding whitespace, the result is the switch on the first letter and an optional '#' |
| WhistleModels.FromTuneKeyBlank | MidiPlayer/Models/WhistleModels.swift:142-144 | empty or all-blank input gives D |
| WhistleModels.FromTuneKeyIgnoresFlat | MidiPlayer/Models/WhistleModels.swift:149-159 | a flat sign in second place is ignored |
| WhistleModels.FromTuneKeyBb | MidiPlayer/Models/WhistleModels.swift:149-166 | "Bb" gives B |
| WhistleModels.FromTuneKeyDmaj | MidiPlayer/Models/WhistleModels.swift:141-176 | "Dmaj" gives D |
| WhistleModels.FromTuneKeyFSharpMinor | MidiPlayer/Models/WhistleModels.swift:141-176 | "f#m" gives F# |
| WhistleModels.FlatSpellingsUnreachable | MidiPlayer/Models/WhistleModels.swift:149-175 | as written, "Eb" gives E and "Ab" gives A, although the switch maps "EB" to Eb and "AB" to Ab |
| WhistleModels.FlatTuneKeysAsWritten | MidiPlayer/Models/WhistleModels.swift:149-159 | as written, "Eb" gives E and "Ab" gives A |
| WhistleModels.SwitchFlatCases | MidiPlayer/Models/WhistleModels.swift:161-175 | the switch does map "EB" to Eb and "AB" to Ab |
| WhistleModels.KeyNoteNameCorrected | MidiPlayer/Models/WhistleModels.swift:146-159 | corrected: a second character 'B' or '♭' is kept after the letter, where the as-written name drops it; on every other key the name is the as-written one |
| WhistleModels.KeyForFlat | MidiPlayer/Models/WhistleModels.swift:161-175 | a flatted D, E, G, A or B names the key a semitone down |
| WhistleModels.FromTuneKeyCorrectedReadsFlats | MidiPlayer/Models/WhistleModels.swift:141-176 | corrected: a flatted letter gives the key a semitone down, and any other input gives what the original gives |
| WhistleModels.FromTuneKeyCorrectedExamples | MidiPlayer/Models/WhistleModels.swift:161-175 | corrected: "Eb" gives Eb, "Bbmaj" gives Bb, "Dmaj" gives D |
| LegacyFingerChart.NormalizedInterval | MidiPlayer/FingerChartView.swift:55-58 | the doubly reduced interval is in 0..11 and is the pitch's distance above D5 mod 12 |
| LegacyFingerChart.PitchToDegreeTotal | MidiPlayer/FingerChartView.swift:51-102 | every pitch gets a degree; an upper-octave degree is chosen exactly from pitch 86 up except for interval 10, which is always ♭VII |
| LegacyFingerChart.PitchToDegreeMatchesDWhistle | MidiPlayer/FingerChartView.swift:51-102 | agrees with the newer converter on a D whistle for diatonic pitches; routes intervals 1, 3, 6 and 8 to II, III, V and V |
| LegacyFingerChart.LegacyPitchToNoteName | MidiPlayer/FingerChartView.swift:105-110 | names a pitch exactly as the newer converter does |
| LegacyFingerChart.ActiveNoteChoice | MidiPlayer/FingerChartView.swift:141-145 | the active index picks a visible note sounding now; with none, the first visible note is shown; nothing is shown only when no note is visible |
| NoteWindow.StartBeatOffset | MidiPlayer/FingerChartView.swift:136-138 | the offset is the window's first beat, `(start - 1) * bpm` |
| NoteWindow.WindowSpan | MidiPlayer/Views/FingerChartView.swift:33-57 | offset plus visible beats is the window end the note filter uses; a non-empty range is at least one measure wide |
| NoteWindow.VisibleNotes | MidiPlayer/Views/FingerChart/FingerChartView.swift:33-39 | exactly the notes overlapping the window, in input order, with every copy of a visible note kept and every copy of another dropped |
| NoteWindow.IsNoteActiveSpan | MidiPlayer/Views/FingerChartView.swift:206-208 | a note is active exactly on `[startBeat, endBeat)`; a note of no length never is |
| NoteWindow.FirstActive | MidiPlayer/FingerChartView.swift:141-145 | the first index whose note is active, or none when no note is active |
| PianoRoll.PitchRange | MidiPlayer/Views/FingerChartView.swift:41-45 | padded by 2 and clamped to 0..127; a trap exactly when the bounds cross |
| PianoRoll.PitchRangeCoversTune | MidiPlayer/Views/FingerChartView.swift:41-45 | for a real tune the range exists and contains every pitch of it |
| PianoRoll.RowPitches | MidiPlayer/Views/FingerChartView.swift:47-49 | `upper - lower + 1` rows, from the top pitch down |
| PianoRoll.RowPitchesCoverSpan | MidiPlayer/Views/FingerChartView.swift:303-310 | the rows run from the upper to the lower pitch, each pitch once, strictly descending |
| PianoRoll.BlackKeyIsSharp | MidiPlayer/Views/FingerChartView.swift:310 | a key is black exactly when its name has a '#' |
| PianoRoll.GridMatchesKeys | MidiPlayer/Views/FingerChartView.swift:358-366 | a grid row is shaded exactly when the key beside it is black; the closing line never is |
| PianoRoll.PianoKeyName | MidiPlayer/Views/FingerChartView.swift:335-343 | only the C keys are labelled, with the converter's note name |
| PianoRoll.MeasureLinesAreMultiples | MidiPlayer/Views/FingerChartView.swift:374-376 | the measure lines are exactly the multiples of the measure length's magnitude, for any non-zero measure length |
| FingeringChart.FingeringRowHeight | MidiPlayer/Views/FingerChart/FingerChartView.swift:13-18 | the row height is positive, and above 90 points in landscape |
| FingeringChart.Layout | MidiPlayer/Views/FingerChart/FingerChartView.swift:49-65 | the row is never scrolled, starts at the window's first beat, and a beat is the width over the visible beats |
| FingeringChart.LayoutFillsWidth | MidiPlayer/Views/FingerChart/FingerChartView.swift:49-65 | for a real range and any non-zero measure length the row fills the available width and ends where the window ends |
| FingeringRow.NotesStartingIn | Whistly/Screens/Main/NotesView/FingerChart/FingeringRowView.swift:51-53 | the notes starting in `[startBeat, endBeat)`, and only those, in input order |
| FingeringRow.NotesStartingInCounts | Whistly/Screens/Main/NotesView/FingerChart/FingeringRowView.swift:51-53 | every copy of a note starting in the range is kept, so equal notes are all counted, and every copy of another note is dropped |
| FingeringRow.SlotsFromBounds | Whistly/Screens/Main/NotesView/FingerChart/FingeringRowView.swift:57-72 | n notes scanned give between n and 2n + 1 slots |
| FingeringRow.CountSlotsBounds | Whistly/Screens/Main/NotesView/FingerChart/FingeringRowView.swift:50-73 | no slots exactly when no note starts in the range; otherwise between n and 2n + 1 |
| FingeringRow.CountActualSlotsInRange | Whistly/Screens/Main/NotesView/FingerChart/FingeringRowView.swift:50-73 | the loop computes the slot count of the specification |
| FingeringRow.Ceil | Whistly/Screens/Main/NotesView/FingerChart/FingeringRowView.swift:84 | the least integer not below x |
| FingeringRow.PagesToCheck | Whistly/Screens/Main/NotesView/FingerChart/FingeringRowView.swift:84 | at most 5 pages are examined |
| FingeringRow.MaxSlotsIsMaximum | Whistly/Screens/Main/NotesView/FingerChart/FingeringRowView.swift:83-91 | the running maximum bounds every examined page and is reached by one of them |
| FingeringRow.MaxSlotsOnPages | Whistly/Screens/Main/NotesView/FingerChart/FingeringRowView.swift:83-91 | the inner loop computes that maximum |
| FingeringRow.CandidateSize | Whistly/Screens/Main/NotesView/FingerChart/FingeringRowView.swift:77-80 | every candidate page size is positive |
| FingeringRow.FirstDecidedFirstFit | Whistly/Screens/Main/NotesView/FingerChart/FingeringRowView.swift:79-110 | the search traps exactly at a trap preceded only by rejections; otherwise it takes the first accepted candidate, or the fallback when every candidate is rejected |
| FingeringRow.OptimalPageSizeFirstFit | Whistly/Screens/Main/NotesView/FingerChart/FingeringRowView.swift:76-111 | the page size is the first of 8, 4, 2, 1, 0.5 and 0.25 measures that gives every slot 20 points, skipping sizes with no slots, else 0.25 measures |
| FingeringRow.OptimalPageSizeInBeats | Whistly/Screens/Main/NotesView/FingerChart/FingeringRowView.swift:76-111 | the nested loops compute the specified page size |
| FingeringRow.OptimalPageSizePositive | Whistly/Screens/Main/NotesView/FingerChart/FingeringRowView.swift:76-111 | a chosen page size is positive |
| FingeringRow.PageIndexOfContains | Whistly/Screens/Main/NotesView/FingerChart/FingeringRowView.swift:131-132 | a new page's start is the page boundary at or just below the note, so the note lies on it |
| FingeringRow.PagerStepKeepsInvariant | Whistly/Screens/Main/NotesView/FingerChart/FingeringRowView.swift:121-135 | one note step keeps pages non-empty, their notes on the page, page numbers increasing and the notes in input order |
| FingeringRow.NotePagesWellFormed | Whistly/Screens/Main/NotesView/FingerChart/FingeringRowView.swift:114-142 | every page is non-empty and holds notes starting on it, pages ascend, and all notes keep input order |
| FingeringRow.PagerStepDropsOnlyEarlyNotes | Whistly/Screens/Main/NotesView/FingerChart/FingeringRowView.swift:121-135 | a note is dropped only when it starts before the current page; otherwise it ends the current page |
| FingeringRow.NotePagesLoop | Whistly/Screens/Main/NotesView/FingerChart/FingeringRowView.swift:114-142 | the loop computes the specified pages |
| FingeringRow.EmptyCandidateOutcome | Whistly/Screens/Main/NotesView/FingerChart/FingeringRowView.swift:84-93 | with no notes, a candidate traps exactly when the offset reaches the page size, else it is skipped |
| FingeringRow.OptimalPageSizeEmptyWindow | Whistly/Screens/Main/NotesView/FingerChart/FingeringRowView.swift:84-110 | with no notes, the search traps exactly when the offset is at least a quarter measure |
| FingeringRow.OptimalPageSizeTrapsOnEmptySecondMeasure | Whistly/Screens/Main/NotesView/FingerChart/FingeringRowView.swift:84-86 | an empty second measure of 4/4 traps |
| FingeringRow.CandidateOutcomeClamped | Whistly/Screens/Main/NotesView/FingerChart/FingeringRowView.swift:84-86 | corrected: with the count clamped at 0, a candidate never traps |
| FingeringRow.CandidateOutcomeClampedAgrees | Whistly/Screens/Main/NotesView/FingerChart/FingeringRowView.swift:84-93 | clamping only turns a trap into a rejection |
| FingeringRow.OptimalPageSizeClampedIsTotal | Whistly/Screens/Main/NotesView/FingerChart/FingeringRowView.swift:76-111 | corrected: the search always gives a positive page size |
| FingeringRow.OptimalPageSizeClampedAgrees | Whistly/Screens/Main/NotesView/FingerChart/FingeringRowView.swift:76-111 | where the original does not trap, the corrected search agrees with it |
| FingeringRow.LayoutPagesShape | Whistly/Screens/Main/NotesView/FingerChart/FingeringRowView.swift:182-191 | each laid-out page splits the view width evenly between its slots, in page order, and exactly the pages with slots appear |
| FingeringRow.SlotPagesFillView | Whistly/Screens/Main/NotesView/FingerChart/FingeringRowView.swift:145-201 | every page's slot widths sum to the view width; pages with no slots are skipped |
| FingeringRow.PageSlotsShowPageNotes | Whistly/Screens/Main/NotesView/FingerChart/FingeringRowView.swift:157-174 | a page shows only its own notes |
| FingeringRow.PageSlotsShowFirstNote | Whistly/Screens/Main/NotesView/FingerChart/FingeringRowView.swift:157-169 | a page starting at or before its first note shows that note |
| FingeringRow.PageSlotsBeforeFirstNote | Whistly/Screens/Main/NotesView/FingerChart/FingeringRowView.swift:157-179 | a page laid out before all of its notes is a single gap |
| FingeringRow.CollectPageSlots | Whistly/Screens/Main/NotesView/FingerChart/FingeringRowView.swift:150-179 | the slot loop, with its `break`, computes the specified slots |
| FingeringRow.BuildSlotPages | Whistly/Screens/Main/NotesView/FingerChart/FingeringRowView.swift:145-201 | the page loop, with its `continue`, computes the specified pages |
| FingeringRow.ComputeRowPages | Whistly/Screens/Main/NotesView/FingerChart/FingeringRowView.swift:76-201 | the row's pages as the specification composes them |
| FingeringRow.SlotPagesHideShiftedPages | Whistly/Screens/Main/NotesView/FingerChart/FingeringRowView.swift:149-153 | as written: a page of notes placed after a skipped page is laid out from a start before its notes and shows a single gap |
| FingeringRow.ExamplePageSize | Whistly/Screens/Main/NotesView/FingerChart/FingeringRowView.swift:76-111 | notes at beats 0 and 64 in 4/4 at width 300 give 8-measure pages |
| FingeringRow.ExamplePages | Whistly/Screens/Main/NotesView/FingerChart/FingeringRowView.swift:114-142 | those notes fall on pages 0 and 2 |
| FingeringRow.ExampleLosesSecondNote | Whistly/Screens/Main/NotesView/FingerChart/FingeringRowView.swift:149-179 | as written: the second note appears on no page |
| FingeringRow.CorrectedPageSize | Whistly/Screens/Main/NotesView/FingerChart/FingeringRowView.swift:76-111 | corrected: the clamped search's positive page size |
| FingeringRow.SlotPagesNumberedShowsEveryPage | Whistly/Screens/Main/NotesView/FingerChart/FingeringRowView.swift:145-201 | corrected: with each page laid out from its own number, every page appears and shows its first note |
| FingeringRow.RowPagesCorrectedShowsEveryPage | Whistly/Screens/Main/NotesView/FingerChart/FingeringRowView.swift:76-201 | corrected: the row never traps, shows every page in order, and each page shows its first note |
| FingeringRow.ExampleCorrectedShowsSecondNote | Whistly/Screens/Main/NotesView/FingerChart/FingeringRowView.swift:149-179 | corrected: the example's second note is shown |
| UIComponents.KeyIndex | MidiPlayer/Views/UIComponents.swift:93-94 | a key's position in `allCases`, the only one it has |
| UIComponents.WhistleKeyPicker.constructor | MidiPlayer/Views/UIComponents.swift:86-87 | the picker holds the bound key |
| UIComponents.KeyStepsMoveOnePlace | MidiPlayer/Views/UIComponents.swift:92-120 | the arrows move one place in `allCases` and stay put exactly at either end |
| UIComponents.KeyStepsAreInverse | MidiPlayer/Views/UIComponents.swift:92-120 | away from the ends, back then forward (or forward then back) returns the key |
| UIComponents.WhistleKeyPicker.StepBack | MidiPlayer/Views/UIComponents.swift:92-97 | the left arrow sets the previous key |
| UIComponents.WhistleKeyPicker.StepForward | MidiPlayer/Views/UIComponents.swift:115-120 | the right arrow sets the next key |
| UIComponents.TransposeDown | MidiPlayer/Views/UIComponents.swift:200-204 | one semitone down, except at -12, where it stays |
| UIComponents.TransposeUp | MidiPlayer/Views/UIComponents.swift:223-227 | one semitone up, except at 12, where it stays |
| UIComponents.TransposeButtonsStayInRange | MidiPlayer/Views/UIComponents.swift:200-227 | the buttons keep the transpose in -12..12 and undo each other away from the ends |
| UIComponents.NoteNameOfTrimmed | MidiPlayer/Views/UIComponents.swift:257-280 | "D" for empty input; otherwise the upper-cased first letter, keeping '#' and rewriting 'b' to the sharp below |
| UIComponents.NameIndex | MidiPlayer/Views/UIComponents.swift:245 | the name's semitone index, or 2 (D) for an unknown name |
| UIComponents.ExtractedNameIndex | MidiPlayer/Views/UIComponents.swift:255-280 | the extracted name's index is the letter's pitch class, one above for a sharp, one below for a flat; E#, B#, Cb and Fb fall back as written |
| UIComponents.TransposedLabel | MidiPlayer/Views/UIComponents.swift:242-252 | the bare name at 0 transpose; a trap exactly when the truncating remainder is negative |
| UIComponents.TransposeKeyName | MidiPlayer/Views/UIComponents.swift:242-252 | the same for the name extracted from the tune key |
| Text.TruncRem | MidiPlayer/Views/UIComponents.swift:246 | Swift's `%`: the remainder of a non-negative dividend, and strictly inside the divisor's bounds |
| UIComponents.TransposeKeyNameNamesTarget | MidiPlayer/Views/UIComponents.swift:242-252 | within -12..12, the label is the base name, an arrow, and the name that many semitones away |
| UIComponents.TransposeKeyNameTrapsBelowRange | MidiPlayer/Views/UIComponents.swift:246-252 | outside the buttons' range the label traps, e.g. "C" at -13 |
| UIComponents.TransposeControl.Minus | MidiPlayer/Views/UIComponents.swift:200-204 | the minus button steps down and keeps the range and a label |
| UIComponents.TransposeControl.constructor | MidiPlayer/Views/UIComponents.swift:186-188 | the control holds the bound transpose and the tune key |
| UIComponents.TransposeControl.Plus | MidiPlayer/Views/UIComponents.swift:223-227 | the plus button steps up and keeps the range and a label |
| UIComponents.MeasureActionKeepsRange | MidiPlayer/Views/UIComponents.swift:304-382 | every button keeps `1 <= start <= end <= total` |
| UIComponents.MeasureStepsMoveOneBound | MidiPlayer/Views/UIComponents.swift:304-360 | each ± button moves only its own bound, by one, exactly when its guard holds |
| UIComponents.QuickSelectRanges | MidiPlayer/Views/UIComponents.swift:366-382 | "All" is (1, total), "1-4" is (1, min(4, total)), "5-8" is (5, min(8, total)) or no change below 5 measures |
| UIComponents.MeasureSelector.StartMinus | MidiPlayer/Views/UIComponents.swift:304-308 | start down by one when above 1; the range stays valid |
| UIComponents.MeasureSelector.constructor | MidiPlayer/Views/UIComponents.swift:285-288 | the selector holds the bound start and end and the total |
| UIComponents.MeasureSelector.StartPlus | MidiPlayer/Views/UIComponents.swift:318-322 | start up by one when below end; the range stays valid |
| UIComponents.MeasureSelector.EndMinus | MidiPlayer/Views/UIComponents.swift:339-343 | end down by one when above start; the range stays valid |
| UIComponents.MeasureSelector.EndPlus | MidiPlayer/Views/UIComponents.swift:353-357 | end up by one when below total; the range stays valid |
| UIComponents.MeasureSelector.SelectAllMeasures | MidiPlayer/Views/UIComponents.swift:367-370 | the whole tune; the range stays valid |
| UIComponents.MeasureSelector.SelectFirstFour | MidiPlayer/Views/UIComponents.swift:372-375 | the first four measures or fewer; the range stays valid |
| UIComponents.MeasureSelector.SelectFiveToEight | MidiPlayer/Views/UIComponents.swift:377-382 | measures five to eight, or no change; the range stays valid |
| TuneModel.SourceTypeFromRawValue | MidiPlayer/Views/ContentView.swift:11-14 | a source type is found only under its own raw value |
| TuneModel.EncodeNote | MidiPlayer/Services/Tune/TuneModel.swift:102-109 | a note is written under exactly its five keys |
| TuneModel.DecodeNote | MidiPlayer/Services/Tune/TuneModel.swift:93-100 | a decoded note needs all five keys, and its encoding returns their values |
| TuneModel.NoteRoundTrip | MidiPlayer/Services/Tune/TuneModel.swift:88-110 | decoding an encoded note gives it back |
| TuneModel.NoteKeyNamesDistinct | MidiPlayer/Services/Tune/TuneModel.swift:89-91 | the five note keys have distinct names |
| TuneModel.DecodedNoteReencodes | MidiPlayer/Services/Tune/TuneModel.swift:88-110 | a container that decodes is exactly the encoding of the decoded note |
| TuneModel.NewTune | MidiPlayer/Services/Tune/TuneModel.swift:51-83 | a new tune keeps its arguments and has the declared defaults |
| TuneModel.TuneKeyName | MidiPlayer/Services/Tune/TuneModel.swift:43-49 | no coding key is written as "editedNotes" |
| TuneModel.TuneKeyNamesDistinct | MidiPlayer/Services/Tune/TuneModel.swift:43-49 | the coding keys have distinct names |
| TuneModel.EncodeTune | MidiPlayer/Services/Tune/TuneModel.swift:43-49 | a key is written exactly when its field is required or holds a value |
| TuneModel.DecodeSourceType | MidiPlayer/Services/Tune/TuneModel.swift:16 | a decoded file type was stored as its own raw value |
| TuneModel.DecodeWhistleKey | MidiPlayer/Services/Tune/TuneModel.swift:23 | a decoded whistle key was stored as its own raw value |
| TuneModel.EncodeTuneKeys | MidiPlayer/Services/Tune/TuneModel.swift:43-49 | the required keys are always written, the optional ones exactly when set |
| TuneModel.DecodeTune | MidiPlayer/Services/Tune/TuneModel.swift:43-49 | a decoded tune needs every required key and has no edited notes |
| TuneModel.TuneRoundTrip | MidiPlayer/Services/Tune/TuneModel.swift:13-49 | decoding an encoded tune gives it back with `editedNotes` dropped |
| TuneModel.EncodeIgnoresEditedNotes | MidiPlayer/Services/Tune/TuneModel.swift:48 | the edited notes do not affect the encoding |
| TuneModel.NewTuneRoundTrip | MidiPlayer/Services/Tune/TuneModel.swift:51-83 | a new tune comes back unchanged |
| AppSettings.ViewModeFromRawValue | MidiPlayer/Views/ContentView.swift:17-19 | a view mode is found only under its own raw value |
| AppSettings.StoredWhistleKey | MidiPlayer/Services/AppSettings.swift:18-19 | the stored key when the string names one, else D |
| AppSettings.StoredViewMode | MidiPlayer/Services/AppSettings.swift:23-24 | the stored mode when the string names one, else fingering |
| AppSettings.StoredSettingsRoundTrip | MidiPlayer/Services/AppSettings.swift:18-26 | getting after setting returns what was set |
| AppSettings.DefaultsReadBack | MidiPlayer/Services/AppSettings.swift:13-14 | the defaults "D" and "Fingering" read back as D and fingering |
| AppSettings.AppSettings.constructor | MidiPlayer/Services/AppSettings.swift:13-16 | defaults D, fingering, tempo 120 and looping on |
| AppSettings.AppSettings.SetWhistleKey | MidiPlayer/Services/AppSettings.swift:20 | stores the key's raw value, reads it back, and changes nothing else |
| AppSettings.AppSettings.SetViewMode | MidiPlayer/Services/AppSettings.swift:25 | stores the mode's raw value, reads it back, and changes nothing else |
| ScrollManager.TriggerCountsScrollsToStart | Whistly/Managers/ScrollManager.swift:6-19 | the trigger grows by the number of scrolls to start and never decreases |
| ScrollManager.LastCallDecidesId | Whistly/Managers/ScrollManager.swift:8-19 | the last call decides the stored id: the one set, or none |
| ScrollManager.ScrollManager.constructor | Whistly/Managers/ScrollManager.swift:5-6 | no id and a trigger of 0 |
| ScrollManager.ScrollManager.Reset | Whistly/Managers/ScrollManager.swift:8-10 | clears the id and leaves the trigger |
| ScrollManager.ScrollManager.SetLastScrolledNoteId | Whistly/Managers/ScrollManager.swift:12-14 | stores the id and leaves the trigger |
| ScrollManager.ScrollManager.ScrollToStart | Whistly/Managers/ScrollManager.swift:16-19 | clears the id and adds exactly 1 to the trigger |
| StoreKitContent.Products | ApphudBase/Sources/ApphudBase/Internal/StoreKitContent.swift:8-12 | non-renewing, then non-consumable, then every group's subscriptions in order; missing lists count as empty |
| StoreKitContent.ProductsMembership | ApphudBase/Sources/ApphudBase/Internal/StoreKitContent.swift:8-12 | a product is listed exactly when it is in one of the three sources |
| StoreKitContent.ProductsOfPartialFiles | ApphudBase/Sources/ApphudBase/Internal/StoreKitContent.swift:8-12 | files with only some of the lists give just those products |
| StoreKitContent.LetterOfUnit | ApphudBase/Sources/ApphudBase/Internal/StoreKitContent.swift:91-96 | each known unit has a letter that parses back to it |
| StoreKitContent.UnitOfLetter | ApphudBase/Sources/ApphudBase/Internal/StoreKitContent.swift:91-96 | Y, M, W and D name known units |
| StoreKitContent.MatchedPart | ApphudBase/Sources/ApphudBase/Internal/StoreKitContent.swift:75-80 | `$` lets the match stop at most two characters before the end |
| StoreKitContent.ParsePeriod | ApphudBase/Sources/ApphudBase/Internal/StoreKitContent.swift:65-102 | "must start with P" exactly for strings not starting with 'P'; a parsed period has a known unit and a count within Int |
| StoreKitContent.ParseDigitsAndLetter | ApphudBase/Sources/ApphudBase/Internal/StoreKitContent.swift:73-101 | "P", digits and a unit letter parse to that unit and the digits' value |
| StoreKitContent.ParsePeriodRoundTrip | ApphudBase/Sources/ApphudBase/Internal/StoreKitContent.swift:73-101 | "P", the decimal count and the unit's letter parse back to that period |
| StoreKitContent.ParsePeriodSuccessShape | ApphudBase/Sources/ApphudBase/Internal/StoreKitContent.swift:69-101 | a parsed string is 'P', digits and a unit letter (up to a final line break), and gives their values |
| StoreKitContent.DigitsValueLowerBound | ApphudBase/Sources/ApphudBase/Internal/StoreKitContent.swift:83 | a digit run without leading zero is worth at least 10 to the power of its length minus one |
| StoreKitContent.ParsePeriodRejectsOverflow | ApphudBase/Sources/ApphudBase/Internal/StoreKitContent.swift:83-85 | a count of 20 or more significant digits overflows Int and is rejected |
| StoreKitContent.ParsePeriodRejects | ApphudBase/Sources/ApphudBase/Internal/StoreKitContent.swift:69-86 | "1M" and "" must start with P; "P", "PM", "P1Y2M", "PT1H" and "P1H" are invalid |
| StoreKitContent.RejectedBody | ApphudBase/Sources/ApphudBase/Internal/StoreKitContent.swift:79-86 | a body that is not digits and a unit letter is invalid |
| StoreKitContent.ParsePeriodAccepts | ApphudBase/Sources/ApphudBase/Internal/StoreKitContent.swift:73-101 | "P1M" is one month and "P007W" seven weeks |
| StoreKitContent.ParsePeriodLineBreaks | ApphudBase/Sources/ApphudBase/Internal/StoreKitContent.swift:75-80 | one final "\n" or "\r\n" is accepted by `$`; two line breaks are not |
| StoreKitContent.DecodePeriodValue | ApphudBase/Sources/ApphudBase/Internal/StoreKitContent.swift:65-67 | a period decodes from a string exactly when the parser accepts it |
| StoreKitContent.DecodePeriodIfPresent | ApphudBase/Sources/ApphudBase/Internal/StoreKitContent.swift:31 | an absent or null period is nil; otherwise it must parse |
| StoreKitContent.PaymentModeFromRawValue | ApphudBase/Sources/ApphudBase/Internal/StoreKitContent.swift:43-47 | each payment mode is read from exactly its own name |
| StoreKitContent.DecodeOffer | ApphudBase/Sources/ApphudBase/Internal/StoreKitContent.swift:42-59 | an offer needs its payment mode and its period |
| StoreKitContent.DecodePaymentMode | ApphudBase/Sources/ApphudBase/Internal/StoreKitContent.swift:43-47 | a payment mode decodes exactly from a string naming one |
| StoreKitContent.DecodeProduct | ApphudBase/Sources/ApphudBase/Internal/StoreKitContent.swift:28-40 | a product needs its id and display price and keeps them |
| StoreKitContent.DecodeProductList | ApphudBase/Sources/ApphudBase/Internal/StoreKitContent.swift:4-5 | a product array decodes element by element, in order |
| StoreKitContent.DecodeProductsIfPresent | ApphudBase/Sources/ApphudBase/Internal/StoreKitContent.swift:4-5 | an absent or null product list is nil; otherwise it decodes as a required list |
| StoreKitContent.DecodeGroupItem | ApphudBase/Sources/ApphudBase/Internal/StoreKitContent.swift:20-26 | a group needs its "subscriptions" list and keeps it |
| StoreKitContent.DecodeGroupsIfPresent | ApphudBase/Sources/ApphudBase/Internal/StoreKitContent.swift:6 | absent or null groups are nil; present groups come from an array |
| StoreKitContent.DecodeContent | ApphudBase/Sources/ApphudBase/Internal/StoreKitContent.swift:14-18 | non-consumables are read under "products", non-renewing subscriptions under their own key |
| StoreKitContent.ContentReadsProductsKey | ApphudBase/Sources/ApphudBase/Internal/StoreKitContent.swift:14-18 | a "nonConsumableProducts" entry is ignored, and an empty file has no lists |
| StoreKitContent.ProductsKeyFeedsProducts | ApphudBase/Sources/ApphudBase/Internal/StoreKitContent.swift:8-18 | the items under "products" are exactly the product list, in order |
| ProductPeriod.Days | ApphudBase/Sources/ApphudBase/Public/ProductDataPeriod.swift:24-32 | n, 7n, 30n or 365n days by unit; 1 for any other unit |
| ProductPeriod.DaysPerUnit | ApphudBase/Sources/ApphudBase/Public/ProductDataPeriod.swift:24-32 | every known unit lasts a positive number of days |
| ProductPeriod.NamedPeriodDays | ApphudBase/Sources/ApphudBase/Public/ProductDataPeriod.swift:12-16 | the named periods last 7, 30, 90, 180 and 365 days |
| ProductPeriod.DaysMonotone | ApphudBase/Sources/ApphudBase/Public/ProductDataPeriod.swift:24-32 | more units of one kind means more days |
| ProductPeriod.SameLengthDifferentUnits | ApphudBase/Sources/ApphudBase/Public/ProductDataPeriod.swift:24-32 | seven days equal a week; twelve months are 360 days, not a year |
| ProductPeriod.Normalize | ApphudBase/Sources/ApphudBase/Public/ProductDataPeriod.swift:35-40 | (day, 7) becomes (week, 1), the days are kept, and every other period is unchanged |
| ProductPeriod.Format | ApphudBase/Sources/ApphudBase/Public/ProductDataPeriod.swift:34-70 | the method gives the early return or the count to format for the normalised period |
| ProductPeriod.FormatShortcutIff | ApphudBase/Sources/ApphudBase/Public/ProductDataPeriod.swift:52-64 | the bare unit word is returned exactly when one unit is asked to be omitted |
| ProductPeriod.FormatExamples | ApphudBase/Sources/ApphudBase/Public/ProductDataPeriod.swift:37-64 | (day, 7) gives "week"; month and year give their words; three months and 14 days go to the formatter |
| Decimals.Sub | ApphudBase/Sources/ApphudBase/Internal/ProductDataProvider.swift:66 | a number exactly when both are; the difference added back gives the minuend |
| Decimals.Div | ApphudBase/Sources/ApphudBase/Internal/ProductDataProvider.swift:28 | NaN exactly for a NaN operand or a zero divisor; otherwise the quotient times the divisor is the dividend |
| Decimals.DivMulCancel | ApphudBase/Sources/ApphudBase/Internal/ProductDataProvider.swift:77 | dividing and multiplying back by a non-zero number restores the dividend |
| ProductIntroductory.FirstPaymentPrice | ApphudBase/Sources/ApphudBase/Public/ProductDataIntroductory.swift:8-14 | none exactly for a free trial; the carried price for the paid offers |
| ProductIntroductory.Period | ApphudBase/Sources/ApphudBase/Public/ProductDataIntroductory.swift:16-22 | never nil; the period each offer carries |
| ProductDataProvider.FirstPaymentPrice | ApphudBase/Sources/ApphudBase/Internal/ProductDataProvider.swift:46-48 | the offer's price for a paid offer; the full price with no offer or a free trial |
| ProductDataProvider.BillingPeriod | ApphudBase/Sources/ApphudBase/Internal/ProductDataProvider.swift:28 | a lifetime product counts as one 365-day year |
| ProductDataProvider.PriceInDays | ApphudBase/Sources/ApphudBase/Internal/ProductDataProvider.swift:27-29 | the per-day price times the days is the first payment; NaN for a period with no days |
| ProductDataProvider.PeriodPrice | ApphudBase/Sources/ApphudBase/Internal/ProductDataProvider.swift:76-78 | the per-day price times the target's days |
| ProductDataProvider.ExtractDiscount | ApphudBase/Sources/ApphudBase/Internal/ProductDataProvider.swift:65-67 | `(1 - discount)` times the other per-day price is this per-day price; NaN when the other is zero |
| ProductDataProvider.PeriodPriceOfOwnPeriod | ApphudBase/Sources/ApphudBase/Internal/ProductDataProvider.swift:76-78 | the price for its own period is the first payment |
| ProductDataProvider.PeriodPriceScales | ApphudBase/Sources/ApphudBase/Internal/ProductDataProvider.swift:27-29 | a target period's price scales the first payment by the ratio of the days |
| ProductDataProvider.ExtractDiscountOfSelf | ApphudBase/Sources/ApphudBase/Internal/ProductDataProvider.swift:65-67 | the discount against itself is 0 |
| ProductDataProvider.ExtractDiscountSign | ApphudBase/Sources/ApphudBase/Internal/ProductDataProvider.swift:65-67 | positive exactly when cheaper per day, below 1 exactly when not free per day |
| ProductDataProvider.TrialPaysFullPrice | ApphudBase/Sources/ApphudBase/Internal/ProductDataProvider.swift:15-25 | a free trial's first payment is the full price, so it is free only at price 0 |
| ProductDataProvider.LifetimeCountsAsYear | ApphudBase/Sources/ApphudBase/Internal/ProductDataProvider.swift:27-29 | a lifetime and a yearly product at one price cost the same per day |
| ProductDataProvider.YearlyAgainstWeeklyExample | ApphudBase/Sources/ApphudBase/Internal/ProductDataProvider.swift:65-67 | 36.5 a year against 1.4 a week is a discount of one half |
| LocalStoreKitProvider.Init | ApphudBase/Sources/ApphudBase/Internal/LocalStoreKitProductDataProvider.swift:6-11 | the product under the id, or a trap exactly when there is none |
| LocalStoreKitProvider.ParsedPrice | ApphudBase/Sources/ApphudBase/Internal/LocalStoreKitProductDataProvider.swift:14 | the parsed value, or a trap exactly when the string does not parse |
| LocalStoreKitProvider.SubscriptionPeriod | ApphudBase/Sources/ApphudBase/Internal/LocalStoreKitProductDataProvider.swift:21-25 | nil exactly without a recurring period; otherwise the same unit and count |
| LocalStoreKitProvider.ConvertOffer | ApphudBase/Sources/ApphudBase/Internal/LocalStoreKitProductDataProvider.swift:29-34 | free gives a free trial; the paid modes carry the parsed offer price and the period, and pay-as-you-go also the count; a missing price or count traps |
| LocalStoreKitProvider.Introductory | ApphudBase/Sources/ApphudBase/Internal/LocalStoreKitProductDataProvider.swift:27-36 | nil exactly without an offer; otherwise the converted offer or its trap |
| LocalStoreKitProvider.Data | ApphudBase/Sources/ApphudBase/Internal/LocalStoreKitProductDataProvider.swift:13-36 | the four values with the en_US locale; a trap exactly when the price or the offer traps |
| LocalStoreKitProvider.LocalFlags | ApphudBase/Sources/ApphudBase/Internal/LocalStoreKitProductDataProvider.swift:21-31 | lifetime exactly without a recurring period; trial exactly for a free offer |
| LocalStoreKitProvider.LocalTrialFirstPayment | ApphudBase/Sources/ApphudBase/Internal/LocalStoreKitProductDataProvider.swift:13-31 | a free trial first pays the product's display price |
| LocalStoreKitProvider.LocalPaidOfferFirstPayment | ApphudBase/Sources/ApphudBase/Internal/LocalStoreKitProductDataProvider.swift:32-33 | a paid offer first pays the offer's own display price |
| LocalStoreKitProvider.OfferTraps | ApphudBase/Sources/ApphudBase/Internal/LocalStoreKitProductDataProvider.swift:32-33 | a paid offer without a price traps, and so does pay-as-you-go without a count; pay-up-front needs no count |

## Left out

- SwiftUI bodies, gestures, zoom, animations and `ScrollViewProxy` scrolling are left out: they
  are presentation. This includes the fingering row's `body` and `scrollToCurrentPosition`,
  which call scroll-manager methods that `ScrollManager` does not declare.
- FingeringChart.FingeringRowHeight: states bounds rather than the exact 90 and 150 points, because the exact values would only restate the table.
- `WhistleKey.displayName` is left out: it is display text only.
- The MIDI and ABC decoders, key detection, transposition planning and the sequencer are left
  out. They are called but their source is not part of this model. The declaration of
  `MIDINote` is not part of this model either: its five fields are taken from its coding
  extension.
- The note id in each slot's key (`page<n>_note<id>`) is left out, because the model's notes carry
  no id; slots are plain values. Equal notes are therefore indistinguishable in the model.
- The pagination code's debug `print` output is left out: it is logging and changes nothing.
- FingeringRow.OptimalPageSize, FingeringRow.OptimalPageSizeFirstFit,
  FingeringRow.OptimalPageSizeInBeats, FingeringRow.OptimalPageSizePositive,
  FingeringRow.OptimalPageSizeEmptyWindow, FingeringRow.OptimalPageSizeClamped,
  FingeringRow.OptimalPageSizeClampedIsTotal, FingeringRow.OptimalPageSizeClampedAgrees,
  FingeringRow.CandidateSize, FingeringRow.RowPages, FingeringRow.ComputeRowPages,
  FingeringRow.CorrectedPageSize, FingeringRow.RowPagesCorrected and
  FingeringRow.RowPagesCorrectedShowsEveryPage assume that the time signature's numerator is
  positive. The source does not check it. With zero, `Int(ceil(x / 0))` traps; with a negative
  numerator every candidate and the fallback page size are negative. Neither case is modelled.
- PianoRoll.IsMeasureLine requires a non-zero measure length: `beat % 0` traps, and that trap
  is not modelled as a result. Negative lengths are modelled.
- Swift's 64-bit `Int` overflow is left out. Integers are unbounded, so for example `days` on a
  huge count does not trap. The one exception is the period parser, where overflow is the
  documented error.
- `uppercased()` is modelled for ASCII letters only, and `first`/`dropFirst` work per Unicode
  scalar rather than per grapheme cluster: Unicode case mapping and segmentation are not
  modelled.
- The `\d` class in the period pattern is modelled as ASCII digits. Other decimal digits match
  `\d`, but then `Int(...)` fails, which is the same "invalid period format" error.
- `NumberFormatter` and `DateComponentsFormatter` output (`localizedPrice`,
  `localizedSubscriptionPeriod`, `localizedIntroductoryPeriod`, the discount and period price
  strings, and the formatter path of `format`) is left out: it is localisation-library text.
  `format` returns the unit and count it hands to the formatter.
- ProductPeriod.Format: after `assertionFailure`, a release build formats with an unknown unit.
  That text is not modelled; the outcome is `InvalidUnit`.
- `Decimal`'s 38-digit mantissa and its rounding are left out: prices are exact reals.
- `Decimal(string:locale:)` is a parameter of the local provider: its number syntax is not
  modelled.
- LocalStoreKitProvider.Data: Swift evaluates each property lazily, so a trap happens only in
  the property that is read. `Data` reads all four at once and reports the first trap.
- `StoreKitCache` is left out: it is bundle file loading, and its `productsById` table is a
  parameter. What happens with duplicate product ids is not modelled.
- The "unsupported time unit" branch of the period parser is not modelled as a separate error:
  after a successful match the unit letter is always Y, M, W or D.
- `UUID` strings are not validated, and `Date` is coded as seconds, a real number.
- `WhistleKey` is assumed to be coded by its raw value, the synthesized `Codable` of a String
  enum.
- JSON text itself is not modelled: containers are maps from coding keys to JSON values.
- `@AppStorage`/`UserDefaults` persistence is left out: the stored strings are fields of the
  settings class.
- Apphud SDK wrappers, the StoreKit product provider, Firebase authentication, orientation
  notifications and the app wiring are left out: they are SDK and I/O glue.

## Findings

| source | as written | input that shows it | evidently intended | confidence | as-written member | corrected member |
|---|---|---|---|---|---|---|
| Whistly/Screens/Main/NotesView/FingerChart/FingeringRowView.swift:152 | a page's start is taken from its position in `notePages`. But `notePages` skips empty page numbers, so a page after a gap is laid out from too early a start, and its notes fall outside it | notes at beats 0 and 64, one beat each, in 4/4 at width 300: 8-measure pages, notes on pages 0 and 2; the second page shows a single gap and the second note is never shown | each page is laid out from its own page number, so every page shows its notes | not executed | FingeringRow.ExampleLosesSecondNote, FingeringRow.SlotPagesHideShiftedPages | FingeringRow.RowPagesCorrectedShowsEveryPage, FingeringRow.ExampleCorrectedShowsSecondNote |
| Whistly/Screens/Main/NotesView/FingerChart/FingeringRowView.swift:84-86 | with no notes, the page count is `ceil(-startBeatOffset / pageSize)`, which is negative once the offset reaches a page, and `0..<negative` traps | no notes in measures 2-2 of 4/4 (offset 4 beats), width 300 | a negative count examines no pages, and the search falls back to a quarter measure | not executed | FingeringRow.OptimalPageSizeTrapsOnEmptySecondMeasure, FingeringRow.OptimalPageSizeEmptyWindow | FingeringRow.OptimalPageSizeClampedIsTotal |
| MidiPlayer/Models/WhistleModels.swift:149-159 | the second character is kept only when it is '#', so the flat cases of the switch ("EB", "AB", "BB", "DB", "GB" and the ♭ spellings) can never be reached | "Eb" gives the E whistle and "Ab" the A whistle | a flat names the whistle a semitone down: "Eb" gives Eb, "Bbmaj" gives Bb | not executed | WhistleModels.FlatSpellingsUnreachable | WhistleModels.FromTuneKeyCorrectedReadsFlats |
