/** The saved tune record of MidiPlayer/Services/Tune/TuneModel.swift, its initializer and
    defaults, and the JSON coding of it and of `MIDINote`. */
module TuneModel {
  import opened Wrappers
  import opened Notes
  import opened JsonCoding
  import WhistleModels

  /** `SourceType` and its raw values, under which it is coded. */
  datatype SourceType = Midi | Abc

  function SourceTypeRawValue(t: SourceType): string {
    match t
    case Midi => "MIDI"
    case Abc => "ABC"
  }

  function SourceTypeFromRawValue(s: string): (r: Option<SourceType>)
    ensures r.Some? ==> SourceTypeRawValue(r.value) == s
    ensures r.None? ==> forall t :: SourceTypeRawValue(t) != s
  {
    if s == "MIDI" then Some(Midi) else if s == "ABC" then Some(Abc) else None
  }

  // ---------------------------------------------------------------------------------------
  // MIDINote

  /** `MIDINote.CodingKeys`. */
  datatype NoteKey = Pitch | Velocity | StartBeat | Duration | Channel

  /** The JSON key each case is written under (its `stringValue`). */
  function NoteKeyName(k: NoteKey): string {
    match k
    case Pitch => "pitch"
    case Velocity => "velocity"
    case StartBeat => "startBeat"
    case Duration => "duration"
    case Channel => "channel"
  }

  lemma NoteKeyNamesDistinct(a: NoteKey, b: NoteKey)
    requires NoteKeyName(a) == NoteKeyName(b)
    ensures a == b
  {
  }

  const AllNoteKeys: set<NoteKey> := {Pitch, Velocity, StartBeat, Duration, Channel}

  /** `encode(to:)`: the five fields under their own names. */
  function EncodeNote(n: MidiNote): (o: Container<NoteKey>)
    ensures o.Keys == AllNoteKeys
  {
    map[Pitch := JNumber(n.pitch as real), Velocity := JNumber(n.velocity as real),
        StartBeat := JNumber(n.startBeat), Duration := JNumber(n.duration),
        Channel := JNumber(n.channel as real)]
  }

  /** `init(from:)`: the five fields in declaration order; the first one missing or of the
      wrong kind is the error. */
  function DecodeNote(o: Container<NoteKey>): (r: Decoded<MidiNote, NoteKey>)
    ensures r.Success? ==> AllNoteKeys <= o.Keys
    ensures r.Success? ==> forall k :: k in AllNoteKeys ==> o[k] == EncodeNote(r.value)[k]
  {
    var pitch :- DecodeByte(o, Pitch);
    var velocity :- DecodeByte(o, Velocity);
    var startBeat :- DecodeNumber(o, StartBeat);
    var duration :- DecodeNumber(o, Duration);
    var channel :- DecodeByte(o, Channel);
    Success(MidiNote(pitch, velocity, startBeat, duration, channel))
  }

  /** Decoding what was encoded gives the same note. */
  lemma NoteRoundTrip(n: MidiNote)
    ensures DecodeNote(EncodeNote(n)) == Success(n)
  {
    var o := EncodeNote(n);
    assert IsIntegral(n.pitch as real) && IsIntegral(n.velocity as real) && IsIntegral(n.channel as real);
    assert DecodeByte(o, Pitch) == Success(n.pitch);
    assert DecodeByte(o, Velocity) == Success(n.velocity);
    assert DecodeByte(o, Channel) == Success(n.channel);
  }

  /** A successful decode reads exactly what encoding the decoded note writes, so a stored
      note is re-saved unchanged. */
  lemma DecodedNoteReencodes(o: Container<NoteKey>)
    requires DecodeNote(o).Success?
    ensures EncodeNote(DecodeNote(o).value) == o
  {
    var e := EncodeNote(DecodeNote(o).value);
    forall k | k in o ensures k in AllNoteKeys {
      match k
      case Pitch => case Velocity => case StartBeat => case Duration => case Channel =>
    }
    assert e.Keys == o.Keys;
  }

  // ---------------------------------------------------------------------------------------
  // TuneModel

  /** `TuneModel`. Dates are seconds since the reference date, as `Date` codes itself. */
  datatype Tune = Tune(
    id: Uuid, fileName: string, fileType: SourceType, originalFileName: string, dateAdded: real,
    transpose: int, tempo: real, whistleKey: WhistleModels.WhistleKey, selectedKey: Option<string>,
    startMeasure: int, endMeasure: int, selectedTuneIndex: int,
    title: Option<string>, detectedKey: Option<string>,
    isEdited: bool, editedNotes: Option<seq<MidiNote>>)

  /** The initializer with every defaulted argument left out: a tune just added. */
  function NewTune(id: Uuid, fileName: string, fileType: SourceType, originalFileName: string,
                   dateAdded: real): (t: Tune)
    ensures t.id == id && t.fileName == fileName && t.fileType == fileType
    ensures t.originalFileName == originalFileName && t.dateAdded == dateAdded
    ensures t.transpose == 0 && t.tempo == 120.0 && t.whistleKey == WhistleModels.DHigh
    ensures t.startMeasure == 1 && t.endMeasure == 1 && t.selectedTuneIndex == 0
    ensures t.selectedKey.None? && t.title.None? && t.detectedKey.None?
    ensures !t.isEdited && t.editedNotes.None?
  {
    Tune(id, fileName, fileType, originalFileName, dateAdded, 0, 120.0, WhistleModels.DHigh, None,
         1, 1, 0, None, None, false, None)
  }

  /** `TuneModel.CodingKeys`: every stored property except `editedNotes`. */
  datatype TuneKey = Id | FileName | FileType | OriginalFileName | DateAdded
    | Transpose | Tempo | WhistleKeyField | SelectedKey
    | StartMeasure | EndMeasure | SelectedTuneIndex
    | Title | DetectedKey | IsEdited

  /** The keys of the properties that are not optional; they are always written. */
  const RequiredTuneKeys: set<TuneKey> := {
    Id, FileName, FileType, OriginalFileName, DateAdded, Transpose, Tempo, WhistleKeyField,
    StartMeasure, EndMeasure, SelectedTuneIndex, IsEdited}

  /** The keys of the optional properties, which are written only when they hold a value. */
  const OptionalTuneKeys: set<TuneKey> := {SelectedKey, Title, DetectedKey}

  /** The JSON key each case is written under (its `stringValue`); no case is written under
      `"editedNotes"`. */
  function TuneKeyName(k: TuneKey): (s: string)
    ensures s != "editedNotes"
  {
    match k
    case Id => "id"
    case FileName => "fileName"
    case FileType => "fileType"
    case OriginalFileName => "originalFileName"
    case DateAdded => "dateAdded"
    case Transpose => "transpose"
    case Tempo => "tempo"
    case WhistleKeyField => "whistleKey"
    case SelectedKey => "selectedKey"
    case StartMeasure => "startMeasure"
    case EndMeasure => "endMeasure"
    case SelectedTuneIndex => "selectedTuneIndex"
    case Title => "title"
    case DetectedKey => "detectedKey"
    case IsEdited => "isEdited"
  }

  /** Distinct cases are written under distinct JSON keys, so the keyed view of a saved
      object loses nothing. */
  lemma TuneKeyNamesDistinct(a: TuneKey, b: TuneKey)
    requires TuneKeyName(a) == TuneKeyName(b)
    ensures a == b
  {
  }

  /** What `encode(to:)` writes under one key: the property's value, or nothing for an
      optional property without one (`encodeIfPresent`). */
  function TuneField(t: Tune, k: TuneKey): (v: Option<Json>)
    ensures v.None? <==>
      (k in OptionalTuneKeys && (k == SelectedKey ==> t.selectedKey.None?)
       && (k == Title ==> t.title.None?) && (k == DetectedKey ==> t.detectedKey.None?))
  {
    match k
    case Id => Some(JString(t.id.uuidString))
    case FileName => Some(JString(t.fileName))
    case FileType => Some(JString(SourceTypeRawValue(t.fileType)))
    case OriginalFileName => Some(JString(t.originalFileName))
    case DateAdded => Some(JNumber(t.dateAdded))
    case Transpose => Some(JNumber(t.transpose as real))
    case Tempo => Some(JNumber(t.tempo))
    case WhistleKeyField => Some(JString(WhistleModels.RawValue(t.whistleKey)))
    case SelectedKey => if t.selectedKey.Some? then Some(JString(t.selectedKey.value)) else None
    case StartMeasure => Some(JNumber(t.startMeasure as real))
    case EndMeasure => Some(JNumber(t.endMeasure as real))
    case SelectedTuneIndex => Some(JNumber(t.selectedTuneIndex as real))
    case Title => if t.title.Some? then Some(JString(t.title.value)) else None
    case DetectedKey => if t.detectedKey.Some? then Some(JString(t.detectedKey.value)) else None
    case IsEdited => Some(JBool(t.isEdited))
  }

  /** The synthesized `encode(to:)`: each coded property under its key, the optional ones
      only when they hold a value. */
  function EncodeTune(t: Tune): (o: Container<TuneKey>)
    ensures forall k :: k in o <==> TuneField(t, k).Some?
    ensures forall k :: k in o ==> o[k] == TuneField(t, k).value
  {
    map k: TuneKey | TuneField(t, k).Some? :: TuneField(t, k).value
  }

  /** Every property but the three optional ones is always written, and an optional one is
      written exactly when it holds a value. */
  lemma EncodeTuneKeys(t: Tune)
    ensures RequiredTuneKeys <= EncodeTune(t).Keys <= RequiredTuneKeys + OptionalTuneKeys
    ensures var o := EncodeTune(t);
      (SelectedKey in o <==> t.selectedKey.Some?) && (Title in o <==> t.title.Some?)
      && (DetectedKey in o <==> t.detectedKey.Some?)
  {
    var o := EncodeTune(t);
    forall k | k in o ensures k in RequiredTuneKeys + OptionalTuneKeys {
      match k
      case Id => case FileName => case FileType => case OriginalFileName => case DateAdded =>
      case Transpose => case Tempo => case WhistleKeyField => case SelectedKey =>
      case StartMeasure => case EndMeasure => case SelectedTuneIndex => case Title =>
      case DetectedKey => case IsEdited =>
    }
  }

  /** A raw-value enum: a string that names a case. */
  function DecodeSourceType<K>(o: Container<K>, key: K): (r: Decoded<SourceType, K>)
    ensures r.Success? ==> key in o && o[key] == JString(SourceTypeRawValue(r.value))
  {
    var s :- DecodeString(o, key);
    match SourceTypeFromRawValue(s)
    case Some(t) => Success(t)
    case None => Failure(DataCorrupted(key))
  }

  function DecodeWhistleKey<K>(o: Container<K>, key: K): (r: Decoded<WhistleModels.WhistleKey, K>)
    ensures r.Success? ==> key in o && o[key] == JString(WhistleModels.RawValue(r.value))
  {
    var s :- DecodeString(o, key);
    match WhistleModels.FromRawValue(s)
    case Some(k) => Success(k)
    case None => Failure(DataCorrupted(key))
  }

  /** The synthesized `init(from:)`: every coded property in declaration order, required ones
      with `decode` (a stored default does not stand in for a missing key) and optional ones
      with `decodeIfPresent`; `editedNotes` is not coded and starts out nil. The reads are
      grouped in four runs of the same order. */
  function DecodeTune(o: Container<TuneKey>): (r: Decoded<Tune, TuneKey>)
    ensures r.Success? ==> RequiredTuneKeys <= o.Keys && r.value.editedNotes.None?
  {
    var (id, fileName, fileType, originalFileName, dateAdded) :- DecodeFileFields(o);
    var (transpose, tempo, whistleKey, selectedKey) :- DecodePlaybackFields(o);
    var (startMeasure, endMeasure, selectedTuneIndex) :- DecodeRangeFields(o);
    var (title, detectedKey, isEdited) :- DecodeMetadataFields(o);
    Success(Tune(id, fileName, fileType, originalFileName, dateAdded, transpose, tempo,
                 whistleKey, selectedKey, startMeasure, endMeasure, selectedTuneIndex, title,
                 detectedKey, isEdited, None))
  }

  function DecodeFileFields(o: Container<TuneKey>)
    : (r: Decoded<(Uuid, string, SourceType, string, real), TuneKey>)
    ensures r.Success? ==> {Id, FileName, FileType, OriginalFileName, DateAdded} <= o.Keys
  {
    var id :- DecodeString(o, Id);
    var fileName :- DecodeString(o, FileName);
    var fileType :- DecodeSourceType(o, FileType);
    var originalFileName :- DecodeString(o, OriginalFileName);
    var dateAdded :- DecodeNumber(o, DateAdded);
    Success((Uuid(id), fileName, fileType, originalFileName, dateAdded))
  }

  function DecodePlaybackFields(o: Container<TuneKey>)
    : (r: Decoded<(int, real, WhistleModels.WhistleKey, Option<string>), TuneKey>)
    ensures r.Success? ==> {Transpose, Tempo, WhistleKeyField} <= o.Keys
  {
    var transpose :- DecodeInteger(o, Transpose);
    var tempo :- DecodeNumber(o, Tempo);
    var whistleKey :- DecodeWhistleKey(o, WhistleKeyField);
    var selectedKey :- DecodeStringIfPresent(o, SelectedKey);
    Success((transpose, tempo, whistleKey, selectedKey))
  }

  function DecodeRangeFields(o: Container<TuneKey>): (r: Decoded<(int, int, int), TuneKey>)
    ensures r.Success? ==> {StartMeasure, EndMeasure, SelectedTuneIndex} <= o.Keys
  {
    var startMeasure :- DecodeInteger(o, StartMeasure);
    var endMeasure :- DecodeInteger(o, EndMeasure);
    var selectedTuneIndex :- DecodeInteger(o, SelectedTuneIndex);
    Success((startMeasure, endMeasure, selectedTuneIndex))
  }

  function DecodeMetadataFields(o: Container<TuneKey>)
    : (r: Decoded<(Option<string>, Option<string>, bool), TuneKey>)
    ensures r.Success? ==> IsEdited in o
  {
    var title :- DecodeStringIfPresent(o, Title);
    var detectedKey :- DecodeStringIfPresent(o, DetectedKey);
    var isEdited :- DecodeBool(o, IsEdited);
    Success((title, detectedKey, isEdited))
  }

  /** Saving and loading a tune keeps every coded field and drops the edited notes. */
  lemma TuneRoundTrip(t: Tune)
    ensures DecodeTune(EncodeTune(t)) == Success(t.(editedNotes := None))
  {
    FileFieldsRoundTrip(t);
    PlaybackFieldsRoundTrip(t);
    RangeFieldsRoundTrip(t);
    MetadataFieldsRoundTrip(t);
  }

  lemma FileFieldsRoundTrip(t: Tune)
    ensures DecodeFileFields(EncodeTune(t))
      == Success((t.id, t.fileName, t.fileType, t.originalFileName, t.dateAdded))
  {
    var o := EncodeTune(t);
    assert DecodeString(o, Id) == Success(t.id.uuidString);
    assert DecodeString(o, FileName) == Success(t.fileName);
    assert DecodeString(o, OriginalFileName) == Success(t.originalFileName);
    assert DecodeNumber(o, DateAdded) == Success(t.dateAdded);
    assert DecodeSourceType(o, FileType) == Success(t.fileType) by {
      match t.fileType
      case Midi =>
      case Abc =>
    }
  }

  lemma PlaybackFieldsRoundTrip(t: Tune)
    ensures DecodePlaybackFields(EncodeTune(t))
      == Success((t.transpose, t.tempo, t.whistleKey, t.selectedKey))
  {
    var o := EncodeTune(t);
    assert IsIntegral(t.transpose as real);
    assert DecodeNumber(o, Tempo) == Success(t.tempo);
    assert DecodeWhistleKey(o, WhistleKeyField) == Success(t.whistleKey) by {
      WhistleModels.RawValueRoundTrip(t.whistleKey);
    }
    assert DecodeStringIfPresent(o, SelectedKey) == Success(t.selectedKey);
  }

  lemma RangeFieldsRoundTrip(t: Tune)
    ensures DecodeRangeFields(EncodeTune(t)) == Success((t.startMeasure, t.endMeasure, t.selectedTuneIndex))
  {
    var o := EncodeTune(t);
    assert IsIntegral(t.startMeasure as real);
    assert DecodeInteger(o, StartMeasure) == Success(t.startMeasure);
    assert IsIntegral(t.endMeasure as real);
    assert DecodeInteger(o, EndMeasure) == Success(t.endMeasure);
    assert IsIntegral(t.selectedTuneIndex as real);
    assert DecodeInteger(o, SelectedTuneIndex) == Success(t.selectedTuneIndex);
  }

  lemma MetadataFieldsRoundTrip(t: Tune)
    ensures DecodeMetadataFields(EncodeTune(t)) == Success((t.title, t.detectedKey, t.isEdited))
  {
    var o := EncodeTune(t);
    assert DecodeStringIfPresent(o, Title) == Success(t.title);
    assert DecodeStringIfPresent(o, DetectedKey) == Success(t.detectedKey);
    assert DecodeBool(o, IsEdited) == Success(t.isEdited);
  }

  /** The edited notes never reach the saved form. */
  lemma EncodeIgnoresEditedNotes(t: Tune, notes: Option<seq<MidiNote>>)
    ensures EncodeTune(t.(editedNotes := notes)) == EncodeTune(t)
  {
  }

  /** A freshly added tune is saved and loaded unchanged. */
  lemma NewTuneRoundTrip(id: Uuid, fileName: string, fileType: SourceType, originalFileName: string,
                         dateAdded: real)
    ensures var t := NewTune(id, fileName, fileType, originalFileName, dateAdded);
      DecodeTune(EncodeTune(t)) == Success(t)
  {
    TuneRoundTrip(NewTune(id, fileName, fileType, originalFileName, dateAdded));
  }
}
