/** The app-wide defaults of MidiPlayer/Services/AppSettings.swift: four stored settings and
    the typed whistle-key and view-mode properties computed over the stored raw strings.
    The backing store is the fields themselves. */
module AppSettings {
  import opened Wrappers
  import WhistleModels

  /** `ViewMode` and its raw values. */
  datatype ViewMode = PianoRoll | FingerChart

  function ViewModeRawValue(m: ViewMode): string {
    match m
    case PianoRoll => "Piano Roll"
    case FingerChart => "Fingering"
  }

  function ViewModeFromRawValue(s: string): (r: Option<ViewMode>)
    ensures r.Some? ==> ViewModeRawValue(r.value) == s
    ensures r.None? ==> forall m :: ViewModeRawValue(m) != s
  {
    if s == "Piano Roll" then Some(PianoRoll) else if s == "Fingering" then Some(FingerChart) else None
  }

  /** The `whistleKey` getter on a stored raw string: the key it names, else high D. */
  function StoredWhistleKey(raw: string): (k: WhistleModels.WhistleKey)
    ensures WhistleModels.FromRawValue(raw).Some? ==> WhistleModels.RawValue(k) == raw
    ensures WhistleModels.FromRawValue(raw).None? ==> k == WhistleModels.DHigh
  {
    WhistleModels.FromRawValue(raw).GetOr(WhistleModels.DHigh)
  }

  /** The `viewMode` getter on a stored raw string: the mode it names, else the fingering
      chart. */
  function StoredViewMode(raw: string): (m: ViewMode)
    ensures ViewModeFromRawValue(raw).Some? ==> ViewModeRawValue(m) == raw
    ensures ViewModeFromRawValue(raw).None? ==> m == FingerChart
  {
    ViewModeFromRawValue(raw).GetOr(FingerChart)
  }

  /** Storing a value's raw string and reading it back gives the value again. */
  lemma StoredSettingsRoundTrip(k: WhistleModels.WhistleKey, m: ViewMode)
    ensures StoredWhistleKey(WhistleModels.RawValue(k)) == k
    ensures StoredViewMode(ViewModeRawValue(m)) == m
  {
    WhistleModels.RawValueRoundTrip(k);
    match m
    case PianoRoll =>
    case FingerChart =>
  }

  /** The stored defaults read back as high D and the fingering chart. */
  lemma DefaultsReadBack()
    ensures StoredWhistleKey("D") == WhistleModels.DHigh
    ensures StoredViewMode("Fingering") == FingerChart
    ensures WhistleModels.RawValue(WhistleModels.DHigh) == "D"
    ensures ViewModeRawValue(FingerChart) == "Fingering"
  {
  }

  class AppSettings {
    var defaultWhistleKey: string
    var defaultViewMode: string
    var defaultTempo: real
    var defaultLooping: bool

    /** A store with nothing saved yet holds the declared defaults. */
    constructor()
      ensures defaultWhistleKey == WhistleModels.RawValue(WhistleModels.DHigh)
      ensures defaultViewMode == ViewModeRawValue(FingerChart)
      ensures defaultTempo == 120.0 && defaultLooping
    {
      defaultWhistleKey := WhistleModels.RawValue(WhistleModels.DHigh);
      defaultViewMode := ViewModeRawValue(FingerChart);
      defaultTempo := 120.0;
      defaultLooping := true;
    }

    function WhistleKey(): WhistleModels.WhistleKey
      reads this
    {
      StoredWhistleKey(defaultWhistleKey)
    }

    function ViewModeSetting(): ViewMode
      reads this
    {
      StoredViewMode(defaultViewMode)
    }

    /** The `whistleKey` setter: stores the raw value, so the getter returns the key. */
    method SetWhistleKey(k: WhistleModels.WhistleKey)
      modifies this
      ensures defaultWhistleKey == WhistleModels.RawValue(k)
      ensures defaultViewMode == old(defaultViewMode) && defaultTempo == old(defaultTempo)
      ensures defaultLooping == old(defaultLooping)
      ensures WhistleKey() == k && ViewModeSetting() == old(ViewModeSetting())
    {
      defaultWhistleKey := WhistleModels.RawValue(k);
      StoredSettingsRoundTrip(k, FingerChart);
    }

    /** The `viewMode` setter: stores the raw value, so the getter returns the mode. */
    method SetViewMode(m: ViewMode)
      modifies this
      ensures defaultViewMode == ViewModeRawValue(m)
      ensures defaultWhistleKey == old(defaultWhistleKey) && defaultTempo == old(defaultTempo)
      ensures defaultLooping == old(defaultLooping)
      ensures ViewModeSetting() == m && WhistleKey() == old(WhistleKey())
    {
      defaultViewMode := ViewModeRawValue(m);
      StoredSettingsRoundTrip(WhistleModels.DHigh, m);
    }
  }
}
