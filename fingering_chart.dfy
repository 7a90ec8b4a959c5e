/** The fingering-only chart of MidiPlayer/Views/FingerChart/FingerChartView.swift: its two
    row heights and how it sizes the fingering row to the window. */
module FingeringChart {
  import opened Wrappers
  import opened NoteWindow

  datatype ChartScale = Landscape | Portrait

  /** `fingeringRowHeight`, in points. */
  function FingeringRowHeight(scale: ChartScale): (h: real)
    ensures h > 0.0
    ensures scale == Landscape ==> h > 90.0
  {
    match scale
    case Portrait => 90.0
    case Landscape => 150.0
  }

  /** What the chart hands to the fingering row. A width is None when it is not a finite
      number: `availableWidth / visibleBeats` with no visible beats is infinite or NaN in
      floating point. */
  datatype RowLayout = RowLayout(beatWidth: Option<real>, totalWidth: Option<real>, offset: real,
                                 startBeatOffset: real)

  /** The `body` computation: one beat is the available width over the visible beats, the row
      is that many beats wide, and it is never scrolled. */
  function Layout(availableWidth: real, startMeasure: int, endMeasure: int, beatsPerMeasure: int)
    : (r: RowLayout)
    ensures r.offset == 0.0
    ensures r.startBeatOffset == WindowStartBeat(startMeasure, beatsPerMeasure)
    ensures var beats := VisibleBeats(startMeasure, endMeasure, beatsPerMeasure);
      (r.beatWidth.Some? <==> beats != 0.0) && (r.totalWidth.Some? <==> beats != 0.0)
      && (beats != 0.0 ==> r.beatWidth.value * beats == availableWidth)
  {
    var beats := VisibleBeats(startMeasure, endMeasure, beatsPerMeasure);
    if beats == 0.0 then
      RowLayout(None, None, 0.0, StartBeatOffset(startMeasure, beatsPerMeasure))
    else
      var baseWidth := availableWidth / beats;
      RowLayout(Some(baseWidth), Some(beats * baseWidth), 0.0, StartBeatOffset(startMeasure, beatsPerMeasure))
  }

  /** For a real measure range the row fills exactly the available width, and its beats end
      where the window of visible notes ends. */
  lemma LayoutFillsWidth(availableWidth: real, startMeasure: int, endMeasure: int, beatsPerMeasure: int)
    requires startMeasure <= endMeasure && beatsPerMeasure != 0
    ensures var r := Layout(availableWidth, startMeasure, endMeasure, beatsPerMeasure);
      r.totalWidth == Some(availableWidth)
      && r.startBeatOffset + VisibleBeats(startMeasure, endMeasure, beatsPerMeasure)
         == WindowEndBeat(endMeasure, beatsPerMeasure)
  {
    WindowSpan(startMeasure, endMeasure, beatsPerMeasure);
  }
}
