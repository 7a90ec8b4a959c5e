/** Pagination of the fingering row (Whistly/Screens/Main/NotesView/FingerChart/FingeringRowView.swift):
    the row shows one page of notes at a time, every page exactly the view's width, divided
    evenly between the page's notes and the gaps between them. */
module FingeringRow {
  import opened Wrappers
  import opened Notes
  import opened Seqs

  function MinReal(a: real, b: real): real {
    if a <= b then a else b
  }

  function MaxNat(a: nat, b: nat): nat {
    if a >= b then a else b
  }

  // ---------------------------------------------------------------------------------------
  // countActualSlotsInRange

  /** The filter of `countActualSlotsInRange`: the notes starting in `[startBeat, endBeat)`. */
  function NotesStartingIn(notes: seq<MidiNote>, startBeat: real, endBeat: real): (r: seq<MidiNote>)
    ensures forall n :: n in r <==> n in notes && startBeat <= n.startBeat < endBeat
    ensures Subsequence(r, notes)
  {
    var starts := (n: MidiNote) => startBeat <= n.startBeat && n.startBeat < endBeat;
    FilterIsSubsequence(starts, notes);
    var r := Filter(starts, notes);
    assert forall n :: n in notes && starts(n) ==> n in r by {
      forall n | n in notes && starts(n) ensures n in r {
        var i :| 0 <= i < |notes| && notes[i] == n;
      }
    }
    r
  }

  /** The filter keeps every copy of a note starting in the range, so notes that are equal
      (a note doubled on two tracks) are all counted, and drops every copy of the others. */
  lemma NotesStartingInCounts(notes: seq<MidiNote>, startBeat: real, endBeat: real)
    ensures forall n :: multiset(NotesStartingIn(notes, startBeat, endBeat))[n] ==
               if startBeat <= n.startBeat < endBeat then multiset(notes)[n] else 0
  {
    var starts := (n: MidiNote) => startBeat <= n.startBeat && n.startBeat < endBeat;
    FilterMultiset(starts, notes);
  }

  /** The filter takes the notes one by one from the front. */
  lemma NotesStartingInCons(notes: seq<MidiNote>, startBeat: real, endBeat: real)
    requires notes != []
    ensures NotesStartingIn(notes, startBeat, endBeat)
      == (if startBeat <= notes[0].startBeat < endBeat then [notes[0]] else [])
         + NotesStartingIn(notes[1..], startBeat, endBeat)
  {
  }

  /** Slots laid out for `notes` (all starting before `endBeat`) from the cursor `current`:
      a gap before each note that starts after the cursor, one slot per note, and a closing
      gap if the last note stops before `endBeat`. A note moves the cursor to its end, cut at
      `endBeat`. */
  function SlotsFrom(notes: seq<MidiNote>, current: real, endBeat: real): nat
    decreases |notes|
  {
    if notes == [] then (if current < endBeat then 1 else 0)
    else
      var note := notes[0];
      (if note.startBeat > current then 1 else 0) + 1
      + SlotsFrom(notes[1..], MinReal(note.EndBeat(), endBeat), endBeat)
  }

  /** Every note takes one slot and at most one gap precedes it; one more gap may close the
      range. */
  lemma {:induction false} SlotsFromBounds(notes: seq<MidiNote>, current: real, endBeat: real)
    ensures |notes| <= SlotsFrom(notes, current, endBeat) <= 2 * |notes| + 1
    decreases |notes|
  {
    if notes != [] {
      SlotsFromBounds(notes[1..], MinReal(notes[0].EndBeat(), endBeat), endBeat);
    }
  }

  /** What `countActualSlotsInRange` counts: nothing when no note starts in the range. */
  function CountSlotsInRange(notes: seq<MidiNote>, startBeat: real, endBeat: real): nat {
    var inRange := NotesStartingIn(notes, startBeat, endBeat);
    if inRange == [] then 0 else SlotsFrom(inRange, startBeat, endBeat)
  }

  /** With `k` notes starting in the range the count lies between `k` and `2k + 1`, and it is
      zero exactly when no note starts there. */
  lemma CountSlotsBounds(notes: seq<MidiNote>, startBeat: real, endBeat: real)
    ensures var k := |NotesStartingIn(notes, startBeat, endBeat)|;
      var c := CountSlotsInRange(notes, startBeat, endBeat);
      (c == 0 <==> k == 0) && (k > 0 ==> k <= c <= 2 * k + 1)
  {
    SlotsFromBounds(NotesStartingIn(notes, startBeat, endBeat), startBeat, endBeat);
  }

  /** `countActualSlotsInRange(startBeat:endBeat:)`. */
  method CountActualSlotsInRange(notes: seq<MidiNote>, startBeat: real, endBeat: real) returns (count: nat)
    ensures count == CountSlotsInRange(notes, startBeat, endBeat)
  {
    var notesInRange := NotesStartingIn(notes, startBeat, endBeat);
    if notesInRange == [] {
      return 0;
    }
    var slotCount := 0;
    var currentBeat := startBeat;
    var i := 0;
    while i < |notesInRange|
      invariant 0 <= i <= |notesInRange|
      invariant slotCount + SlotsFrom(notesInRange[i..], currentBeat, endBeat)
        == SlotsFrom(notesInRange, startBeat, endBeat)
    {
      var note := notesInRange[i];
      assert notesInRange[i..][1..] == notesInRange[i + 1..];
      if note.startBeat > currentBeat {
        slotCount := slotCount + 1;
      }
      slotCount := slotCount + 1;
      currentBeat := MinReal(note.EndBeat(), endBeat);
      i := i + 1;
    }
    if currentBeat < endBeat {
      slotCount := slotCount + 1;
    }
    return slotCount;
  }

  // ---------------------------------------------------------------------------------------
  // optimalPageSizeInBeats

  /** Page sizes tried, in measures, largest first. */
  const PageSizesInMeasures: seq<real> := [8.0, 4.0, 2.0, 1.0, 0.5, 0.25]

  /** Narrowest slot, in points, a page may give a note. */
  const MinNoteWidth: real := 20.0

  /** Most pages examined per candidate size. */
  const MaxPagesToCheck: int := 5

  /** Swift's `ceil` followed by `Int(...)`. */
  function Ceil(x: real): (c: int)
    ensures (c - 1) as real < x <= c as real
  {
    -((-x).Floor)
  }

  /** Start of page `index` of the row: pages are laid end to end from `startBeatOffset`. */
  function PageStart(startBeatOffset: real, index: int, pageSize: real): real {
    startBeatOffset + index as real * pageSize
  }

  /** `min(5, Int(ceil((notes.last?.endBeat ?? 0 - startBeatOffset) / pageSizeInBeats)))`. Swift
      binds `-` tighter than `??`, so the offset is subtracted only when there is no note:
      with notes, the count runs from beat 0 to the last note's end. */
  function PagesToCheck(notes: seq<MidiNote>, startBeatOffset: real, pageSize: real): (k: int)
    requires pageSize > 0.0
    ensures k <= MaxPagesToCheck
  {
    var lastEnd := if notes == [] then 0.0 - startBeatOffset else notes[|notes| - 1].EndBeat();
    var pages := Ceil(lastEnd / pageSize);
    if pages < MaxPagesToCheck then pages else MaxPagesToCheck
  }

  /** `countActualSlotsInRange` for page `index`. */
  function SlotsOnPage(notes: seq<MidiNote>, startBeatOffset: real, pageSize: real, index: int): nat {
    var start := PageStart(startBeatOffset, index, pageSize);
    CountSlotsInRange(notes, start, start + pageSize)
  }

  /** Largest slot count over the first `pages` pages (the running `max` of the loop). */
  function MaxSlots(notes: seq<MidiNote>, startBeatOffset: real, pageSize: real, pages: nat): nat
    decreases pages
  {
    if pages == 0 then 0
    else MaxNat(MaxSlots(notes, startBeatOffset, pageSize, pages - 1),
                SlotsOnPage(notes, startBeatOffset, pageSize, pages - 1))
  }

  /** The running maximum is the largest page count: no page exceeds it and some page attains
      it (zero when no page is examined). */
  lemma {:induction false} MaxSlotsIsMaximum(notes: seq<MidiNote>, startBeatOffset: real, pageSize: real,
                                             pages: nat)
    ensures var m := MaxSlots(notes, startBeatOffset, pageSize, pages);
      (forall i :: 0 <= i < pages ==> SlotsOnPage(notes, startBeatOffset, pageSize, i) <= m)
      && (pages > 0 ==> exists i :: 0 <= i < pages && SlotsOnPage(notes, startBeatOffset, pageSize, i) == m)
      && (pages == 0 ==> m == 0)
    decreases pages
  {
    if pages > 0 {
      MaxSlotsIsMaximum(notes, startBeatOffset, pageSize, pages - 1);
    }
  }

  /** What happens to one candidate page size. */
  datatype Outcome = Traps | Rejected | Accepted

  /** A negative page count makes `0..<maxPagesToCheck` trap; a candidate whose pages hold no
      slot is passed over; otherwise it is taken when the busiest page leaves every slot at
      least the minimum width. */
  function CandidateOutcome(notes: seq<MidiNote>, startBeatOffset: real, pageSize: real, viewWidth: real)
    : Outcome
    requires pageSize > 0.0
  {
    var pages := PagesToCheck(notes, startBeatOffset, pageSize);
    if pages < 0 then Traps
    else
      var maxSlots := MaxSlots(notes, startBeatOffset, pageSize, pages);
      if maxSlots == 0 then Rejected
      else if viewWidth / maxSlots as real >= MinNoteWidth then Accepted
      else Rejected
  }

  /** Candidate `i` in beats. */
  function CandidateSize(i: nat, beatsPerMeasure: int): (p: real)
    requires i < |PageSizesInMeasures| && beatsPerMeasure > 0
    ensures p > 0.0
  {
    PageSizesInMeasures[i] * beatsPerMeasure as real
  }

  /** The outcome of every candidate, largest first. */
  function Outcomes(notes: seq<MidiNote>, startBeatOffset: real, beatsPerMeasure: int, viewWidth: real)
    : (os: seq<Outcome>)
    requires beatsPerMeasure > 0
    ensures |os| == |PageSizesInMeasures|
    ensures forall j :: 0 <= j < |os| ==>
      os[j] == CandidateOutcome(notes, startBeatOffset, CandidateSize(j, beatsPerMeasure), viewWidth)
  {
    seq(|PageSizesInMeasures|, j requires 0 <= j < |PageSizesInMeasures| =>
      CandidateOutcome(notes, startBeatOffset, CandidateSize(j, beatsPerMeasure), viewWidth))
  }

  /** Every candidate in beats, largest first. */
  function CandidateSizes(beatsPerMeasure: int): (ps: seq<real>)
    requires beatsPerMeasure > 0
    ensures |ps| == |PageSizesInMeasures|
    ensures forall j :: 0 <= j < |ps| ==> ps[j] == CandidateSize(j, beatsPerMeasure)
  {
    seq(|PageSizesInMeasures|, j requires 0 <= j < |PageSizesInMeasures| => CandidateSize(j, beatsPerMeasure))
  }

  /** The search from candidate `i` on: stop at a trap, take an accepted size, otherwise go on;
      after the last candidate, the fallback. */
  function FirstDecided(outcomes: seq<Outcome>, sizes: seq<real>, fallback: real, i: nat): Option<real>
    requires |sizes| == |outcomes| && i <= |outcomes|
    decreases |outcomes| - i
  {
    if i == |outcomes| then Some(fallback)
    else match outcomes[i]
      case Traps => None
      case Accepted => Some(sizes[i])
      case Rejected => FirstDecided(outcomes, sizes, fallback, i + 1)
  }

  /** `optimalPageSizeInBeats`, as written; None where the loop traps. */
  function OptimalPageSize(notes: seq<MidiNote>, startBeatOffset: real, beatsPerMeasure: int, viewWidth: real)
    : Option<real>
    requires beatsPerMeasure > 0
  {
    FirstDecided(Outcomes(notes, startBeatOffset, beatsPerMeasure, viewWidth), CandidateSizes(beatsPerMeasure),
                 0.25 * beatsPerMeasure as real, 0)
  }

  /** Every outcome from `i` up to, not including, `j` is a rejection. */
  predicate RejectedBetween(outcomes: seq<Outcome>, i: nat, j: nat)
    requires j <= |outcomes|
  {
    forall l :: i <= l < j ==> outcomes[l] == Rejected
  }

  /** The first outcome from `i` on that is not a rejection decides: a trap, or that
      candidate's size; the fallback is returned only when every one is a rejection. */
  lemma {:induction false} FirstDecidedFirstFit(outcomes: seq<Outcome>, sizes: seq<real>, fallback: real, i: nat)
    requires |sizes| == |outcomes| && i <= |outcomes|
    ensures var r := FirstDecided(outcomes, sizes, fallback, i);
      r.None? <==> exists j :: i <= j < |outcomes| && outcomes[j] == Traps && RejectedBetween(outcomes, i, j)
    ensures var r := FirstDecided(outcomes, sizes, fallback, i);
      r.Some? ==>
        (exists j :: i <= j < |outcomes| && outcomes[j] == Accepted && r.value == sizes[j]
           && RejectedBetween(outcomes, i, j))
        || (r.value == fallback && RejectedBetween(outcomes, i, |outcomes|))
    decreases |outcomes| - i
  {
    assert RejectedBetween(outcomes, i, i);
    if i < |outcomes| {
      FirstDecidedFirstFit(outcomes, sizes, fallback, i + 1);
      if outcomes[i] == Rejected {
        forall j | i + 1 <= j <= |outcomes|
          ensures RejectedBetween(outcomes, i, j) == RejectedBetween(outcomes, i + 1, j)
        {
        }
      } else {
        forall j | i < j <= |outcomes| ensures !RejectedBetween(outcomes, i, j) {
          assert outcomes[i] != Rejected;
        }
      }
    }
  }

  /** `optimalPageSizeInBeats` returns the size of the first candidate that is taken, every
      larger one having been passed over; the quarter measure when all are passed over; and
      traps exactly when a candidate traps before any is taken. */
  lemma OptimalPageSizeFirstFit(notes: seq<MidiNote>, startBeatOffset: real, beatsPerMeasure: int,
                                viewWidth: real)
    requires beatsPerMeasure > 0
    ensures var r := OptimalPageSize(notes, startBeatOffset, beatsPerMeasure, viewWidth);
      var os := Outcomes(notes, startBeatOffset, beatsPerMeasure, viewWidth);
      r.None? <==> exists j :: 0 <= j < |os| && os[j] == Traps && RejectedBetween(os, 0, j)
    ensures var r := OptimalPageSize(notes, startBeatOffset, beatsPerMeasure, viewWidth);
      var os := Outcomes(notes, startBeatOffset, beatsPerMeasure, viewWidth);
      r.Some? ==>
        (exists j :: 0 <= j < |os| && os[j] == Accepted && r.value == CandidateSize(j, beatsPerMeasure)
           && RejectedBetween(os, 0, j))
        || (r.value == 0.25 * beatsPerMeasure as real && RejectedBetween(os, 0, |os|))
  {
    FirstDecidedFirstFit(Outcomes(notes, startBeatOffset, beatsPerMeasure, viewWidth),
                         CandidateSizes(beatsPerMeasure), 0.25 * beatsPerMeasure as real, 0);
  }

  /** The inner loop of `optimalPageSizeInBeats`: the most slots on any of the first
      `maxPagesToCheck` pages. */
  method MaxSlotsOnPages(notes: seq<MidiNote>, startBeatOffset: real, pageSize: real, maxPagesToCheck: nat)
    returns (maxSlots: nat)
    ensures maxSlots == MaxSlots(notes, startBeatOffset, pageSize, maxPagesToCheck)
  {
    maxSlots := 0;
    var pageIndex := 0;
    while pageIndex < maxPagesToCheck
      invariant 0 <= pageIndex <= maxPagesToCheck
      invariant maxSlots == MaxSlots(notes, startBeatOffset, pageSize, pageIndex)
    {
      var pageStart := PageStart(startBeatOffset, pageIndex, pageSize);
      var pageEnd := pageStart + pageSize;
      var slotsOnPage := CountActualSlotsInRange(notes, pageStart, pageEnd);
      assert slotsOnPage == SlotsOnPage(notes, startBeatOffset, pageSize, pageIndex);
      maxSlots := MaxNat(maxSlots, slotsOnPage);
      pageIndex := pageIndex + 1;
    }
  }

  /** `optimalPageSizeInBeats`, loop for loop. */
  method OptimalPageSizeInBeats(notes: seq<MidiNote>, startBeatOffset: real, beatsPerMeasure: int,
                                viewWidth: real) returns (r: Option<real>)
    requires beatsPerMeasure > 0
    ensures r == OptimalPageSize(notes, startBeatOffset, beatsPerMeasure, viewWidth)
  {
    ghost var outcomes := Outcomes(notes, startBeatOffset, beatsPerMeasure, viewWidth);
    ghost var sizes := CandidateSizes(beatsPerMeasure);
    var i := 0;
    while i < |PageSizesInMeasures|
      invariant 0 <= i <= |PageSizesInMeasures|
      invariant FirstDecided(outcomes, sizes, 0.25 * beatsPerMeasure as real, i)
        == OptimalPageSize(notes, startBeatOffset, beatsPerMeasure, viewWidth)
    {
      var pageSizeInBeats := PageSizesInMeasures[i] * beatsPerMeasure as real;
      assert pageSizeInBeats == sizes[i];
      var maxPagesToCheck := PagesToCheck(notes, startBeatOffset, pageSizeInBeats);
      if maxPagesToCheck < 0 {
        assert outcomes[i] == Traps;
        return None;
      }
      var maxSlots := MaxSlotsOnPages(notes, startBeatOffset, pageSizeInBeats, maxPagesToCheck);
      if maxSlots == 0 {
        assert outcomes[i] == Rejected;
        i := i + 1;
        continue;
      }
      var widthPerSlot := viewWidth / maxSlots as real;
      if widthPerSlot >= MinNoteWidth {
        assert outcomes[i] == Accepted;
        return Some(pageSizeInBeats);
      }
      assert outcomes[i] == Rejected;
      i := i + 1;
    }
    return Some(0.25 * beatsPerMeasure as real);
  }

  /** OptimalPageSize answers a candidate size or the fallback, so a positive size. */
  lemma {:induction false} FirstDecidedChoice(outcomes: seq<Outcome>, sizes: seq<real>, fallback: real, i: nat)
    requires |sizes| == |outcomes| && i <= |outcomes|
    ensures var r := FirstDecided(outcomes, sizes, fallback, i);
      r.Some? ==> r.value == fallback || exists j :: i <= j < |sizes| && r.value == sizes[j]
    decreases |outcomes| - i
  {
    if i < |outcomes| {
      FirstDecidedChoice(outcomes, sizes, fallback, i + 1);
    }
  }

  lemma OptimalPageSizePositive(notes: seq<MidiNote>, startBeatOffset: real, beatsPerMeasure: int, viewWidth: real)
    requires beatsPerMeasure > 0
    ensures var r := OptimalPageSize(notes, startBeatOffset, beatsPerMeasure, viewWidth);
      r.Some? ==> r.value > 0.0
  {
    FirstDecidedChoice(Outcomes(notes, startBeatOffset, beatsPerMeasure, viewWidth),
                       CandidateSizes(beatsPerMeasure), 0.25 * beatsPerMeasure as real, 0);
  }

  // ---------------------------------------------------------------------------------------
  // notePages

  /** A page of notes and its place on the beat axis: page `number` covers
      `[startBeatOffset + number * pageSize, startBeatOffset + (number + 1) * pageSize)`. */
  datatype Page = Page(number: int, notes: seq<MidiNote>)

  /** The loop state of `notePages`: the pages already closed, the number of the open page
      (whose start is `currentPageStartBeat`) and its notes. */
  datatype Pager = Pager(closed: seq<Page>, number: int, current: seq<MidiNote>)

  /** `floor((startBeat - startBeatOffset) / pageSize)`: the page a beat falls on. */
  function PageIndexOf(beat: real, startBeatOffset: real, pageSize: real): int
    requires pageSize > 0.0
  {
    ((beat - startBeatOffset) / pageSize).Floor
  }

  /** One turn of the `for note in notes` loop: a note inside the open page joins it; a note at
      or after the page's end closes the page (if it has notes) and opens the page the note
      falls on; a note before the page's start is dropped. */
  function PagerStep(st: Pager, note: MidiNote, startBeatOffset: real, pageSize: real): Pager
    requires pageSize > 0.0
  {
    var pageStart := PageStart(startBeatOffset, st.number, pageSize);
    var pageEnd := pageStart + pageSize;
    if note.startBeat >= pageStart && note.startBeat < pageEnd then
      st.(current := st.current + [note])
    else if note.startBeat >= pageEnd then
      Pager(if st.current != [] then st.closed + [Page(st.number, st.current)] else st.closed,
            PageIndexOf(note.startBeat, startBeatOffset, pageSize), [note])
    else st
  }

  function PagerRun(st: Pager, notes: seq<MidiNote>, startBeatOffset: real, pageSize: real): Pager
    requires pageSize > 0.0
    decreases |notes|
  {
    if notes == [] then st
    else PagerRun(PagerStep(st, notes[0], startBeatOffset, pageSize), notes[1..], startBeatOffset, pageSize)
  }

  /** The pages of `notePages` with their numbers: the loop from page 0 with no notes, then the
      open page if it has notes. */
  function PagedNotes(notes: seq<MidiNote>, startBeatOffset: real, pageSize: real): seq<Page>
    requires pageSize > 0.0
  {
    var st := PagerRun(Pager([], 0, []), notes, startBeatOffset, pageSize);
    if st.current != [] then st.closed + [Page(st.number, st.current)] else st.closed
  }

  function PageContents(pages: seq<Page>): (r: seq<seq<MidiNote>>)
    ensures |r| == |pages| && forall k :: 0 <= k < |pages| ==> r[k] == pages[k].notes
  {
    seq(|pages|, k requires 0 <= k < |pages| => pages[k].notes)
  }

  /** `notePages`. */
  function NotePages(notes: seq<MidiNote>, startBeatOffset: real, pageSize: real): seq<seq<MidiNote>>
    requires pageSize > 0.0
  {
    PageContents(PagedNotes(notes, startBeatOffset, pageSize))
  }

  /** Every note of the page starts on it. */
  predicate NotesOnPage(number: int, notes: seq<MidiNote>, startBeatOffset: real, pageSize: real) {
    forall n :: n in notes ==>
      PageStart(startBeatOffset, number, pageSize) <= n.startBeat < PageStart(startBeatOffset, number, pageSize) + pageSize
  }

  /** What `notePages` guarantees of its pages: none is empty, every note lies on its page,
      page numbers are non-negative and strictly increasing (pages may be skipped), and the
      notes keep their input order. */
  predicate PagesWellFormed(pages: seq<Page>, notes: seq<MidiNote>, startBeatOffset: real, pageSize: real) {
    (forall k :: 0 <= k < |pages| ==> pages[k].notes != [])
    && (forall k :: 0 <= k < |pages| ==> NotesOnPage(pages[k].number, pages[k].notes, startBeatOffset, pageSize))
    && (forall k :: 0 <= k < |pages| ==> pages[k].number >= 0)
    && (forall a, b :: 0 <= a < b < |pages| ==> pages[a].number < pages[b].number)
    && Subsequence(Flatten(PageContents(pages)), notes)
  }

  /** Loop invariant of `notePages` after the notes `done`. */
  predicate PagerInvariant(st: Pager, done: seq<MidiNote>, startBeatOffset: real, pageSize: real) {
    ClosedPagesOrdered(st.closed, st.number, startBeatOffset, pageSize)
    && NotesOnPage(st.number, st.current, startBeatOffset, pageSize)
    && st.number >= 0
    && Subsequence(Flatten(PageContents(st.closed)) + st.current, done)
  }

  /** The page bookkeeping of the invariant: non-empty pages, each holding notes on it,
      numbered from 0 in increasing order below the open page `number`. */
  predicate ClosedPagesOrdered(closed: seq<Page>, number: int, startBeatOffset: real, pageSize: real) {
    (forall k :: 0 <= k < |closed| ==> closed[k].notes != [])
    && (forall k :: 0 <= k < |closed| ==> NotesOnPage(closed[k].number, closed[k].notes, startBeatOffset, pageSize))
    && (forall k :: 0 <= k < |closed| ==> 0 <= closed[k].number < number)
    && (forall a, b :: 0 <= a < b < |closed| ==> closed[a].number < closed[b].number)
  }

  lemma MulMonotone(x: real, y: real, p: real)
    requires x <= y && p > 0.0
    ensures x * p <= y * p
  {
    assert y * p - x * p == (y - x) * p;
  }

  /** The page a beat falls on contains it. */
  lemma MulStrict(x: real, y: real, p: real)
    requires x < y && p > 0.0
    ensures x * p < y * p
  {
    assert y * p - x * p == (y - x) * p;
  }

  /** The page a beat falls on contains it. */
  lemma PageIndexOfContains(beat: real, startBeatOffset: real, pageSize: real)
    requires pageSize > 0.0
    ensures var k := PageIndexOf(beat, startBeatOffset, pageSize);
      PageStart(startBeatOffset, k, pageSize) <= beat < PageStart(startBeatOffset, k, pageSize) + pageSize
  {
    var q := (beat - startBeatOffset) / pageSize;
    var k := q.Floor;
    assert q * pageSize == beat - startBeatOffset;
    assert k as real <= q < k as real + 1.0;
    MulMonotone(k as real, q, pageSize);
    MulStrict(q, k as real + 1.0, pageSize);
    assert (k as real + 1.0) * pageSize == k as real * pageSize + pageSize;
    assert beat - startBeatOffset < k as real * pageSize + pageSize;
    assert k == PageIndexOf(beat, startBeatOffset, pageSize);
  }

  /** A beat at or after the end of page `number` falls on a later page. */
  lemma PageIndexOfAdvances(beat: real, number: int, startBeatOffset: real, pageSize: real)
    requires pageSize > 0.0 && beat >= PageStart(startBeatOffset, number, pageSize) + pageSize
    ensures PageIndexOf(beat, startBeatOffset, pageSize) > number
  {
    var k := PageIndexOf(beat, startBeatOffset, pageSize);
    PageIndexOfContains(beat, startBeatOffset, pageSize);
    if k <= number {
      MulMonotone(k as real, number as real, pageSize);
      assert false;
    }
  }

  lemma PagerStepKeepsInvariant(st: Pager, done: seq<MidiNote>, note: MidiNote, startBeatOffset: real,
                                pageSize: real)
    requires pageSize > 0.0 && PagerInvariant(st, done, startBeatOffset, pageSize)
    ensures PagerInvariant(PagerStep(st, note, startBeatOffset, pageSize), done + [note], startBeatOffset, pageSize)
  {
    var pageStart := PageStart(startBeatOffset, st.number, pageSize);
    if note.startBeat >= pageStart && note.startBeat < pageStart + pageSize {
      PagerJoinKeepsInvariant(st, done, note, startBeatOffset, pageSize);
    } else if note.startBeat >= pageStart + pageSize {
      PagerOpenKeepsInvariant(st, done, note, startBeatOffset, pageSize);
    } else {
      SubsequenceExtendRight(Flatten(PageContents(st.closed)) + st.current, done, note);
    }
  }

  /** A note on the open page joins it. */
  lemma PagerJoinKeepsInvariant(st: Pager, done: seq<MidiNote>, note: MidiNote, startBeatOffset: real,
                                pageSize: real)
    requires pageSize > 0.0 && PagerInvariant(st, done, startBeatOffset, pageSize)
    requires PageStart(startBeatOffset, st.number, pageSize) <= note.startBeat
             < PageStart(startBeatOffset, st.number, pageSize) + pageSize
    ensures PagerInvariant(st.(current := st.current + [note]), done + [note], startBeatOffset, pageSize)
  {
    var shown := Flatten(PageContents(st.closed)) + st.current;
    assert Flatten(PageContents(st.closed)) + (st.current + [note]) == shown + [note];
    SubsequenceAppendBoth(shown, done, note);
  }

  /** Closing a non-empty open page and opening a later one keeps the bookkeeping. */
  lemma ClosingPageKeepsOrder(closed: seq<Page>, open: Page, number: int, startBeatOffset: real, pageSize: real)
    requires ClosedPagesOrdered(closed, open.number, startBeatOffset, pageSize)
    requires open.notes != [] && NotesOnPage(open.number, open.notes, startBeatOffset, pageSize)
    requires 0 <= open.number < number
    ensures ClosedPagesOrdered(closed + [open], number, startBeatOffset, pageSize)
  {
    var all := closed + [open];
    forall k | 0 <= k < |all|
      ensures all[k].notes != [] && NotesOnPage(all[k].number, all[k].notes, startBeatOffset, pageSize)
      ensures 0 <= all[k].number < number
    {
      if k < |closed| { assert all[k] == closed[k]; }
    }
    forall a, b | 0 <= a < b < |all| ensures all[a].number < all[b].number {
      if b < |closed| { assert all[a] == closed[a] && all[b] == closed[b]; }
      else { assert all[a] == closed[a] && all[b] == open; }
    }
  }

  /** The page opened for a note past the open page lies after it and holds the note. */
  lemma OpenedPageHoldsNote(note: MidiNote, number: int, startBeatOffset: real, pageSize: real)
    requires pageSize > 0.0 && note.startBeat >= PageStart(startBeatOffset, number, pageSize) + pageSize
    ensures PageIndexOf(note.startBeat, startBeatOffset, pageSize) > number
    ensures NotesOnPage(PageIndexOf(note.startBeat, startBeatOffset, pageSize), [note], startBeatOffset, pageSize)
  {
    PageIndexOfContains(note.startBeat, startBeatOffset, pageSize);
    PageIndexOfAdvances(note.startBeat, number, startBeatOffset, pageSize);
  }

  /** A note past the open page closes it (when it has notes) and opens the note's page. */
  lemma PagerOpenKeepsInvariant(st: Pager, done: seq<MidiNote>, note: MidiNote, startBeatOffset: real,
                                pageSize: real)
    requires pageSize > 0.0 && PagerInvariant(st, done, startBeatOffset, pageSize)
    requires note.startBeat >= PageStart(startBeatOffset, st.number, pageSize) + pageSize
    ensures PagerInvariant(
      Pager(if st.current != [] then st.closed + [Page(st.number, st.current)] else st.closed,
            PageIndexOf(note.startBeat, startBeatOffset, pageSize), [note]),
      done + [note], startBeatOffset, pageSize)
  {
    var shown := Flatten(PageContents(st.closed)) + st.current;
    var m := PageIndexOf(note.startBeat, startBeatOffset, pageSize);
    OpenedPageHoldsNote(note, st.number, startBeatOffset, pageSize);
    SubsequenceAppendBoth(shown, done, note);
    if st.current != [] {
      var closed := st.closed + [Page(st.number, st.current)];
      ClosingPageKeepsOrder(st.closed, Page(st.number, st.current), m, startBeatOffset, pageSize);
      assert PageContents(closed) == PageContents(st.closed) + [st.current];
      FlattenAppend(PageContents(st.closed), st.current);
    } else {
      ClosedPagesRaiseBound(st.closed, st.number, m, startBeatOffset, pageSize);
      assert Flatten(PageContents(st.closed)) + [note] == shown + [note];
    }
  }

  /** The bookkeeping holds below any later open page too. */
  lemma ClosedPagesRaiseBound(closed: seq<Page>, number: int, later: int, startBeatOffset: real, pageSize: real)
    requires ClosedPagesOrdered(closed, number, startBeatOffset, pageSize) && number <= later
    ensures ClosedPagesOrdered(closed, later, startBeatOffset, pageSize)
  {
  }

  lemma {:induction false} PagerRunKeepsInvariant(st: Pager, done: seq<MidiNote>, rest: seq<MidiNote>,
                                                  startBeatOffset: real, pageSize: real)
    requires pageSize > 0.0 && PagerInvariant(st, done, startBeatOffset, pageSize)
    ensures PagerInvariant(PagerRun(st, rest, startBeatOffset, pageSize), done + rest, startBeatOffset, pageSize)
    decreases |rest|
  {
    if rest != [] {
      PagerStepKeepsInvariant(st, done, rest[0], startBeatOffset, pageSize);
      assert done + rest == (done + [rest[0]]) + rest[1..];
      PagerRunKeepsInvariant(PagerStep(st, rest[0], startBeatOffset, pageSize), done + [rest[0]], rest[1..],
                             startBeatOffset, pageSize);
    } else {
      assert done + rest == done;
    }
  }

  /** Closing the open page, when it has notes, turns the loop invariant into the guarantee
      of `notePages`. */
  lemma ClosingKeepsPagesWellFormed(st: Pager, notes: seq<MidiNote>, startBeatOffset: real, pageSize: real)
    requires pageSize > 0.0 && PagerInvariant(st, notes, startBeatOffset, pageSize)
    ensures PagesWellFormed(if st.current != [] then st.closed + [Page(st.number, st.current)] else st.closed,
                            notes, startBeatOffset, pageSize)
  {
    if st.current != [] {
      var pages := st.closed + [Page(st.number, st.current)];
      assert PageContents(pages) == PageContents(st.closed) + [st.current];
      FlattenAppend(PageContents(st.closed), st.current);
    } else {
      assert Flatten(PageContents(st.closed)) + st.current == Flatten(PageContents(st.closed));
    }
  }

  /** `notePages` never yields an empty page, puts every note on the page its start falls in,
      numbers pages in increasing order and keeps the notes in input order. */
  lemma NotePagesWellFormed(notes: seq<MidiNote>, startBeatOffset: real, pageSize: real)
    requires pageSize > 0.0
    ensures PagesWellFormed(PagedNotes(notes, startBeatOffset, pageSize), notes, startBeatOffset, pageSize)
  {
    var init := Pager([], 0, []);
    assert Flatten(PageContents(init.closed)) + init.current == [];
    assert PagerInvariant(init, [], startBeatOffset, pageSize);
    PagerRunKeepsInvariant(init, [], notes, startBeatOffset, pageSize);
    assert [] + notes == notes;
    ClosingKeepsPagesWellFormed(PagerRun(init, notes, startBeatOffset, pageSize), notes, startBeatOffset, pageSize);
  }

  /** A note that starts before the open page is dropped; any other note lands on the open page,
      as its last note. */
  lemma PagerStepDropsOnlyEarlyNotes(st: Pager, note: MidiNote, startBeatOffset: real, pageSize: real)
    requires pageSize > 0.0
    ensures var next := PagerStep(st, note, startBeatOffset, pageSize);
      if note.startBeat < PageStart(startBeatOffset, st.number, pageSize) then next == st
      else next.current != [] && next.current[|next.current| - 1] == note
  {
  }

  /** `notePages`, loop for loop. */
  method NotePagesLoop(notes: seq<MidiNote>, startBeatOffset: real, pageSize: real)
    returns (pages: seq<seq<MidiNote>>)
    requires pageSize > 0.0
    ensures pages == NotePages(notes, startBeatOffset, pageSize)
  {
    pages := [];
    ghost var closed: seq<Page> := [];
    ghost var number := 0;
    var currentPageStartBeat := startBeatOffset;
    var currentPage: seq<MidiNote> := [];
    var i := 0;
    while i < |notes|
      invariant 0 <= i <= |notes|
      invariant pages == PageContents(closed)
      invariant currentPageStartBeat == PageStart(startBeatOffset, number, pageSize)
      invariant PagerRun(Pager(closed, number, currentPage), notes[i..], startBeatOffset, pageSize)
        == PagerRun(Pager([], 0, []), notes, startBeatOffset, pageSize)
    {
      var note := notes[i];
      assert notes[i..][1..] == notes[i + 1..];
      ghost var st := Pager(closed, number, currentPage);
      var pageEnd := currentPageStartBeat + pageSize;
      if note.startBeat >= currentPageStartBeat && note.startBeat < pageEnd {
        currentPage := currentPage + [note];
      } else if note.startBeat >= pageEnd {
        if currentPage != [] {
          pages := pages + [currentPage];
          closed := closed + [Page(number, currentPage)];
          assert PageContents(closed) == PageContents(closed[..|closed| - 1]) + [currentPage];
        }
        var pagesFromStart := ((note.startBeat - startBeatOffset) / pageSize).Floor;
        currentPageStartBeat := startBeatOffset + pagesFromStart as real * pageSize;
        number := pagesFromStart;
        currentPage := [note];
      }
      assert Pager(closed, number, currentPage) == PagerStep(st, note, startBeatOffset, pageSize);
      i := i + 1;
    }
    if currentPage != [] {
      pages := pages + [currentPage];
      assert PageContents(closed + [Page(number, currentPage)]) == PageContents(closed) + [currentPage];
    }
  }

  // ---------------------------------------------------------------------------------------
  // The page-size search on a window without notes

  lemma {:induction false} MaxSlotsOfNoNotes(startBeatOffset: real, pageSize: real, pages: nat)
    ensures MaxSlots([], startBeatOffset, pageSize, pages) == 0
    decreases pages
  {
    if pages > 0 {
      MaxSlotsOfNoNotes(startBeatOffset, pageSize, pages - 1);
      CountSlotsBounds([], PageStart(startBeatOffset, pages - 1, pageSize),
                       PageStart(startBeatOffset, pages - 1, pageSize) + pageSize);
    }
  }

  /** With no notes a candidate traps exactly when the window starts a whole page or more past
      beat 0, and is passed over otherwise. */
  lemma EmptyCandidateOutcome(startBeatOffset: real, pageSize: real, viewWidth: real)
    requires pageSize > 0.0
    ensures CandidateOutcome([], startBeatOffset, pageSize, viewWidth)
      == if startBeatOffset >= pageSize then Traps else Rejected
  {
    var x := (0.0 - startBeatOffset) / pageSize;
    var c := Ceil(x);
    assert x * pageSize == 0.0 - startBeatOffset;
    if startBeatOffset >= pageSize {
      assert x <= -1.0 by {
        if x > -1.0 {
          MulStrict(-1.0, x, pageSize);
        }
      }
    } else {
      assert x > -1.0 by {
        if x <= -1.0 {
          MulMonotone(x, -1.0, pageSize);
        }
      }
      var pages := PagesToCheck([], startBeatOffset, pageSize);
      MaxSlotsOfNoNotes(startBeatOffset, pageSize, pages);
    }
  }

  /** With every candidate passed over or trapping, the search traps exactly when one traps. */
  lemma {:induction false} FirstDecidedWithoutAccept(outcomes: seq<Outcome>, sizes: seq<real>, fallback: real,
                                                     i: nat)
    requires |sizes| == |outcomes| && i <= |outcomes|
    requires forall j :: i <= j < |outcomes| ==> outcomes[j] != Accepted
    ensures FirstDecided(outcomes, sizes, fallback, i).None? <==>
      exists j :: i <= j < |outcomes| && outcomes[j] == Traps
    decreases |outcomes| - i
  {
    if i < |outcomes| && outcomes[i] == Rejected {
      FirstDecidedWithoutAccept(outcomes, sizes, fallback, i + 1);
      assert forall j :: i <= j < |outcomes| && outcomes[j] == Traps ==> i + 1 <= j;
    }
  }

  /** On a window without notes `optimalPageSizeInBeats` traps exactly when the window starts a
      quarter measure or more past beat 0, that is, for every window but the first measure. */
  lemma OptimalPageSizeEmptyWindow(startBeatOffset: real, beatsPerMeasure: int, viewWidth: real)
    requires beatsPerMeasure > 0
    ensures OptimalPageSize([], startBeatOffset, beatsPerMeasure, viewWidth).None? <==>
      startBeatOffset >= 0.25 * beatsPerMeasure as real
  {
    var os := Outcomes([], startBeatOffset, beatsPerMeasure, viewWidth);
    var sizes := CandidateSizes(beatsPerMeasure);
    forall j | 0 <= j < |os|
      ensures os[j] == if startBeatOffset >= sizes[j] then Traps else Rejected
    {
      EmptyCandidateOutcome(startBeatOffset, sizes[j], viewWidth);
    }
    FirstDecidedWithoutAccept(os, sizes, 0.25 * beatsPerMeasure as real, 0);
    forall j | 0 <= j < |os| ensures sizes[j] >= 0.25 * beatsPerMeasure as real {
      MulMonotone(0.25, PageSizesInMeasures[j], beatsPerMeasure as real);
    }
    if startBeatOffset >= 0.25 * beatsPerMeasure as real {
      assert os[5] == Traps;
    }
  }

  /** Measures 2-2 of a tune in 4/4 with no note there: the search traps. */
  lemma OptimalPageSizeTrapsOnEmptySecondMeasure()
    ensures OptimalPageSize([], 4.0, 4, 300.0) == None
  {
    OptimalPageSizeEmptyWindow(4.0, 4, 300.0);
  }

  // The search with the page count clamped at zero, which never traps.

  /** `max(0, maxPagesToCheck)`. */
  function PagesToCheckClamped(notes: seq<MidiNote>, startBeatOffset: real, pageSize: real): nat
    requires pageSize > 0.0
  {
    var pages := PagesToCheck(notes, startBeatOffset, pageSize);
    if pages < 0 then 0 else pages
  }

  function CandidateOutcomeClamped(notes: seq<MidiNote>, startBeatOffset: real, pageSize: real,
                                   viewWidth: real): (o: Outcome)
    requires pageSize > 0.0
    ensures o != Traps
  {
    var maxSlots := MaxSlots(notes, startBeatOffset, pageSize, PagesToCheckClamped(notes, startBeatOffset, pageSize));
    if maxSlots == 0 then Rejected
    else if viewWidth / maxSlots as real >= MinNoteWidth then Accepted
    else Rejected
  }

  /** Clamping turns a trap into a rejection (no page is examined) and changes nothing else. */
  lemma CandidateOutcomeClampedAgrees(notes: seq<MidiNote>, startBeatOffset: real, pageSize: real,
                                      viewWidth: real)
    requires pageSize > 0.0
    ensures var o := CandidateOutcome(notes, startBeatOffset, pageSize, viewWidth);
      CandidateOutcomeClamped(notes, startBeatOffset, pageSize, viewWidth) == if o == Traps then Rejected else o
  {
  }

  function OutcomesClamped(notes: seq<MidiNote>, startBeatOffset: real, beatsPerMeasure: int, viewWidth: real)
    : (os: seq<Outcome>)
    requires beatsPerMeasure > 0
    ensures |os| == |PageSizesInMeasures|
    ensures forall j :: 0 <= j < |os| ==>
      os[j] == CandidateOutcomeClamped(notes, startBeatOffset, CandidateSize(j, beatsPerMeasure), viewWidth)
  {
    seq(|PageSizesInMeasures|, j requires 0 <= j < |PageSizesInMeasures| =>
      CandidateOutcomeClamped(notes, startBeatOffset, CandidateSize(j, beatsPerMeasure), viewWidth))
  }

  /** The page-size search with `0..<max(0, maxPagesToCheck)`. */
  function OptimalPageSizeClamped(notes: seq<MidiNote>, startBeatOffset: real, beatsPerMeasure: int,
                                  viewWidth: real): Option<real>
    requires beatsPerMeasure > 0
  {
    FirstDecided(OutcomesClamped(notes, startBeatOffset, beatsPerMeasure, viewWidth),
                 CandidateSizes(beatsPerMeasure), 0.25 * beatsPerMeasure as real, 0)
  }

  /** A search in which no candidate traps always answers. */
  lemma {:induction false} FirstDecidedNeverTraps(outcomes: seq<Outcome>, sizes: seq<real>, fallback: real, i: nat)
    requires |sizes| == |outcomes| && i <= |outcomes|
    requires forall j :: i <= j < |outcomes| ==> outcomes[j] != Traps
    ensures FirstDecided(outcomes, sizes, fallback, i).Some?
    decreases |outcomes| - i
  {
    if i < |outcomes| {
      FirstDecidedNeverTraps(outcomes, sizes, fallback, i + 1);
    }
  }

  /** Replacing traps by rejections leaves every answer the search already gave unchanged. */
  lemma {:induction false} FirstDecidedRepaired(outcomes: seq<Outcome>, repaired: seq<Outcome>, sizes: seq<real>,
                                                fallback: real, i: nat)
    requires |sizes| == |outcomes| == |repaired| && i <= |outcomes|
    requires forall j :: 0 <= j < |outcomes| ==>
      repaired[j] == if outcomes[j] == Traps then Rejected else outcomes[j]
    ensures FirstDecided(outcomes, sizes, fallback, i).Some? ==>
      FirstDecided(repaired, sizes, fallback, i) == FirstDecided(outcomes, sizes, fallback, i)
    decreases |outcomes| - i
  {
    if i < |outcomes| {
      FirstDecidedRepaired(outcomes, repaired, sizes, fallback, i + 1);
    }
  }

  /** The clamped search always answers, with a positive size. */
  lemma OptimalPageSizeClampedIsTotal(notes: seq<MidiNote>, startBeatOffset: real, beatsPerMeasure: int,
                                      viewWidth: real)
    requires beatsPerMeasure > 0
    ensures var r := OptimalPageSizeClamped(notes, startBeatOffset, beatsPerMeasure, viewWidth);
      r.Some? && r.value > 0.0
  {
    var repaired := OutcomesClamped(notes, startBeatOffset, beatsPerMeasure, viewWidth);
    var sizes := CandidateSizes(beatsPerMeasure);
    FirstDecidedNeverTraps(repaired, sizes, 0.25 * beatsPerMeasure as real, 0);
    FirstDecidedChoice(repaired, sizes, 0.25 * beatsPerMeasure as real, 0);
  }

  /** The clamped search agrees with `optimalPageSizeInBeats` wherever that does not trap. */
  lemma OptimalPageSizeClampedAgrees(notes: seq<MidiNote>, startBeatOffset: real, beatsPerMeasure: int,
                                     viewWidth: real)
    requires beatsPerMeasure > 0
    ensures var r := OptimalPageSize(notes, startBeatOffset, beatsPerMeasure, viewWidth);
      r.Some? ==> OptimalPageSizeClamped(notes, startBeatOffset, beatsPerMeasure, viewWidth) == r
  {
    var os := Outcomes(notes, startBeatOffset, beatsPerMeasure, viewWidth);
    var repaired := OutcomesClamped(notes, startBeatOffset, beatsPerMeasure, viewWidth);
    forall j | 0 <= j < |os|
      ensures repaired[j] == if os[j] == Traps then Rejected else os[j]
    {
      CandidateOutcomeClampedAgrees(notes, startBeatOffset, CandidateSize(j, beatsPerMeasure), viewWidth);
    }
    FirstDecidedRepaired(os, repaired, CandidateSizes(beatsPerMeasure), 0.25 * beatsPerMeasure as real, 0);
  }

  // ---------------------------------------------------------------------------------------
  // pages: the slots of each page

  /** A slot of a page: a note's fingering, or a pause. */
  datatype Slot = NoteSlot(note: MidiNote) | Gap

  /** A slot with its width; the slot's view id is not modelled. */
  datatype SizedSlot = SizedSlot(slot: Slot, width: real)

  /** An element of `pages`. */
  datatype SlotPage = SlotPage(pageIndex: nat, slots: seq<SizedSlot>)

  /** The inner loop's results: the slots collected and the final `currentBeat`. */
  datatype Scan = Scan(slots: seq<Slot>, cursor: real)

  /** One turn of the inner `for note in pageNotes` loop from `cursor`: a pause before a note
      that starts later, then the note when some of it lies after the cursor and before the
      page's end; the new cursor. */
  function ScanNote(note: MidiNote, cursor: real, pageEnd: real): Scan {
    var gap := if note.startBeat > cursor then [Gap] else [];
    var afterGap := if note.startBeat > cursor then note.startBeat else cursor;
    var noteEndOnPage := MinReal(note.EndBeat(), pageEnd);
    if noteEndOnPage > afterGap then Scan(gap + [NoteSlot(note)], noteEndOnPage)
    else Scan(gap, afterGap)
  }

  /** The inner loop from `cursor` on, stopping once the cursor reaches the page's end. */
  function ScanSlots(notes: seq<MidiNote>, cursor: real, pageEnd: real): Scan
    decreases |notes|
  {
    if notes == [] then Scan([], cursor)
    else
      var step := ScanNote(notes[0], cursor, pageEnd);
      if step.cursor >= pageEnd then step
      else
        var rest := ScanSlots(notes[1..], step.cursor, pageEnd);
        Scan(step.slots + rest.slots, rest.cursor)
  }

  /** The slots of a page starting at `pageStart`: the scan, then a closing pause when the
      scan stopped short of the page's end and found something. */
  function PageSlots(pageNotes: seq<MidiNote>, pageStart: real, pageSize: real): seq<Slot> {
    var pageEnd := pageStart + pageSize;
    var sc := ScanSlots(pageNotes, pageStart, pageEnd);
    if sc.cursor < pageEnd && sc.slots != [] then sc.slots + [Gap] else sc.slots
  }

  /** `slots.map`: every slot gets width `width`. */
  function Sized(slots: seq<Slot>, width: real): (r: seq<SizedSlot>)
    ensures |r| == |slots| && forall k :: 0 <= k < |r| ==> r[k] == SizedSlot(slots[k], width)
  {
    seq(|slots|, k requires 0 <= k < |slots| => SizedSlot(slots[k], width))
  }

  function Widths(slots: seq<SizedSlot>): (r: seq<real>)
    ensures |r| == |slots| && forall k :: 0 <= k < |r| ==> r[k] == slots[k].width
  {
    seq(|slots|, k requires 0 <= k < |slots| => slots[k].width)
  }

  /** The slots of every page, page `k` holding `contents[k]` and starting at `starts[k]`. */
  function AllPageSlots(contents: seq<seq<MidiNote>>, starts: seq<real>, pageSize: real): (r: seq<seq<Slot>>)
    requires |starts| == |contents|
    ensures |r| == |contents|
    ensures forall k :: 0 <= k < |r| ==> r[k] == PageSlots(contents[k], starts[k], pageSize)
  {
    seq(|contents|, k requires 0 <= k < |contents| => PageSlots(contents[k], starts[k], pageSize))
  }

  /** The outer loop from page `i` on: a page without slots is skipped, the others share
      `viewWidth` evenly. */
  function LayoutPages(slotLists: seq<seq<Slot>>, viewWidth: real, i: nat): seq<SlotPage>
    requires i <= |slotLists|
    decreases |slotLists| - i
  {
    if i == |slotLists| then []
    else
      var slots := slotLists[i];
      (if slots == [] then [] else [SlotPage(i, Sized(slots, viewWidth / |slots| as real))])
      + LayoutPages(slotLists, viewWidth, i + 1)
  }

  /** Page `k` of `notePages` as `pages` places it: `startBeatOffset + pageIndex * pageSize`. */
  function EnumeratedStarts(count: nat, startBeatOffset: real, pageSize: real): (r: seq<real>)
    ensures |r| == count && forall k :: 0 <= k < count ==> r[k] == PageStart(startBeatOffset, k, pageSize)
  {
    seq(count, k requires 0 <= k < count => PageStart(startBeatOffset, k, pageSize))
  }

  /** `pages`, as written. */
  function SlotPages(pages: seq<seq<MidiNote>>, startBeatOffset: real, pageSize: real, viewWidth: real)
    : seq<SlotPage>
  {
    LayoutPages(AllPageSlots(pages, EnumeratedStarts(|pages|, startBeatOffset, pageSize), pageSize), viewWidth, 0)
  }

  /** A laid-out page: its slots are those of page `pageIndex`, not empty, each of the same
      width, and together exactly as wide as the view. */
  predicate LaidOut(page: SlotPage, slotLists: seq<seq<Slot>>, viewWidth: real) {
    page.pageIndex < |slotLists|
    && |page.slots| > 0
    && page.slots == Sized(slotLists[page.pageIndex], viewWidth / |page.slots| as real)
    && Sum(Widths(page.slots)) == viewWidth
  }

  /** Each laid-out page fills the view's width with the slots of its page. */
  lemma {:induction false} LayoutPageLaidOut(slotLists: seq<seq<Slot>>, viewWidth: real, i: nat, k: nat)
    requires i <= |slotLists| && k < |LayoutPages(slotLists, viewWidth, i)|
    ensures var page := LayoutPages(slotLists, viewWidth, i)[k];
      LaidOut(page, slotLists, viewWidth) && i <= page.pageIndex
    decreases |slotLists| - i
  {
    var slots := slotLists[i];
    var rest := LayoutPages(slotLists, viewWidth, i + 1);
    if slots == [] {
      assert LayoutPages(slotLists, viewWidth, i) == rest;
      LayoutPageLaidOut(slotLists, viewWidth, i + 1, k);
    } else {
      var w := viewWidth / |slots| as real;
      var page := SlotPage(i, Sized(slots, w));
      assert LayoutPages(slotLists, viewWidth, i) == [page] + rest;
      if k == 0 {
        SumOfConstant(Widths(page.slots), w);
      } else {
        LayoutPageLaidOut(slotLists, viewWidth, i + 1, k - 1);
      }
    }
  }

  /** The laid-out pages keep the page order. */
  lemma {:induction false} LayoutPagesOrdered(slotLists: seq<seq<Slot>>, viewWidth: real, i: nat, a: nat, b: nat)
    requires i <= |slotLists| && a < b < |LayoutPages(slotLists, viewWidth, i)|
    ensures LayoutPages(slotLists, viewWidth, i)[a].pageIndex < LayoutPages(slotLists, viewWidth, i)[b].pageIndex
    decreases |slotLists| - i
  {
    var slots := slotLists[i];
    var rest := LayoutPages(slotLists, viewWidth, i + 1);
    if slots == [] {
      assert LayoutPages(slotLists, viewWidth, i) == rest;
      LayoutPagesOrdered(slotLists, viewWidth, i + 1, a, b);
    } else {
      var page := SlotPage(i, Sized(slots, viewWidth / |slots| as real));
      assert LayoutPages(slotLists, viewWidth, i) == [page] + rest;
      if a == 0 {
        LayoutPageLaidOut(slotLists, viewWidth, i + 1, b - 1);
      } else {
        LayoutPagesOrdered(slotLists, viewWidth, i + 1, a - 1, b - 1);
      }
    }
  }

  /** Every page with slots is laid out. */
  lemma {:induction false} LayoutPagesComplete(slotLists: seq<seq<Slot>>, viewWidth: real, i: nat, j: nat)
    requires i <= j < |slotLists| && slotLists[j] != []
    ensures var r := LayoutPages(slotLists, viewWidth, i);
      exists k :: 0 <= k < |r| && r[k].pageIndex == j
    decreases |slotLists| - i
  {
    var slots := slotLists[i];
    var rest := LayoutPages(slotLists, viewWidth, i + 1);
    if slots == [] {
      assert LayoutPages(slotLists, viewWidth, i) == rest;
      LayoutPagesComplete(slotLists, viewWidth, i + 1, j);
    } else {
      var r := [SlotPage(i, Sized(slots, viewWidth / |slots| as real))] + rest;
      assert LayoutPages(slotLists, viewWidth, i) == r;
      if j == i {
        assert r[0].pageIndex == j;
      } else {
        LayoutPagesComplete(slotLists, viewWidth, i + 1, j);
        var k :| 0 <= k < |rest| && rest[k].pageIndex == j;
        assert r[k + 1].pageIndex == j;
      }
    }
  }

  /** The laid-out pages: each fills the view's width with equal slots of its page, they keep
      the page order, and exactly the pages with slots are there. */
  lemma LayoutPagesShape(slotLists: seq<seq<Slot>>, viewWidth: real)
    ensures var r := LayoutPages(slotLists, viewWidth, 0);
      (forall k :: 0 <= k < |r| ==> LaidOut(r[k], slotLists, viewWidth))
      && (forall a, b :: 0 <= a < b < |r| ==> r[a].pageIndex < r[b].pageIndex)
      && (forall j :: 0 <= j < |slotLists| ==>
            (slotLists[j] != [] <==> exists k :: 0 <= k < |r| && r[k].pageIndex == j))
  {
    var r := LayoutPages(slotLists, viewWidth, 0);
    forall k | 0 <= k < |r| ensures LaidOut(r[k], slotLists, viewWidth) {
      LayoutPageLaidOut(slotLists, viewWidth, 0, k);
    }
    forall a, b | 0 <= a < b < |r| ensures r[a].pageIndex < r[b].pageIndex {
      LayoutPagesOrdered(slotLists, viewWidth, 0, a, b);
    }
    forall j | 0 <= j < |slotLists| && slotLists[j] != []
      ensures exists k :: 0 <= k < |r| && r[k].pageIndex == j
    {
      LayoutPagesComplete(slotLists, viewWidth, 0, j);
    }
  }

  /** Every page `pages` shows has slots whose widths are equal and add up to the view's width,
      the pages keep the `notePages` order, and a page is missing exactly when it has no slot. */
  lemma SlotPagesFillView(pages: seq<seq<MidiNote>>, startBeatOffset: real, pageSize: real, viewWidth: real)
    ensures var slotLists := AllPageSlots(pages, EnumeratedStarts(|pages|, startBeatOffset, pageSize), pageSize);
      var r := SlotPages(pages, startBeatOffset, pageSize, viewWidth);
      (forall k :: 0 <= k < |r| ==> LaidOut(r[k], slotLists, viewWidth))
      && (forall a, b :: 0 <= a < b < |r| ==> r[a].pageIndex < r[b].pageIndex)
      && (forall j :: 0 <= j < |pages| ==>
            (slotLists[j] != [] <==> exists k :: 0 <= k < |r| && r[k].pageIndex == j))
  {
    LayoutPagesShape(AllPageSlots(pages, EnumeratedStarts(|pages|, startBeatOffset, pageSize), pageSize), viewWidth);
  }

  /** The scan shows only notes of the page. */
  lemma {:induction false} ScanSlotsShowsPageNotes(notes: seq<MidiNote>, cursor: real, pageEnd: real)
    ensures forall sl :: sl in ScanSlots(notes, cursor, pageEnd).slots && sl.NoteSlot? ==> sl.note in notes
    decreases |notes|
  {
    if notes != [] {
      var step := ScanNote(notes[0], cursor, pageEnd);
      if step.cursor < pageEnd {
        ScanSlotsShowsPageNotes(notes[1..], step.cursor, pageEnd);
      }
    }
  }

  /** A page shows only its own notes. */
  lemma PageSlotsShowPageNotes(pageNotes: seq<MidiNote>, pageStart: real, pageSize: real)
    ensures forall sl :: sl in PageSlots(pageNotes, pageStart, pageSize) && sl.NoteSlot? ==> sl.note in pageNotes
  {
    ScanSlotsShowsPageNotes(pageNotes, pageStart, pageStart + pageSize);
  }

  /** A page placed where its first note starts shows that note (when the note has a length). */
  lemma PageSlotsShowFirstNote(pageNotes: seq<MidiNote>, pageStart: real, pageSize: real)
    requires pageSize > 0.0 && pageNotes != [] && pageNotes[0].duration > 0.0
    requires pageStart <= pageNotes[0].startBeat < pageStart + pageSize
    ensures NoteSlot(pageNotes[0]) in PageSlots(pageNotes, pageStart, pageSize)
  {
  }

  /** A page placed wholly before its first note is a single pause: the scan opens with a gap
      up to that note, nothing of the note lies on the page, and the scan stops there. */
  lemma PageSlotsBeforeFirstNote(pageNotes: seq<MidiNote>, pageStart: real, pageSize: real)
    requires pageSize > 0.0 && pageNotes != [] && pageNotes[0].startBeat >= pageStart + pageSize
    ensures PageSlots(pageNotes, pageStart, pageSize) == [Gap]
  {
  }

  /** One turn of the scan, as the inner loop's invariant sees it: either the scan stops after
      this note, or it goes on with the next ones. */
  lemma ScanSlotsStep(notes: seq<MidiNote>, cursor: real, pageEnd: real, before: seq<Slot>, full: Scan)
    requires notes != []
    requires before + ScanSlots(notes, cursor, pageEnd).slots == full.slots
    requires ScanSlots(notes, cursor, pageEnd).cursor == full.cursor
    ensures var step := ScanNote(notes[0], cursor, pageEnd);
      if step.cursor >= pageEnd then before + step.slots == full.slots && step.cursor == full.cursor
      else
        (before + step.slots) + ScanSlots(notes[1..], step.cursor, pageEnd).slots == full.slots
        && ScanSlots(notes[1..], step.cursor, pageEnd).cursor == full.cursor
  {
    var step := ScanNote(notes[0], cursor, pageEnd);
    if step.cursor < pageEnd {
      var rest := ScanSlots(notes[1..], step.cursor, pageEnd);
      assert before + (step.slots + rest.slots) == (before + step.slots) + rest.slots;
    }
  }

  /** The slots of one page of `pages`, loop for loop, with the early `break`. */
  method CollectPageSlots(pageNotes: seq<MidiNote>, pageStartBeat: real, pageSize: real)
    returns (slots: seq<Slot>)
    ensures slots == PageSlots(pageNotes, pageStartBeat, pageSize)
  {
    var pageEndBeat := pageStartBeat + pageSize;
    var currentBeat := pageStartBeat;
    slots := [];
    ghost var full := ScanSlots(pageNotes, pageStartBeat, pageEndBeat);
    var i := 0;
    while i < |pageNotes|
      invariant 0 <= i <= |pageNotes|
      invariant slots + ScanSlots(pageNotes[i..], currentBeat, pageEndBeat).slots == full.slots
      invariant ScanSlots(pageNotes[i..], currentBeat, pageEndBeat).cursor == full.cursor
    {
      var note := pageNotes[i];
      assert pageNotes[i..][1..] == pageNotes[i + 1..];
      ghost var before, cursor := slots, currentBeat;
      ghost var step := ScanNote(note, currentBeat, pageEndBeat);
      ScanSlotsStep(pageNotes[i..], currentBeat, pageEndBeat, before, full);
      ghost var gap: seq<Slot> := if note.startBeat > cursor then [Gap] else [];
      if note.startBeat > currentBeat {
        slots := slots + [Gap];
        currentBeat := note.startBeat;
      }
      assert slots == before + gap;
      assert currentBeat == if note.startBeat > cursor then note.startBeat else cursor;
      var noteEndOnPage := MinReal(note.EndBeat(), pageEndBeat);
      if noteEndOnPage > currentBeat {
        slots := slots + [NoteSlot(note)];
        currentBeat := noteEndOnPage;
        assert step.slots == gap + [NoteSlot(note)];
        assert slots == before + step.slots;
      } else {
        assert step.slots == gap;
      }
      assert currentBeat == step.cursor;
      if currentBeat >= pageEndBeat {
        break;
      }
      i := i + 1;
    }
    if i == |pageNotes| {
      assert pageNotes[i..] == [];
    }
    assert slots == full.slots && currentBeat == full.cursor;
    if currentBeat < pageEndBeat && slots != [] {
      slots := slots + [Gap];
    }
    PageSlotsOfScan(pageNotes, pageStartBeat, pageSize, full);
  }

  /** PageSlots in terms of the scan it closes. */
  lemma PageSlotsOfScan(pageNotes: seq<MidiNote>, pageStart: real, pageSize: real, sc: Scan)
    requires sc == ScanSlots(pageNotes, pageStart, pageStart + pageSize)
    ensures PageSlots(pageNotes, pageStart, pageSize)
            == if sc.cursor < pageStart + pageSize && sc.slots != [] then sc.slots + [Gap] else sc.slots
  {
  }

  /** The outer loop's output for page `i`: nothing for a page without slots, else the page
      with its slots sharing `viewWidth` evenly. */
  function LayoutOne(slotLists: seq<seq<Slot>>, viewWidth: real, i: nat): seq<SlotPage>
    requires i < |slotLists|
  {
    var slots := slotLists[i];
    if slots == [] then [] else [SlotPage(i, Sized(slots, viewWidth / |slots| as real))]
  }

  /** The outer loop's output after its first `k` pages. */
  function LayoutPrefix(slotLists: seq<seq<Slot>>, viewWidth: real, k: nat): seq<SlotPage>
    requires k <= |slotLists|
  {
    if k == 0 then [] else LayoutPrefix(slotLists, viewWidth, k - 1) + LayoutOne(slotLists, viewWidth, k - 1)
  }

  /** The pages laid out before page `k`, followed by those from `k` on, are the whole row. */
  lemma {:induction false} LayoutPrefixThenRest(slotLists: seq<seq<Slot>>, viewWidth: real, k: nat)
    requires k <= |slotLists|
    ensures LayoutPrefix(slotLists, viewWidth, k) + LayoutPages(slotLists, viewWidth, k)
            == LayoutPages(slotLists, viewWidth, 0)
    decreases k
  {
    if k > 0 {
      LayoutPrefixThenRest(slotLists, viewWidth, k - 1);
      var before := LayoutPrefix(slotLists, viewWidth, k - 1);
      var one := LayoutOne(slotLists, viewWidth, k - 1);
      var rest := LayoutPages(slotLists, viewWidth, k);
      assert LayoutPages(slotLists, viewWidth, k - 1) == one + rest;
      assert (before + one) + rest == before + (one + rest);
    }
  }

  /** The slots of page `pageIndex`, laid out from the start its enumeration index gives it. */
  method SlotsOfPage(pages: seq<seq<MidiNote>>, startBeatOffset: real, pageSize: real, pageIndex: nat)
    returns (slots: seq<Slot>)
    requires pageIndex < |pages|
    ensures slots == AllPageSlots(pages, EnumeratedStarts(|pages|, startBeatOffset, pageSize), pageSize)[pageIndex]
  {
    var pageStartBeat := PageStart(startBeatOffset, pageIndex, pageSize);
    slots := CollectPageSlots(pages[pageIndex], pageStartBeat, pageSize);
  }

  /** `pages`, loop for loop: the slots of every page, skipping a page without slots, each slot
      as wide as the view over the slot count. */
  method BuildSlotPages(pages: seq<seq<MidiNote>>, startBeatOffset: real, pageSize: real, viewWidth: real)
    returns (result: seq<SlotPage>)
    ensures result == SlotPages(pages, startBeatOffset, pageSize, viewWidth)
  {
    ghost var slotLists := AllPageSlots(pages, EnumeratedStarts(|pages|, startBeatOffset, pageSize), pageSize);
    result := [];
    var pageIndex := 0;
    while pageIndex < |pages|
      invariant 0 <= pageIndex <= |pages|
      invariant result == LayoutPrefix(slotLists, viewWidth, pageIndex)
    {
      var slots := SlotsOfPage(pages, startBeatOffset, pageSize, pageIndex);
      ghost var next := LayoutPrefix(slotLists, viewWidth, pageIndex + 1);
      assert next == result + LayoutOne(slotLists, viewWidth, pageIndex);
      var slotCount := |slots|;
      if slotCount == 0 {
        assert LayoutOne(slotLists, viewWidth, pageIndex) == [];
        pageIndex := pageIndex + 1;
        continue;
      }
      var widthPerSlot := viewWidth / slotCount as real;
      var finalSlots := Sized(slots, widthPerSlot);
      assert LayoutOne(slotLists, viewWidth, pageIndex) == [SlotPage(pageIndex, finalSlots)];
      result := result + [SlotPage(pageIndex, finalSlots)];
      pageIndex := pageIndex + 1;
    }
    LayoutPrefixThenRest(slotLists, viewWidth, |pages|);
    assert result == LayoutPages(slotLists, viewWidth, 0);
  }

  /** The fingering row's `pages` as written: the page size, the pages of notes, their slots;
      None where the page-size search traps. */
  function RowPages(notes: seq<MidiNote>, startBeatOffset: real, beatsPerMeasure: int, viewWidth: real)
    : Option<seq<SlotPage>>
    requires beatsPerMeasure > 0
  {
    match OptimalPageSize(notes, startBeatOffset, beatsPerMeasure, viewWidth)
    case None => None
    case Some(pageSize) =>
      OptimalPageSizePositive(notes, startBeatOffset, beatsPerMeasure, viewWidth);
      Some(SlotPages(NotePages(notes, startBeatOffset, pageSize), startBeatOffset, pageSize, viewWidth))
  }

  /** The row's pages, computed by the loops above. */
  method ComputeRowPages(notes: seq<MidiNote>, startBeatOffset: real, beatsPerMeasure: int, viewWidth: real)
    returns (r: Option<seq<SlotPage>>)
    requires beatsPerMeasure > 0
    ensures r == RowPages(notes, startBeatOffset, beatsPerMeasure, viewWidth)
  {
    var size := OptimalPageSizeInBeats(notes, startBeatOffset, beatsPerMeasure, viewWidth);
    if size.None? {
      return None;
    }
    var pageSize := size.value;
    OptimalPageSizePositive(notes, startBeatOffset, beatsPerMeasure, viewWidth);
    var notePages := NotePagesLoop(notes, startBeatOffset, pageSize);
    var pages := BuildSlotPages(notePages, startBeatOffset, pageSize, viewWidth);
    return Some(pages);
  }

  // ---------------------------------------------------------------------------------------
  // Page placement after a skipped page

  /** With strictly increasing non-negative page numbers, page `k` is at least page `k` of the
      row. */
  lemma {:induction false} PageNumbersAtLeastIndex(pages: seq<Page>, k: nat)
    requires forall j :: 0 <= j < |pages| ==> pages[j].number >= 0
    requires forall a, b :: 0 <= a < b < |pages| ==> pages[a].number < pages[b].number
    requires k < |pages|
    ensures pages[k].number >= k
  {
    if k > 0 {
      PageNumbersAtLeastIndex(pages, k - 1);
    }
  }

  /** As written, a page whose number is larger than its position (some earlier page had no
      note and was skipped) is laid out one page or more before its notes, so it shows a single
      pause and none of its notes. */
  lemma SlotPagesHideShiftedPages(notes: seq<MidiNote>, startBeatOffset: real, pageSize: real, k: nat)
    requires pageSize > 0.0
    requires var ps := PagedNotes(notes, startBeatOffset, pageSize); k < |ps| && ps[k].number > k
    ensures var contents := NotePages(notes, startBeatOffset, pageSize);
      AllPageSlots(contents, EnumeratedStarts(|contents|, startBeatOffset, pageSize), pageSize)[k] == [Gap]
  {
    var ps := PagedNotes(notes, startBeatOffset, pageSize);
    NotePagesWellFormed(notes, startBeatOffset, pageSize);
    var first := ps[k].notes[0];
    assert first in ps[k].notes;
    assert NotesOnPage(ps[k].number, ps[k].notes, startBeatOffset, pageSize);
    assert first.startBeat >= PageStart(startBeatOffset, ps[k].number, pageSize);
    MulMonotone((k + 1) as real, ps[k].number as real, pageSize);
    assert (k + 1) as real * pageSize == k as real * pageSize + pageSize;
    assert NotePages(notes, startBeatOffset, pageSize)[k] == ps[k].notes;
    assert ps[k].number as real * pageSize >= k as real * pageSize + pageSize;
    calc {
      first.startBeat;
    >= PageStart(startBeatOffset, ps[k].number, pageSize);
    == startBeatOffset + ps[k].number as real * pageSize;
    >= startBeatOffset + (k as real * pageSize + pageSize);
    == PageStart(startBeatOffset, k, pageSize) + pageSize;
    }
    PageSlotsBeforeFirstNote(ps[k].notes, PageStart(startBeatOffset, k, pageSize), pageSize);
  }

  /** Where no page was skipped the enumeration index is the page number and nothing is hidden. */
  lemma StartsAgreeWithoutSkips(pages: seq<Page>, startBeatOffset: real, pageSize: real)
    requires forall k :: 0 <= k < |pages| ==> pages[k].number == k
    ensures NumberedStarts(pages, startBeatOffset, pageSize) == EnumeratedStarts(|pages|, startBeatOffset, pageSize)
  {
  }

  /** Page `k` placed at its own number: `startBeatOffset + number * pageSize`. */
  function NumberedStarts(pages: seq<Page>, startBeatOffset: real, pageSize: real): (r: seq<real>)
    ensures |r| == |pages|
    ensures forall k :: 0 <= k < |pages| ==> r[k] == PageStart(startBeatOffset, pages[k].number, pageSize)
  {
    seq(|pages|, k requires 0 <= k < |pages| => PageStart(startBeatOffset, pages[k].number, pageSize))
  }

  /** `pages` with each page of notes laid out from its own start. */
  function SlotPagesNumbered(pages: seq<Page>, startBeatOffset: real, pageSize: real, viewWidth: real)
    : seq<SlotPage>
  {
    LayoutPages(AllPageSlots(PageContents(pages), NumberedStarts(pages, startBeatOffset, pageSize), pageSize),
                viewWidth, 0)
  }

  /** The page size the clamped search picks. */
  function CorrectedPageSize(notes: seq<MidiNote>, startBeatOffset: real, beatsPerMeasure: int, viewWidth: real)
    : (p: real)
    requires beatsPerMeasure > 0
    ensures p > 0.0
    ensures Some(p) == OptimalPageSizeClamped(notes, startBeatOffset, beatsPerMeasure, viewWidth)
  {
    OptimalPageSizeClampedIsTotal(notes, startBeatOffset, beatsPerMeasure, viewWidth);
    OptimalPageSizeClamped(notes, startBeatOffset, beatsPerMeasure, viewWidth).value
  }

  /** The row's pages with the page-size search clamped and each page laid out from its own
      start. */
  function RowPagesCorrected(notes: seq<MidiNote>, startBeatOffset: real, beatsPerMeasure: int, viewWidth: real)
    : seq<SlotPage>
    requires beatsPerMeasure > 0
  {
    var pageSize := CorrectedPageSize(notes, startBeatOffset, beatsPerMeasure, viewWidth);
    SlotPagesNumbered(PagedNotes(notes, startBeatOffset, pageSize), startBeatOffset, pageSize, viewWidth)
  }

  /** A layout of pages that all have slots shows every one of them, in order. */
  lemma {:induction false} LayoutPagesAllShown(slotLists: seq<seq<Slot>>, viewWidth: real, i: nat)
    requires i <= |slotLists|
    requires forall j :: i <= j < |slotLists| ==> slotLists[j] != []
    ensures var r := LayoutPages(slotLists, viewWidth, i);
      |r| == |slotLists| - i && forall k :: 0 <= k < |r| ==> r[k].pageIndex == i + k
    decreases |slotLists| - i
  {
    if i < |slotLists| {
      LayoutPagesAllShown(slotLists, viewWidth, i + 1);
      var rest := LayoutPages(slotLists, viewWidth, i + 1);
      var r := LayoutPages(slotLists, viewWidth, i);
      assert forall k :: 1 <= k < |r| ==> r[k] == rest[k - 1];
    }
  }

  /** Laid out from their own starts, the pages of `notePages` are all shown, in order, each
      with its first note, when every note has a length. */
  lemma SlotPagesNumberedShowsEveryPage(notes: seq<MidiNote>, startBeatOffset: real, pageSize: real,
                                        viewWidth: real)
    requires pageSize > 0.0
    requires forall n :: n in notes ==> n.duration > 0.0
    ensures var ps := PagedNotes(notes, startBeatOffset, pageSize);
      var r := SlotPagesNumbered(ps, startBeatOffset, pageSize, viewWidth);
      |r| == |ps|
      && forall k :: 0 <= k < |r| ==>
           r[k].pageIndex == k && ps[k].notes != []
           && exists j :: 0 <= j < |r[k].slots| && r[k].slots[j].slot == NoteSlot(ps[k].notes[0])
  {
    var ps := PagedNotes(notes, startBeatOffset, pageSize);
    var slotLists := AllPageSlots(PageContents(ps), NumberedStarts(ps, startBeatOffset, pageSize), pageSize);
    ShowsFirstNotes(notes, startBeatOffset, pageSize);
    NotePagesWellFormed(notes, startBeatOffset, pageSize);
    LayoutPagesAllShown(slotLists, viewWidth, 0);
    var r := LayoutPages(slotLists, viewWidth, 0);
    forall k | 0 <= k < |r|
      ensures exists j :: 0 <= j < |r[k].slots| && r[k].slots[j].slot == NoteSlot(ps[k].notes[0])
    {
      LayoutPageLaidOut(slotLists, viewWidth, 0, k);
      var j :| 0 <= j < |slotLists[k]| && slotLists[k][j] == NoteSlot(ps[k].notes[0]);
      assert r[k].slots[j].slot == slotLists[k][j];
    }
  }

  /** Laid out from its own start, each page of `notePages` shows its first note. */
  lemma ShowsFirstNotes(notes: seq<MidiNote>, startBeatOffset: real, pageSize: real)
    requires pageSize > 0.0
    requires forall n :: n in notes ==> n.duration > 0.0
    ensures var ps := PagedNotes(notes, startBeatOffset, pageSize);
      var slotLists := AllPageSlots(PageContents(ps), NumberedStarts(ps, startBeatOffset, pageSize), pageSize);
      forall k :: 0 <= k < |ps| ==> ps[k].notes != [] && NoteSlot(ps[k].notes[0]) in slotLists[k]
  {
    var ps := PagedNotes(notes, startBeatOffset, pageSize);
    NotePagesWellFormed(notes, startBeatOffset, pageSize);
    forall k | 0 <= k < |ps|
      ensures NoteSlot(ps[k].notes[0]) in PageSlots(ps[k].notes, PageStart(startBeatOffset, ps[k].number, pageSize), pageSize)
    {
      var first := ps[k].notes[0];
      assert first in ps[k].notes;
      assert NotesOnPage(ps[k].number, ps[k].notes, startBeatOffset, pageSize);
      assert first in PageContents(ps)[k];
      FlattenMembership(PageContents(ps), first);
      SubsequenceMembers(Flatten(PageContents(ps)), notes, first);
      PageSlotsShowFirstNote(ps[k].notes, PageStart(startBeatOffset, ps[k].number, pageSize), pageSize);
    }
  }

  /** With the clamped search and every page laid out from its own start, the row shows every
      page of notes, in order, each with its first note. */
  lemma RowPagesCorrectedShowsEveryPage(notes: seq<MidiNote>, startBeatOffset: real, beatsPerMeasure: int,
                                        viewWidth: real)
    requires beatsPerMeasure > 0
    requires forall n :: n in notes ==> n.duration > 0.0
    ensures var ps := PagedNotes(notes, startBeatOffset, CorrectedPageSize(notes, startBeatOffset, beatsPerMeasure, viewWidth));
      var r := RowPagesCorrected(notes, startBeatOffset, beatsPerMeasure, viewWidth);
      |r| == |ps|
      && forall k :: 0 <= k < |r| ==>
           r[k].pageIndex == k && ps[k].notes != []
           && exists j :: 0 <= j < |r[k].slots| && r[k].slots[j].slot == NoteSlot(ps[k].notes[0])
  {
    var pageSize := CorrectedPageSize(notes, startBeatOffset, beatsPerMeasure, viewWidth);
    assert RowPagesCorrected(notes, startBeatOffset, beatsPerMeasure, viewWidth)
      == SlotPagesNumbered(PagedNotes(notes, startBeatOffset, pageSize), startBeatOffset, pageSize, viewWidth);
    SlotPagesNumberedShowsEveryPage(notes, startBeatOffset, pageSize, viewWidth);
  }

  // ---------------------------------------------------------------------------------------
  // A tune that loses a note: a one-beat note at beat 0 and another at beat 64, in 4/4, on a
  // view 300 points wide.

  const FirstExampleNote := MidiNote(74, 100, 0.0, 1.0, 0)
  const SecondExampleNote := MidiNote(76, 100, 64.0, 1.0, 0)
  const ExampleNotes := [FirstExampleNote, SecondExampleNote]

  lemma ExampleFirstPageSlots()
    ensures SlotsOnPage(ExampleNotes, 0.0, 32.0, 0) == 2
  {
    var notes := ExampleNotes;
    assert notes[1..] == [SecondExampleNote] && notes[1..][1..] == [];
    NotesStartingInCons(notes, 0.0, 32.0);
    NotesStartingInCons(notes[1..], 0.0, 32.0);
    assert NotesStartingIn(notes, 0.0, 32.0) == [FirstExampleNote];
    assert [FirstExampleNote][1..] == [];
    assert SlotsFrom([FirstExampleNote], 0.0, 32.0) == 2;
  }

  lemma ExampleSecondPageSlots()
    ensures SlotsOnPage(ExampleNotes, 0.0, 32.0, 1) == 0
  {
    var notes := ExampleNotes;
    assert notes[1..] == [SecondExampleNote] && notes[1..][1..] == [];
    NotesStartingInCons(notes, 32.0, 64.0);
    NotesStartingInCons(notes[1..], 32.0, 64.0);
  }

  lemma ExampleThirdPageSlots()
    ensures SlotsOnPage(ExampleNotes, 0.0, 32.0, 2) == 2
  {
    var notes := ExampleNotes;
    assert notes[1..] == [SecondExampleNote] && notes[1..][1..] == [];
    NotesStartingInCons(notes, 64.0, 96.0);
    NotesStartingInCons(notes[1..], 64.0, 96.0);
    assert NotesStartingIn(notes, 64.0, 96.0) == [SecondExampleNote];
    assert [SecondExampleNote][1..] == [];
    assert SlotsFrom([SecondExampleNote], 64.0, 96.0) == 2;
  }

  /** Eight measures (32 beats) are taken: of the three pages examined the busiest holds two
      slots, 150 points each. */
  lemma ExamplePageSize()
    ensures OptimalPageSize(ExampleNotes, 0.0, 4, 300.0) == Some(32.0)
  {
    var notes := ExampleNotes;
    assert Ceil(65.0 / 32.0) == 3;
    assert PagesToCheck(notes, 0.0, 32.0) == 3;
    ExampleFirstPageSlots();
    ExampleSecondPageSlots();
    ExampleThirdPageSlots();
    assert MaxSlots(notes, 0.0, 32.0, 3) == 2;
    assert CandidateOutcome(notes, 0.0, 32.0, 300.0) == Accepted;
    assert Outcomes(notes, 0.0, 4, 300.0)[0] == Accepted;
  }

  /** The notes fall on pages 0 and 2; page 1 has none and is skipped. */
  lemma ExamplePages()
    ensures PagedNotes(ExampleNotes, 0.0, 32.0) == [Page(0, [FirstExampleNote]), Page(2, [SecondExampleNote])]
  {
    assert PageIndexOf(64.0, 0.0, 32.0) == 2;
    var st1 := PagerStep(Pager([], 0, []), FirstExampleNote, 0.0, 32.0);
    assert st1 == Pager([], 0, [FirstExampleNote]);
    var st2 := PagerStep(st1, SecondExampleNote, 0.0, 32.0);
    assert st2 == Pager([Page(0, [FirstExampleNote])], 2, [SecondExampleNote]);
    assert ExampleNotes[1..] == [SecondExampleNote] && ExampleNotes[1..][1..] == [];
    assert PagerRun(Pager([], 0, []), ExampleNotes, 0.0, 32.0) == PagerRun(st1, [SecondExampleNote], 0.0, 32.0);
    assert PagerRun(st1, [SecondExampleNote], 0.0, 32.0) == PagerRun(st2, [], 0.0, 32.0);
  }

  /** As written, the second note is on no page of the row: its page is drawn where page 1
      belongs, beats 32 to 64, as one pause. */
  lemma ExampleLosesSecondNote()
    ensures var r := RowPages(ExampleNotes, 0.0, 4, 300.0);
      r.Some? && forall page, sl :: page in r.value && sl in page.slots ==> sl.slot != NoteSlot(SecondExampleNote)
  {
    ExamplePageSize();
    ExamplePages();
    var ps := PagedNotes(ExampleNotes, 0.0, 32.0);
    var contents := NotePages(ExampleNotes, 0.0, 32.0);
    var slotLists := AllPageSlots(contents, EnumeratedStarts(|contents|, 0.0, 32.0), 32.0);
    SlotPagesHideShiftedPages(ExampleNotes, 0.0, 32.0, 1);
    assert slotLists[1] == [Gap];
    PageSlotsShowPageNotes(contents[0], 0.0, 32.0);
    assert SecondExampleNote !in contents[0];
    var r := SlotPages(contents, 0.0, 32.0, 300.0);
    SlotPagesFillView(contents, 0.0, 32.0, 300.0);
    forall page, sl | page in r && sl in page.slots ensures sl.slot != NoteSlot(SecondExampleNote) {
      var k :| 0 <= k < |r| && r[k] == page;
      assert LaidOut(page, slotLists, 300.0);
      var j :| 0 <= j < |page.slots| && page.slots[j] == sl;
      assert sl.slot in slotLists[page.pageIndex];
    }
  }

  /** Laid out from their own starts, the same pages show the second note. */
  lemma ExampleCorrectedShowsSecondNote()
    ensures var r := SlotPagesNumbered(PagedNotes(ExampleNotes, 0.0, 32.0), 0.0, 32.0, 300.0);
      exists page, sl :: page in r && sl in page.slots && sl.slot == NoteSlot(SecondExampleNote)
  {
    ExamplePages();
    var ps := PagedNotes(ExampleNotes, 0.0, 32.0);
    SlotPagesNumberedShowsEveryPage(ExampleNotes, 0.0, 32.0, 300.0);
    var r := SlotPagesNumbered(ps, 0.0, 32.0, 300.0);
    assert ps[1].notes[0] == SecondExampleNote;
    var j :| 0 <= j < |r[1].slots| && r[1].slots[j].slot == NoteSlot(SecondExampleNote);
    assert r[1] in r && r[1].slots[j] in r[1].slots;
  }
}
