/** Whistly/Managers/ScrollManager.swift: the last note the notation view scrolled to, and a
    counter the view watches to scroll back to the start. */
module ScrollManager {
  import opened Wrappers
  import opened Notes
  import opened Seqs

  /** The manager's two fields as a value. */
  datatype ScrollState = ScrollState(lastScrolledNoteId: Option<Uuid>, scrollToStartTrigger: int)

  /** The three calls the manager offers. */
  datatype ScrollCall = Reset | SetLastScrolledNoteId(id: Option<Uuid>) | ScrollToStart

  /** The state a fresh manager starts in. */
  const InitialScrollState := ScrollState(None, 0)

  /** The effect of one call. */
  function ApplyScrollCall(s: ScrollState, c: ScrollCall): ScrollState {
    match c
    case Reset => s.(lastScrolledNoteId := None)
    case SetLastScrolledNoteId(id) => s.(lastScrolledNoteId := id)
    case ScrollToStart => ScrollState(None, s.scrollToStartTrigger + 1)
  }

  /** The state after a run of calls, from the first to the last. */
  function ApplyScrollCalls(s: ScrollState, calls: seq<ScrollCall>): ScrollState
    decreases |calls|
  {
    if calls == [] then s else ApplyScrollCalls(ApplyScrollCall(s, calls[0]), calls[1..])
  }

  predicate IsScrollToStart(c: ScrollCall) {
    c.ScrollToStart?
  }

  /** The trigger counts the `scrollToStart` calls, so it never goes down; the last id is the
      one the last call touching it left. */
  lemma {:induction false} TriggerCountsScrollsToStart(s: ScrollState, calls: seq<ScrollCall>)
    ensures ApplyScrollCalls(s, calls).scrollToStartTrigger
      == s.scrollToStartTrigger + |Filter(IsScrollToStart, calls)|
    ensures ApplyScrollCalls(s, calls).scrollToStartTrigger >= s.scrollToStartTrigger
    decreases |calls|
  {
    if calls != [] {
      TriggerCountsScrollsToStart(ApplyScrollCall(s, calls[0]), calls[1..]);
      assert calls == [calls[0]] + calls[1..];
      FilterAppend(IsScrollToStart, [calls[0]], calls[1..]);
    }
  }

  /** After a `scrollToStart` or a `reset` no note is remembered until an id is set; after
      setting an id, that id is remembered. */
  lemma LastCallDecidesId(s: ScrollState, calls: seq<ScrollCall>, last: ScrollCall)
    ensures var after := ApplyScrollCalls(s, calls + [last]);
      (last.SetLastScrolledNoteId? ==> after.lastScrolledNoteId == last.id)
      && (!last.SetLastScrolledNoteId? ==> after.lastScrolledNoteId.None?)
  {
    ApplyScrollCallsAppend(s, calls, last);
  }

  lemma {:induction false} ApplyScrollCallsAppend(s: ScrollState, calls: seq<ScrollCall>, last: ScrollCall)
    ensures ApplyScrollCalls(s, calls + [last]) == ApplyScrollCall(ApplyScrollCalls(s, calls), last)
    decreases |calls|
  {
    if calls == [] {
      assert calls + [last] == [last];
      assert [last][1..] == [];
    } else {
      assert (calls + [last])[0] == calls[0];
      assert (calls + [last])[1..] == calls[1..] + [last];
      ApplyScrollCallsAppend(ApplyScrollCall(s, calls[0]), calls[1..], last);
    }
  }

  class ScrollManager {
    var lastScrolledNoteId: Option<Uuid>
    var scrollToStartTrigger: int

    constructor()
      ensures State() == InitialScrollState
    {
      lastScrolledNoteId := None;
      scrollToStartTrigger := 0;
    }

    function State(): ScrollState
      reads this
    {
      ScrollState(lastScrolledNoteId, scrollToStartTrigger)
    }

    /** Forgets the last note; the trigger is left alone. */
    method Reset()
      modifies this
      ensures State() == ApplyScrollCall(old(State()), ScrollCall.Reset)
      ensures lastScrolledNoteId.None? && scrollToStartTrigger == old(scrollToStartTrigger)
    {
      lastScrolledNoteId := None;
    }

    /** Remembers `id`; nothing else changes. */
    method SetLastScrolledNoteId(id: Option<Uuid>)
      modifies this
      ensures State() == ApplyScrollCall(old(State()), ScrollCall.SetLastScrolledNoteId(id))
      ensures lastScrolledNoteId == id && scrollToStartTrigger == old(scrollToStartTrigger)
    {
      lastScrolledNoteId := id;
    }

    /** Forgets the last note (by `reset`) and bumps the trigger by one. */
    method ScrollToStart()
      modifies this
      ensures State() == ApplyScrollCall(old(State()), ScrollCall.ScrollToStart)
      ensures lastScrolledNoteId.None? && scrollToStartTrigger == old(scrollToStartTrigger) + 1
    {
      Reset();
      scrollToStartTrigger := scrollToStartTrigger + 1;
    }
  }
}
