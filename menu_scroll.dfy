/** The scroll-direction rule of the navigation shell: a scroll event either
    shows the top navigation bar, hides it, or leaves it alone, and the shell
    always remembers the offset it last saw. */
module MenuScroll {

  /** What the shell keeps between scroll events: whether the bar is shown and
      the page offset seen at the previous event. */
  datatype ScrollState = ScrollState(showMenu: bool, prevOffset: int)

  /** The three values the handler reads from the page when an event arrives:
      the vertical page offset, the body's client height and the viewport's
      inner height. */
  datatype ScrollEvent = ScrollEvent(current: int, bodyHeight: int, innerHeight: int)

  /** The page is scrolled to its very top. */
  predicate AtTop(e: ScrollEvent) {
    e.current == 0
  }

  /** The viewport's lower edge sits exactly on the body's lower edge. */
  predicate AtBottom(e: ScrollEvent) {
    e.bodyHeight == e.current + e.innerHeight
  }

  /** One delivered scroll event. The top of the page always shows the bar;
      the exact bottom leaves it as it was (to ignore layout shift there);
      anywhere else scrolling up shows it and anything else hides it. */
  function Step(s: ScrollState, e: ScrollEvent): (r: ScrollState)
    ensures r.prevOffset == e.current
    ensures AtTop(e) ==> r.showMenu
    ensures !AtTop(e) && AtBottom(e) ==> r.showMenu == s.showMenu
    ensures !AtTop(e) && !AtBottom(e) ==> (r.showMenu <==> e.current < s.prevOffset)
  {
    var show :=
      if AtTop(e) then true
      else if !AtBottom(e) then e.current < s.prevOffset
      else s.showMenu;
    ScrollState(show, e.current)
  }

  /** The state after the events are delivered one by one, oldest first. */
  function Run(s: ScrollState, evs: seq<ScrollEvent>): ScrollState
    decreases |evs|
  {
    if evs == [] then s else Run(Step(s, evs[0]), evs[1..])
  }

  /** The remembered offset after a run: that of the newest event, or the
      initial one when nothing happened. */
  function LastOffset(s: ScrollState, evs: seq<ScrollEvent>): int {
    if evs == [] then s.prevOffset else evs[|evs| - 1].current
  }

  /** Whether the bar is shown after a run, read from the newest event
      backwards: a top event shows it, a bottom event defers to the events
      before it, any other event compares its offset with its predecessor's. */
  function ShownAfter(s: ScrollState, evs: seq<ScrollEvent>): bool
    decreases |evs|
  {
    if evs == [] then s.showMenu
    else
      var last, before := evs[|evs| - 1], evs[..|evs| - 1];
      if AtTop(last) then true
      else if AtBottom(last) then ShownAfter(s, before)
      else last.current < LastOffset(s, before)
  }

  /** Delivering two batches in turn is delivering their concatenation. */
  lemma {:induction false} RunConcat(s: ScrollState, a: seq<ScrollEvent>, b: seq<ScrollEvent>)
    ensures Run(s, a + b) == Run(Run(s, a), b)
    decreases |a|
  {
    if a != [] {
      assert (a + b)[0] == a[0];
      assert (a + b)[1..] == a[1..] + b;
      RunConcat(Step(s, a[0]), a[1..], b);
    } else {
      assert a + b == b;
    }
  }

  /** A run ends in the state that the backward reading predicts. */
  lemma {:induction false} RunMatchesShownAfter(s: ScrollState, evs: seq<ScrollEvent>)
    ensures Run(s, evs) == ScrollState(ShownAfter(s, evs), LastOffset(s, evs))
    decreases |evs|
  {
    if evs != [] {
      var before, last := evs[..|evs| - 1], evs[|evs| - 1];
      assert evs == before + [last];
      RunConcat(s, before, [last]);
      RunMatchesShownAfter(s, before);
      assert Run(Run(s, before), [last]) == Step(Run(s, before), last);
    }
  }

  /** However long the run, the shell remembers the newest event's offset. */
  lemma RunRemembersLastOffset(s: ScrollState, evs: seq<ScrollEvent>)
    requires evs != []
    ensures Run(s, evs).prevOffset == evs[|evs| - 1].current
  {
    RunMatchesShownAfter(s, evs);
  }

  /** A run that ends at the top of the page ends with the bar shown. */
  lemma RunEndingAtTopShows(s: ScrollState, evs: seq<ScrollEvent>)
    requires evs != [] && AtTop(evs[|evs| - 1])
    ensures Run(s, evs).showMenu
  {
    RunMatchesShownAfter(s, evs);
  }

  /** Events that all land on the bottom of the page (and not on its top)
      never change whether the bar is shown. */
  lemma {:induction false} BottomEventsKeepVisibility(s: ScrollState, evs: seq<ScrollEvent>)
    requires forall i :: 0 <= i < |evs| ==> !AtTop(evs[i]) && AtBottom(evs[i])
    ensures Run(s, evs).showMenu == s.showMenu
    decreases |evs|
  {
    if evs != [] {
      BottomEventsKeepVisibility(Step(s, evs[0]), evs[1..]);
    }
  }

  /** Scrolling steadily down through the middle of the page (each offset at
      least the previous one) hides the bar, whatever it was before. */
  lemma {:induction false} SteadyDescentHides(s: ScrollState, evs: seq<ScrollEvent>)
    requires evs != []
    requires forall i :: 0 <= i < |evs| ==> !AtTop(evs[i]) && !AtBottom(evs[i])
    requires s.prevOffset <= evs[0].current
    requires forall i :: 0 < i < |evs| ==> evs[i - 1].current <= evs[i].current
    ensures !Run(s, evs).showMenu
  {
    RunMatchesShownAfter(s, evs);
    var n := |evs|;
    assert evs[..n - 1] == [] || LastOffset(s, evs[..n - 1]) == evs[n - 2].current;
  }

  /** The same event delivered twice in a row, away from the top and the
      bottom, hides the bar: an unchanged offset counts as scrolling down. */
  lemma RepeatedEventHides(s: ScrollState, e: ScrollEvent)
    requires !AtTop(e) && !AtBottom(e)
    ensures !Run(s, [e, e]).showMenu
  {
    var t := Step(s, e);
    assert Run(s, [e, e]) == Run(t, [e]) by { assert [e, e][1..] == [e]; }
    assert Run(t, [e]) == Step(t, e) by { assert [e][1..] == []; }
  }

  /** A move up in the middle of the page shows the bar, and a following
      downward or level move in the middle of the page hides it again. */
  lemma UpThenDownHidesAgain(s: ScrollState, up: ScrollEvent, down: ScrollEvent)
    requires !AtTop(up) && !AtBottom(up) && up.current < s.prevOffset
    requires !AtTop(down) && !AtBottom(down) && up.current <= down.current
    ensures Step(s, up).showMenu
    ensures !Run(s, [up, down]).showMenu
  {
    var t := Step(s, up);
    assert Run(s, [up, down]) == Run(t, [down]) by { assert [up, down][1..] == [down]; }
    assert Run(t, [down]) == Step(t, down) by { assert [down][1..] == []; }
  }
}
