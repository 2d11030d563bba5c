/**
 * `SmoothScrollManager`: on every scroll it picks the section the reader
 * has reached and highlights the nav button that targets it; on request it
 * scrolls to a section, through Lenis when that library is loaded.
 */
module SmoothScroll {
  import opened Wrappers
  import opened Dom

  /** A section counts as reached once the scroll position is within this many pixels above its top. */
  const ActivationOffset: real := 200.0

  predicate Reached(s: SectionBox, scrollY: real)
  {
    scrollY >= s.offsetTop - ActivationOffset
  }

  /** The index of the last section, in document order, that the scroll position has reached. */
  function LastReached(sections: seq<SectionBox>, scrollY: real): (r: Option<nat>)
    ensures r.None? <==> forall i :: 0 <= i < |sections| ==> !Reached(sections[i], scrollY)
    ensures r.Some? ==> r.value < |sections| && Reached(sections[r.value], scrollY)
    ensures r.Some? ==> forall j :: r.value < j < |sections| ==> !Reached(sections[j], scrollY)
  {
    if sections == [] then None
    else if Reached(sections[|sections| - 1], scrollY) then Some(|sections| - 1)
    else
      var r := LastReached(sections[..|sections| - 1], scrollY);
      assert forall j :: 0 <= j < |sections| - 1 ==> sections[..|sections| - 1][j] == sections[j];
      r
  }

  /** The `data-section` value `updateActiveSection` settles on; "" when no section is reached. */
  function ChosenId(sections: seq<SectionBox>, scrollY: real): string
  {
    match LastReached(sections, scrollY)
    case None => ""
    case Some(i) => sections[i].id
  }

  /** An index, with "no section" ranked before every section. */
  function Rank(o: Option<nat>): int
  {
    if o.None? then -1 else o.value
  }

  /** Scrolling further down never moves the chosen section back up the page. */
  lemma ChosenMonotone(sections: seq<SectionBox>, y1: real, y2: real)
    requires y1 <= y2
    ensures Rank(LastReached(sections, y1)) <= Rank(LastReached(sections, y2))
  {
    var a := LastReached(sections, y1);
    if a.Some? {
      assert Reached(sections[a.value], y2);
    }
  }

  /** The first loop of `updateActiveSection`: `current` ends as the id of the last section reached. */
  method CurrentSection(sections: seq<SectionBox>, scrollY: real) returns (current: string)
    ensures current == ChosenId(sections, scrollY)
  {
    current := "";
    var i := 0;
    while i < |sections|
      invariant 0 <= i <= |sections|
      invariant current == ChosenId(sections[..i], scrollY)
    {
      assert sections[..i + 1][..i] == sections[..i];
      if scrollY >= sections[i].offsetTop - ActivationOffset {
        current := sections[i].id;
      }
      i := i + 1;
    }
    assert sections[..i] == sections;
  }

  /** What `scrollToSection` asks the browser to do. */
  datatype ScrollRequest =
    | NoScroll
    | LenisScroll(section: nat)
    | NativeScroll(section: nat)

  class SmoothScrollManager {
    const page: Page
    /** Whether the Lenis library was loaded, so `this.lenis` is set. */
    const lenis: bool

    constructor (page: Page, lenisLoaded: bool)
      ensures this.page == page && lenis == lenisLoaded
    {
      this.page := page;
      lenis := lenisLoaded;
    }

    /** `updateActiveSection()` at scroll position `scrollY`. */
    method UpdateActiveSection(scrollY: real)
      modifies page
      ensures page.rail == Highlighted(old(page.rail), ChosenId(old(page.sections), scrollY))
      ensures page.sections == old(page.sections) && page.overlays == old(page.overlays)
    {
      var current := CurrentSection(page.sections, scrollY);
      HighlightButtons(page, current);
    }

    /** `scrollToSection(id)`: nothing happens when no section carries that id. */
    method ScrollToSection(id: string) returns (request: ScrollRequest)
      ensures request.NoScroll? <==> !HasSection(page.sections, id)
      ensures request.LenisScroll? ==> lenis && FirstSection(page.sections, id) == Some(request.section)
      ensures request.NativeScroll? ==> !lenis && FirstSection(page.sections, id) == Some(request.section)
    {
      var section := FirstSection(page.sections, id);
      if section.None? {
        request := NoScroll;
      } else if lenis {
        request := LenisScroll(section.value);
      } else {
        request := NativeScroll(section.value);
      }
    }
  }
}
