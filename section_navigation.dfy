/**
 * `SectionNavigationManager`: the page's nav buttons (`data-target`) scroll
 * to their section and become the active one; ArrowDown and ArrowUp click
 * the sibling after or before the active button.
 */
module SectionRail {
  import opened Wrappers
  import opened Dom
  import opened SmoothScroll

  /** The sibling `navigateNext` (`step == 1`) or `navigatePrevious` (`step == -1`) clicks, if any. */
  function Sibling(rail: seq<RailNode>, step: int): (r: Option<nat>)
    ensures r.Some? ==> r.value < |rail| && rail[r.value].isButton
    ensures r.Some? ==> 0 <= FirstActiveButton(rail) && r.value == FirstActiveButton(rail) + step
    ensures r.None? <==> FirstActiveButton(rail) < 0 || !(0 <= FirstActiveButton(rail) + step < |rail|)
                         || !rail[FirstActiveButton(rail) + step].isButton
  {
    var k := FirstActiveButton(rail);
    if k < 0 || k + step < 0 || k + step >= |rail| || !rail[k + step].isButton then None
    else Some(k + step)
  }

  /** The rail once that sibling has been clicked; unchanged when there is none or its section is missing. */
  function StepRail(rail: seq<RailNode>, sections: seq<SectionBox>, step: int): seq<RailNode>
  {
    match Sibling(rail, step)
    case None => rail
    case Some(k) =>
      var id := rail[k].target;
      if HasSection(sections, id) then Highlighted(rail, id) else rail
  }

  /** Without an active button, or when its neighbour is not a nav button, a step changes nothing. */
  lemma StepWithoutSiblingKeepsRail(rail: seq<RailNode>, sections: seq<SectionBox>, step: int)
    requires FirstActiveButton(rail) < 0 || !(0 <= FirstActiveButton(rail) + step < |rail|)
             || !rail[FirstActiveButton(rail) + step].isButton
    ensures StepRail(rail, sections, step) == rail
  {
  }

  /** A sibling whose section is missing leaves the rail as it was, too. */
  lemma StepToMissingSectionKeepsRail(rail: seq<RailNode>, sections: seq<SectionBox>, step: int)
    requires Sibling(rail, step).Some? && !HasSection(sections, rail[Sibling(rail, step).value].target)
    ensures StepRail(rail, sections, step) == rail
  {
  }

  /**
   * With distinct targets, a step whose section exists moves the active
   * marker to exactly that sibling.
   */
  lemma StepMovesActive(rail: seq<RailNode>, sections: seq<SectionBox>, step: int)
    requires DistinctTargets(rail)
    requires Sibling(rail, step).Some? && HasSection(sections, rail[Sibling(rail, step).value].target)
    ensures FirstActiveButton(StepRail(rail, sections, step)) == Sibling(rail, step).value
  {
    var k := Sibling(rail, step).value;
    var after := StepRail(rail, sections, step);
    assert after == Highlighted(rail, rail[k].target);
    assert after[k].isButton && after[k].active;
    assert forall j :: 0 <= j < k ==> !(after[j].isButton && after[j].active) by {
      forall j | 0 <= j < k
        ensures !(after[j].isButton && after[j].active)
      {
        if rail[j].isButton {
          assert rail[j].target != rail[k].target;
        }
      }
    }
  }

  class SectionNavigationManager {
    const page: Page

    constructor (page: Page)
      ensures this.page == page
    {
      this.page := page;
    }

    /** `updateActiveButton(id)` */
    method UpdateActiveButton(id: string)
      modifies page
      ensures page.rail == Highlighted(old(page.rail), id)
      ensures page.sections == old(page.sections) && page.overlays == old(page.overlays)
    {
      HighlightButtons(page, id);
    }

    /**
     * `navigateToSection(id)`, with `scrollManager` standing for
     * `window.scrollManager`: when a section carries that id it is scrolled
     * to, through the manager's `scrollToSection` when there is one and by
     * `scrollIntoView` otherwise, and its button is highlighted; otherwise
     * nothing changes.
     */
    method NavigateToSection(id: string, scrollManager: Option<SmoothScrollManager>) returns (request: ScrollRequest)
      requires scrollManager.Some? ==> scrollManager.value.page == page
      modifies page
      ensures request.NoScroll? <==> !HasSection(old(page.sections), id)
      ensures request.LenisScroll? ==>
        scrollManager.Some? && scrollManager.value.lenis && FirstSection(old(page.sections), id) == Some(request.section)
      ensures request.NativeScroll? ==>
        (scrollManager.None? || !scrollManager.value.lenis) && FirstSection(old(page.sections), id) == Some(request.section)
      ensures page.rail == if request.NoScroll? then old(page.rail) else Highlighted(old(page.rail), id)
      ensures page.sections == old(page.sections) && page.overlays == old(page.overlays)
    {
      var section := FirstSection(page.sections, id);
      if section.None? {
        request := NoScroll;
        return;
      }
      if scrollManager.Some? {
        request := scrollManager.value.ScrollToSection(id);
      } else {
        request := NativeScroll(section.value);
      }
      UpdateActiveButton(id);
    }

    /** The click handler of the nav button at position `k` of the rail. */
    method ClickButton(k: nat, scrollManager: Option<SmoothScrollManager>) returns (request: ScrollRequest)
      requires k < |page.rail| && page.rail[k].isButton
      requires scrollManager.Some? ==> scrollManager.value.page == page
      modifies page
      ensures var id := old(page.rail)[k].target;
        (request.NoScroll? <==> !HasSection(old(page.sections), id))
        && (!request.NoScroll? ==> FirstSection(old(page.sections), id) == Some(request.section))
        && page.rail == if request.NoScroll? then old(page.rail) else Highlighted(old(page.rail), id)
      ensures page.sections == old(page.sections) && page.overlays == old(page.overlays)
    {
      var target := page.rail[k].target;
      request := NavigateToSection(target, scrollManager);
    }

    /** `navigateNext()`: clicks the next sibling when it is a nav button. */
    method NavigateNext(scrollManager: Option<SmoothScrollManager>) returns (request: ScrollRequest)
      requires scrollManager.Some? ==> scrollManager.value.page == page
      modifies page
      ensures page.rail == old(StepRail(page.rail, page.sections, 1))
      ensures Sibling(old(page.rail), 1).None? ==> request == NoScroll
      ensures Sibling(old(page.rail), 1).Some? ==>
        (request.NoScroll? <==> !HasSection(old(page.sections), old(page.rail)[Sibling(old(page.rail), 1).value].target))
      ensures page.sections == old(page.sections) && page.overlays == old(page.overlays)
    {
      request := NoScroll;
      var current := FirstActiveButton(page.rail);
      if current >= 0 && current + 1 < |page.rail| && page.rail[current + 1].isButton {
        request := ClickButton(current + 1, scrollManager);
      }
    }

    /** `navigatePrevious()`: clicks the previous sibling when it is a nav button. */
    method NavigatePrevious(scrollManager: Option<SmoothScrollManager>) returns (request: ScrollRequest)
      requires scrollManager.Some? ==> scrollManager.value.page == page
      modifies page
      ensures page.rail == old(StepRail(page.rail, page.sections, -1))
      ensures Sibling(old(page.rail), -1).None? ==> request == NoScroll
      ensures Sibling(old(page.rail), -1).Some? ==>
        (request.NoScroll? <==> !HasSection(old(page.sections), old(page.rail)[Sibling(old(page.rail), -1).value].target))
      ensures page.sections == old(page.sections) && page.overlays == old(page.overlays)
    {
      request := NoScroll;
      var current := FirstActiveButton(page.rail);
      if current >= 1 && current - 1 < |page.rail| && page.rail[current - 1].isButton {
        request := ClickButton(current - 1, scrollManager);
      }
    }

    /** The `keydown` listener: ArrowDown goes forward, ArrowUp back, other keys do nothing. */
    method OnKeyDown(key: string, scrollManager: Option<SmoothScrollManager>) returns (request: ScrollRequest)
      requires scrollManager.Some? ==> scrollManager.value.page == page
      modifies page
      ensures page.rail == if key == "ArrowDown" then old(StepRail(page.rail, page.sections, 1))
                           else if key == "ArrowUp" then old(StepRail(page.rail, page.sections, -1))
                           else old(page.rail)
      ensures key != "ArrowDown" && key != "ArrowUp" ==> request == NoScroll
      ensures page.sections == old(page.sections) && page.overlays == old(page.overlays)
    {
      request := NoScroll;
      if key == "ArrowDown" {
        request := NavigateNext(scrollManager);
      } else if key == "ArrowUp" {
        request := NavigatePrevious(scrollManager);
      }
    }
  }
}
