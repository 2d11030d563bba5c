/**
 * `SectionNavigation`: the numbered side rail. It records the page's
 * `[data-section]` elements in document order, builds one zero-padded
 * button per section, and tracks the active section as an index that the
 * arrow keys move one step forward or back, sticking at both ends.
 */
module Navigation {
  import opened Wrappers
  import opened Strings

  /** A `[data-section]` element: its `data-section` value and its `data-section-label` attribute, if any. */
  datatype SectionElement = SectionElement(id: string, labelAttribute: Option<string>)

  /** An entry of `this.sections`; the element itself is identified by `index`. */
  datatype Section = Section(id: string, labelText: string, index: nat)

  /**
   * One `.section-nav-item` with its `.section-nav-button`: the button's
   * `data-section-id`, `aria-label`, `title` and text, and whether the
   * button and the list item carry `active`.
   */
  datatype NavItem = NavItem(sectionId: string, ariaLabel: string, title: string, text: string,
                             buttonActive: bool, itemActive: bool)

  /**
   * What `navigateToSection` asks of the page: nothing, a smooth scroll to
   * a section with an offset, or the native `scrollIntoView` of a section.
   */
  datatype ScrollRequest = NoScroll | SmoothScrollTo(section: nat, offset: int) | ScrollIntoView(section: nat)

  /** The offset handed to the smooth scroller, for the fixed header. */
  const HeaderOffset: int := -80

  /** The label a section without a (non-empty) `data-section-label` gets. */
  function DefaultLabel(index: nat): string
  {
    "Section " + Decimal(index + 1)
  }

  /** A default label reads "Section " followed by the one-based position. */
  lemma DefaultLabelNumbers(index: nat)
    ensures StartsWith(DefaultLabel(index), "Section ")
    ensures AllDigits(DefaultLabel(index)[8..]) && ParseDigits(DefaultLabel(index)[8..]) == index + 1
  {
    assert DefaultLabel(index)[8..] == Decimal(index + 1);
    DecimalRoundTrip(index + 1);
  }

  /** `getAttribute('data-section-label') || \`Section ${index + 1}\`` */
  function LabelFor(e: SectionElement, index: nat): (r: string)
    ensures r != ""
    ensures e.labelAttribute.Some? && e.labelAttribute.value != "" ==> r == e.labelAttribute.value
    ensures e.labelAttribute.None? || e.labelAttribute.value == "" ==> StartsWith(r, "Section ")
  {
    if e.labelAttribute.Some? && e.labelAttribute.value != "" then e.labelAttribute.value else DefaultLabel(index)
  }

  /** The button text: the one-based position, padded with '0' to at least two characters. */
  function NavText(index: nat): (r: string)
    ensures |r| >= 2 && AllDigits(r)
    ensures ParseDigits(r) == index + 1
    ensures index + 1 < 10 ==> r[0] == '0'
    ensures index + 1 >= 10 ==> r[0] != '0'
  {
    var r := PadStart(Decimal(index + 1), 2, '0');
    DecimalRoundTrip(index + 1);
    LeadingZeroIgnored(Decimal(index + 1));
    assert index + 1 < 10 ==> r == "0" + Decimal(index + 1);
    assert index + 1 >= 10 ==> r == Decimal(index + 1);
    r
  }

  /** The records `init` pushes, one per element, in document order. */
  function SectionsOf(elements: seq<SectionElement>): (r: seq<Section>)
    ensures |r| == |elements|
    ensures forall i :: 0 <= i < |r| ==> r[i].index == i && r[i].id == elements[i].id && r[i].labelText != ""
  {
    seq(|elements|, i requires 0 <= i < |elements| =>
      Section(elements[i].id, LabelFor(elements[i], i), i))
  }

  /** The rail `createNavigation` builds for those records. */
  function NavItemsOf(sections: seq<Section>): (r: seq<NavItem>)
    ensures |r| == |sections|
    ensures forall i :: 0 <= i < |r| ==> r[i].sectionId == sections[i].id
  {
    seq(|sections|, i requires 0 <= i < |sections| =>
      NavItem(sections[i].id, "Navigate to " + sections[i].labelText, sections[i].labelText, NavText(i), false, i == 0))
  }

  /**
   * Item `i` is titled with its section's label, is read as the number
   * `i + 1`, and only the first item starts out active.
   */
  lemma NavItemsOfProperties(sections: seq<Section>, i: nat)
    requires i < |sections|
    ensures var r := NavItemsOf(sections)[i];
      r.title == sections[i].labelText && r.ariaLabel == "Navigate to " + sections[i].labelText
      && AllDigits(r.text) && ParseDigits(r.text) == i + 1
      && (r.itemActive <==> i == 0) && !r.buttonActive
  {
  }

  /** No two sections share an id. */
  predicate DistinctIds(sections: seq<Section>)
  {
    forall a, b :: 0 <= a < b < |sections| ==> sections[a].id != sections[b].id
  }

  /** The rail lists the sections' ids in the sections' order. */
  predicate ParallelTo(items: seq<NavItem>, sections: seq<Section>)
  {
    |items| == |sections| && forall i :: 0 <= i < |items| ==> items[i].sectionId == sections[i].id
  }

  /** `this.sections.findIndex(s => s.id === id)`; `find` picks the same record. */
  function IndexOf(sections: seq<Section>, id: string): (r: int)
    ensures -1 <= r < |sections|
    ensures r == -1 <==> forall i :: 0 <= i < |sections| ==> sections[i].id != id
    ensures 0 <= r ==> sections[r].id == id && forall j :: 0 <= j < r ==> sections[j].id != id
  {
    if sections == [] then -1
    else if sections[0].id == id then 0
    else
      var k := IndexOf(sections[1..], id);
      assert forall j :: 1 <= j < |sections| ==> sections[j] == sections[1..][j - 1];
      if k == -1 then -1 else k + 1
  }

  /** With distinct ids, looking up the id of the section at `k` finds `k`. */
  lemma IndexOfDistinct(sections: seq<Section>, k: nat)
    requires DistinctIds(sections) && k < |sections|
    ensures IndexOf(sections, sections[k].id) == k
  {
  }

  /** Both `active` classes set exactly on the items whose `data-section-id` is `id`. */
  function Marked(items: seq<NavItem>, id: string): (r: seq<NavItem>)
    ensures |r| == |items|
    ensures forall i :: 0 <= i < |r| ==>
      r[i].buttonActive == (items[i].sectionId == id) && r[i].itemActive == (items[i].sectionId == id)
      && r[i].(buttonActive := false, itemActive := false) == items[i].(buttonActive := false, itemActive := false)
  {
    seq(|items|, i requires 0 <= i < |items| =>
      items[i].(buttonActive := items[i].sectionId == id, itemActive := items[i].sectionId == id))
  }

  /**
   * With distinct ids, after marking a known id exactly the item of the
   * section `findIndex` returns is active, button and item alike.
   */
  lemma MarkedSelectsIndex(items: seq<NavItem>, sections: seq<Section>, id: string)
    requires ParallelTo(items, sections) && DistinctIds(sections) && IndexOf(sections, id) >= 0
    ensures forall j :: 0 <= j < |items| ==>
      (Marked(items, id)[j].buttonActive <==> j == IndexOf(sections, id))
      && (Marked(items, id)[j].itemActive <==> j == IndexOf(sections, id))
  {
  }

  /** Marking an id no section carries leaves no item active. */
  lemma MarkedUnknownClearsAll(items: seq<NavItem>, sections: seq<Section>, id: string)
    requires ParallelTo(items, sections) && IndexOf(sections, id) == -1
    ensures forall j :: 0 <= j < |items| ==> !Marked(items, id)[j].buttonActive && !Marked(items, id)[j].itemActive
  {
    forall j | 0 <= j < |items|
      ensures items[j].sectionId != id
    {
      assert sections[j].id != id;
    }
  }

  /** `Math.min(current + 1, length - 1)` */
  function NextIndex(current: int, length: nat): (r: int)
    ensures 0 <= current < length ==> 0 <= r < length
    ensures 0 <= current < length ==> (r == current + 1 || (r == current && current == length - 1))
  {
    if current + 1 < length - 1 then current + 1 else length - 1
  }

  /** `Math.max(current - 1, 0)` */
  function PreviousIndex(current: int): (r: int)
    ensures 0 <= r
    ensures 0 <= current ==> (r == current - 1 || (r == current && current == 0))
  {
    if current - 1 > 0 then current - 1 else 0
  }

  /** Off the last section, a step forward and a step back return to where they started. */
  lemma NextThenPrevious(current: int, length: nat)
    requires 0 <= current < length - 1
    ensures PreviousIndex(NextIndex(current, length)) == current
  {
  }

  /** Off the first section, a step back and a step forward return to where they started. */
  lemma PreviousThenNext(current: int, length: nat)
    requires 0 < current < length
    ensures NextIndex(PreviousIndex(current), length) == current
  {
  }

  class SectionNavigation {
    var sections: seq<Section>
    var currentActiveSection: int
    /** The rail's items; empty when no rail was built. */
    var items: seq<NavItem>

    /** The rail mirrors the sections and the active index is a position of the list (0 for an empty list). */
    predicate Valid()
      reads this
    {
      ParallelTo(items, sections)
      && (forall i :: 0 <= i < |sections| ==> sections[i].index == i)
      && 0 <= currentActiveSection
      && (currentActiveSection < |sections| || currentActiveSection == 0)
    }

    /**
     * `new SectionNavigation()`: nothing is built when the page has no
     * `[data-section]` element; otherwise the sections are recorded and
     * the rail is built with only the first item marked.
     */
    constructor (elements: seq<SectionElement>)
      ensures sections == SectionsOf(elements)
      ensures items == NavItemsOf(sections)
      ensures currentActiveSection == 0
      ensures Valid()
    {
      var recorded: seq<Section> := [];
      var rail: seq<NavItem> := [];
      if |elements| > 0 {
        recorded := CollectSections(elements);
        rail := CreateNavigation(recorded);
      }
      sections := recorded;
      currentActiveSection := 0;
      items := rail;
    }

    /** The loop of `init` recording each `[data-section]` element with its label and position. */
    static method CollectSections(elements: seq<SectionElement>) returns (recorded: seq<Section>)
      ensures recorded == SectionsOf(elements)
    {
      recorded := [];
      var i := 0;
      while i < |elements|
        invariant 0 <= i <= |elements|
        invariant recorded == SectionsOf(elements)[..i]
      {
        recorded := recorded + [Section(elements[i].id, LabelFor(elements[i], i), i)];
        i := i + 1;
      }
    }

    /** `createNavigation()`: one item per recorded section, the first one marked active. */
    static method CreateNavigation(recorded: seq<Section>) returns (rail: seq<NavItem>)
      ensures rail == NavItemsOf(recorded)
    {
      rail := [];
      var j := 0;
      while j < |recorded|
        invariant 0 <= j <= |recorded|
        invariant |rail| == j
        invariant forall k :: 0 <= k < j ==> rail[k] == NavItemsOf(recorded)[k]
      {
        var caption := recorded[j].labelText;
        var item := NavItem(recorded[j].id, "Navigate to " + caption, caption, NavText(j), false, j == 0);
        assert item == NavItemsOf(recorded)[j];
        rail := rail + [item];
        j := j + 1;
      }
    }

    /** `getCurrentSection()`; `None` stands for `undefined`. */
    function CurrentSection(): (r: Option<Section>)
      reads this
      ensures Valid() && sections != [] ==> r.Some?
      ensures r.Some? ==> r.value in sections
      ensures 0 <= currentActiveSection < |sections| ==> r == Some(sections[currentActiveSection])
      ensures !(0 <= currentActiveSection < |sections|) ==> r.None?
    {
      if 0 <= currentActiveSection < |sections| then Some(sections[currentActiveSection]) else None
    }

    /**
     * `setActiveSection(id)`: every item is marked by whether it belongs
     * to `id`, and the index moves to the first section with that id, if any.
     */
    method SetActiveSection(id: string)
      requires Valid()
      modifies this
      ensures Valid()
      ensures sections == old(sections)
      ensures items == Marked(old(items), id)
      ensures currentActiveSection ==
        if IndexOf(sections, id) >= 0 then IndexOf(sections, id) else old(currentActiveSection)
    {
      var i := 0;
      while i < |items|
        invariant 0 <= i <= |items| == |old(items)|
        invariant sections == old(sections) && currentActiveSection == old(currentActiveSection)
        invariant forall j :: 0 <= j < i ==> items[j] == Marked(old(items), id)[j]
        invariant forall j :: i <= j < |items| ==> items[j] == old(items)[j]
      {
        var on := items[i].sectionId == id;
        items := items[i := items[i].(buttonActive := on, itemActive := on)];
        i := i + 1;
      }
      var sectionIndex := IndexOf(sections, id);
      if sectionIndex >= 0 {
        currentActiveSection := sectionIndex;
      }
    }

    /**
     * `navigateToSection(id)`: an unknown id changes nothing; otherwise the
     * section is scrolled to (smoothly with the header offset when the smooth
     * scroller is loaded) and becomes the active one.
     */
    method NavigateToSection(id: string, smoothScrollLoaded: bool) returns (request: ScrollRequest)
      requires Valid()
      modifies this
      ensures Valid()
      ensures sections == old(sections)
      ensures request.NoScroll? <==> IndexOf(sections, id) < 0
      ensures request.NoScroll? ==> items == old(items) && currentActiveSection == old(currentActiveSection)
      ensures !request.NoScroll? ==>
        request == (if smoothScrollLoaded then SmoothScrollTo(IndexOf(sections, id), HeaderOffset)
                    else ScrollIntoView(IndexOf(sections, id)))
        && items == Marked(old(items), id) && currentActiveSection == IndexOf(sections, id)
    {
      var found := IndexOf(sections, id);
      if found < 0 {
        return NoScroll;
      }
      if smoothScrollLoaded {
        request := SmoothScrollTo(found, HeaderOffset);
      } else {
        request := ScrollIntoView(found);
      }
      SetActiveSection(id);
    }

    /**
     * `nextSection()`: navigate to the section after the active one, or to
     * the last one again; with no sections nothing happens.
     */
    method NextSection(smoothScrollLoaded: bool) returns (request: ScrollRequest)
      requires Valid()
      modifies this
      ensures Valid()
      ensures sections == old(sections)
      ensures sections == [] ==> request == NoScroll && items == old(items)
                                 && currentActiveSection == old(currentActiveSection)
      ensures sections != [] ==>
        var target := sections[NextIndex(old(currentActiveSection), |sections|)].id;
        request == (if smoothScrollLoaded then SmoothScrollTo(IndexOf(sections, target), HeaderOffset)
                    else ScrollIntoView(IndexOf(sections, target)))
        && items == Marked(old(items), target)
        && currentActiveSection == IndexOf(sections, target)
      ensures sections != [] && DistinctIds(sections) ==>
        currentActiveSection == NextIndex(old(currentActiveSection), |sections|)
    {
      var nextIndex := NextIndex(currentActiveSection, |sections|);
      if 0 <= nextIndex < |sections| {
        var target := sections[nextIndex].id;
        request := NavigateToSection(target, smoothScrollLoaded);
        if DistinctIds(sections) {
          IndexOfDistinct(sections, nextIndex);
        }
      } else {
        request := NoScroll;
      }
    }

    /**
     * `previousSection()`: navigate to the section before the active one,
     * or to the first one again; with no sections nothing happens.
     */
    method PreviousSection(smoothScrollLoaded: bool) returns (request: ScrollRequest)
      requires Valid()
      modifies this
      ensures Valid()
      ensures sections == old(sections)
      ensures sections == [] ==> request == NoScroll && items == old(items)
                                 && currentActiveSection == old(currentActiveSection)
      ensures sections != [] ==>
        var target := sections[PreviousIndex(old(currentActiveSection))].id;
        request == (if smoothScrollLoaded then SmoothScrollTo(IndexOf(sections, target), HeaderOffset)
                    else ScrollIntoView(IndexOf(sections, target)))
        && items == Marked(old(items), target)
        && currentActiveSection == IndexOf(sections, target)
      ensures sections != [] && DistinctIds(sections) ==>
        currentActiveSection == PreviousIndex(old(currentActiveSection))
    {
      var prevIndex := PreviousIndex(currentActiveSection);
      if 0 <= prevIndex < |sections| {
        var target := sections[prevIndex].id;
        request := NavigateToSection(target, smoothScrollLoaded);
        if DistinctIds(sections) {
          IndexOfDistinct(sections, prevIndex);
        }
      } else {
        request := NoScroll;
      }
    }

    /**
     * The `keydown` listener: ArrowDown and ArrowRight step forward,
     * ArrowUp and ArrowLeft step back, any other key changes nothing.
     */
    method OnKeyDown(key: string, smoothScrollLoaded: bool) returns (request: ScrollRequest)
      requires Valid()
      modifies this
      ensures Valid()
      ensures sections == old(sections)
      ensures key !in {"ArrowDown", "ArrowRight", "ArrowUp", "ArrowLeft"} ==>
        request == NoScroll && items == old(items) && currentActiveSection == old(currentActiveSection)
      ensures sections != [] && DistinctIds(sections) && key in {"ArrowDown", "ArrowRight"} ==>
        currentActiveSection == NextIndex(old(currentActiveSection), |sections|)
      ensures sections != [] && DistinctIds(sections) && key in {"ArrowUp", "ArrowLeft"} ==>
        currentActiveSection == PreviousIndex(old(currentActiveSection))
    {
      if key == "ArrowDown" || key == "ArrowRight" {
        request := NextSection(smoothScrollLoaded);
      } else if key == "ArrowUp" || key == "ArrowLeft" {
        request := PreviousSection(smoothScrollLoaded);
      } else {
        request := NoScroll;
      }
    }
  }
}
