/**
 * The parts of a page's document that the scroll, rail and transition
 * scripts read and change: the `[data-section]` elements with their
 * offsets, the children of the container holding the `.section-nav-button`
 * elements, the `.page-transition-overlay` elements, and anchors.
 */
module Dom {
  import opened Wrappers

  /** A `[data-section]` element: its `data-section` value and its `offsetTop`. */
  datatype SectionBox = SectionBox(id: string, offsetTop: real)

  /**
   * A child of the navigation rail's container: whether it carries the
   * `section-nav-button` class, its `data-target` and whether it carries `active`.
   */
  datatype RailNode = RailNode(isButton: bool, target: string, active: bool)

  /**
   * An anchor element: `href` is the resolved URL (the `href` property),
   * `hrefAttribute` the attribute as written, `target` and `hostname` its
   * properties, `classes` its class list.
   */
  datatype Anchor = Anchor(href: string, hrefAttribute: string, target: string,
                           hostname: string, classes: set<string>)

  /** `document.querySelector('[data-section="id"]')` finds an element. */
  predicate HasSection(sections: seq<SectionBox>, id: string)
  {
    exists i :: 0 <= i < |sections| && sections[i].id == id
  }

  /** The first `[data-section="id"]` element in document order, if any. */
  function FirstSection(sections: seq<SectionBox>, id: string): (r: Option<nat>)
    ensures r.None? <==> !HasSection(sections, id)
    ensures r.Some? ==> r.value < |sections| && sections[r.value].id == id
    ensures r.Some? ==> forall j :: 0 <= j < r.value ==> sections[j].id != id
  {
    if sections == [] then None
    else if sections[0].id == id then Some(0)
    else
      var k := FirstSection(sections[1..], id);
      assert forall j :: 1 <= j < |sections| ==> sections[j] == sections[1..][j - 1];
      if k.None? then None else Some(k.value + 1)
  }

  /** The rail after every nav button is given `active` exactly when its `data-target` is `id`. */
  function Highlighted(rail: seq<RailNode>, id: string): seq<RailNode>
  {
    seq(|rail|, i requires 0 <= i < |rail| =>
      if rail[i].isButton then rail[i].(active := rail[i].target == id) else rail[i])
  }

  /** No two nav buttons share a `data-target`. */
  predicate DistinctTargets(rail: seq<RailNode>)
  {
    forall a, b :: 0 <= a < b < |rail| && rail[a].isButton && rail[b].isButton ==>
      rail[a].target != rail[b].target
  }

  /** When no two nav buttons share a `data-target`, at most one is active after highlighting. */
  lemma HighlightedSingle(rail: seq<RailNode>, id: string, i: int, j: int)
    requires DistinctTargets(rail)
    requires 0 <= i < |rail| && 0 <= j < |rail|
    requires Highlighted(rail, id)[i].isButton && Highlighted(rail, id)[i].active
    requires Highlighted(rail, id)[j].isButton && Highlighted(rail, id)[j].active
    ensures i == j
  {
  }

  /** Highlighting the same id twice is the same as once. */
  lemma HighlightedIdempotent(rail: seq<RailNode>, id: string)
    ensures Highlighted(Highlighted(rail, id), id) == Highlighted(rail, id)
  {
  }

  /** The first child that is an active nav button (`querySelector('.section-nav-button.active')`). */
  function FirstActiveButton(rail: seq<RailNode>): (r: int)
    ensures -1 <= r < |rail|
    ensures r == -1 <==> forall i :: 0 <= i < |rail| ==> !(rail[i].isButton && rail[i].active)
    ensures 0 <= r ==> rail[r].isButton && rail[r].active
    ensures 0 <= r ==> forall j :: 0 <= j < r ==> !(rail[j].isButton && rail[j].active)
  {
    if rail == [] then -1
    else if rail[0].isButton && rail[0].active then 0
    else
      var k := FirstActiveButton(rail[1..]);
      assert forall j :: 1 <= j < |rail| ==> rail[j] == rail[1..][j - 1];
      if k == -1 then -1 else k + 1
  }

  /** The document, as far as these scripts see it. */
  class Page {
    var sections: seq<SectionBox>
    var rail: seq<RailNode>
    /** The `active` class of each `.page-transition-overlay` element, in document order. */
    var overlays: seq<bool>

    constructor (sections: seq<SectionBox>, rail: seq<RailNode>, overlays: seq<bool>)
      ensures this.sections == sections && this.rail == rail && this.overlays == overlays
    {
      this.sections := sections;
      this.rail := rail;
      this.overlays := overlays;
    }
  }

  /**
   * The loop both rail scripts run: `btn.classList.remove('active')` on every
   * nav button, then `add('active')` where `data-target` equals `id`.
   */
  method HighlightButtons(page: Page, id: string)
    modifies page
    ensures page.rail == Highlighted(old(page.rail), id)
    ensures page.sections == old(page.sections) && page.overlays == old(page.overlays)
  {
    var i := 0;
    while i < |page.rail|
      invariant 0 <= i <= |page.rail| == |old(page.rail)|
      invariant page.sections == old(page.sections) && page.overlays == old(page.overlays)
      invariant forall j :: 0 <= j < i ==> page.rail[j] == Highlighted(old(page.rail), id)[j]
      invariant forall j :: i <= j < |page.rail| ==> page.rail[j] == old(page.rail)[j]
    {
      var node := page.rail[i];
      if node.isButton {
        node := node.(active := false);
        if node.target == id {
          node := node.(active := true);
        }
      }
      page.rail := page.rail[i := node];
      i := i + 1;
    }
  }
}
