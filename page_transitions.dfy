/**
 * `PageTransitionManager`: keeps a reference to the page's transition
 * overlay (creating one when there is none), turns clicks on same-host
 * relative or `.html` links into a transition (overlay shown, navigation
 * after 300 ms) and hides the overlay again once the page has loaded.
 */
module TransitionManager {
  import opened Wrappers
  import opened Strings
  import opened Dom

  /** The link selector of the click listener, on the `href` attribute. */
  predicate MatchesSelector(a: Anchor)
  {
    StartsWith(a.hrefAttribute, "/") || StartsWith(a.hrefAttribute, "./") || EndsWith(a.hrefAttribute, ".html")
  }

  /**
   * Whether a click whose closest anchor is `link`, on a page served from
   * `hostname`, is turned into a transition: the anchor matches the
   * selector, has no `target` and points to the same host.
   */
  predicate Handles(link: Option<Anchor>, hostname: string)
  {
    link.Some? && MatchesSelector(link.value) && link.value.target == "" && link.value.hostname == hostname
  }

  /** Links to another host pass through, whatever they look like. */
  lemma OtherHostsPassThrough(a: Anchor, hostname: string)
    requires a.hostname != hostname
    ensures !Handles(Some(a), hostname)
  {
  }

  /** Any `target`, `_self` included, lets the click through. */
  lemma TargetedLinksPassThrough(a: Anchor, hostname: string)
    requires a.target != ""
    ensures !Handles(Some(a), hostname)
  {
  }

  /** An in-page anchor that does not end in ".html" is not handled. */
  lemma InPageAnchorsPassThrough(a: Anchor, hostname: string)
    requires StartsWith(a.hrefAttribute, "#") && !EndsWith(a.hrefAttribute, ".html")
    ensures !Handles(Some(a), hostname)
  {
  }

  /** The `active` classes after the overlay at `overlay`, if any, is set to `shown`. */
  function WithOverlay(overlays: seq<bool>, overlay: Option<nat>, shown: bool): (r: seq<bool>)
    requires overlay.Some? ==> overlay.value < |overlays|
    ensures |r| == |overlays|
    ensures overlay.Some? ==> r[overlay.value] == shown
    ensures forall k :: 0 <= k < |r| && overlay != Some(k) ==> r[k] == overlays[k]
  {
    if overlay.Some? then overlays[overlay.value := shown] else overlays
  }

  /** Showing and then hiding the overlay leaves the classes it started from, when it was hidden. */
  lemma ShowThenHideRestores(overlays: seq<bool>, overlay: Option<nat>)
    requires overlay.Some? ==> overlay.value < |overlays| && !overlays[overlay.value]
    ensures WithOverlay(WithOverlay(overlays, overlay, true), overlay, false) == overlays
  {
  }

  class PageTransitionManager {
    const page: Page
    /** `this.overlay`: the position of the first overlay element, or null. */
    var overlay: Option<nat>
    var isTransitioning: bool
    /** The URL `window.location.href` is set to once the 300 ms have passed. */
    var pendingNavigation: Option<string>

    /** `this.overlay` refers to an element of the page. */
    predicate Valid()
      reads this, page
    {
      overlay.Some? ==> overlay.value < |page.overlays|
    }

    /** `new PageTransitionManager()`: the page gets an overlay if it has none, and refers to the first. */
    constructor (page: Page)
      modifies page
      ensures this.page == page && Valid()
      ensures overlay == Some(0)
      ensures page.overlays == if old(page.overlays) == [] then [false] else old(page.overlays)
      ensures page.sections == old(page.sections) && page.rail == old(page.rail)
      ensures !isTransitioning && pendingNavigation.None?
    {
      this.page := page;
      overlay := None;
      isTransitioning := false;
      pendingNavigation := None;
      new;
      InitOverlay();
    }

    /** `initOverlay()` */
    method InitOverlay()
      modifies page, this`overlay
      ensures overlay == Some(0) && Valid()
      ensures page.overlays == if old(page.overlays) == [] then [false] else old(page.overlays)
      ensures page.sections == old(page.sections) && page.rail == old(page.rail)
    {
      if page.overlays == [] {
        page.overlays := page.overlays + [false];
      }
      overlay := Some(0);
    }

    /** The document's click listener. */
    method OnClick(link: Option<Anchor>, hostname: string) returns (prevented: bool)
      requires Valid()
      modifies page, this`isTransitioning, this`pendingNavigation
      ensures prevented == Handles(link, hostname)
      ensures Valid() && page.sections == old(page.sections) && page.rail == old(page.rail)
      ensures prevented && !old(isTransitioning) ==>
        isTransitioning && pendingNavigation == Some(link.value.href)
        && page.overlays == WithOverlay(old(page.overlays), overlay, true)
      ensures !prevented || old(isTransitioning) ==>
        isTransitioning == old(isTransitioning) && pendingNavigation == old(pendingNavigation)
        && page.overlays == old(page.overlays)
    {
      prevented := Handles(link, hostname);
      if prevented {
        TransitionTo(link.value.href);
      }
    }

    /**
     * `transitionTo(url)`: ignored while a transition is under way;
     * otherwise the flag is set, the overlay shown and the navigation to
     * `url` scheduled.
     */
    method TransitionTo(url: string)
      requires Valid()
      modifies page, this`isTransitioning, this`pendingNavigation
      ensures Valid() && page.sections == old(page.sections) && page.rail == old(page.rail)
      ensures old(isTransitioning) ==>
        isTransitioning && pendingNavigation == old(pendingNavigation) && page.overlays == old(page.overlays)
      ensures !old(isTransitioning) ==>
        isTransitioning && pendingNavigation == Some(url)
        && page.overlays == WithOverlay(old(page.overlays), overlay, true)
    {
      if isTransitioning {
        return;
      }
      isTransitioning := true;
      ShowOverlay();
      pendingNavigation := Some(url);
    }

    /** `showOverlay()` */
    method ShowOverlay()
      requires Valid()
      modifies page
      ensures page.overlays == WithOverlay(old(page.overlays), overlay, true)
      ensures page.sections == old(page.sections) && page.rail == old(page.rail)
    {
      if overlay.Some? {
        page.overlays := page.overlays[overlay.value := true];
      }
    }

    /** `hideOverlay()`, run by the window's `load` listener: the overlay is hidden and a new transition may start. */
    method HideOverlay()
      requires Valid()
      modifies page, this`isTransitioning
      ensures page.overlays == WithOverlay(old(page.overlays), overlay, false)
      ensures page.sections == old(page.sections) && page.rail == old(page.rail)
      ensures !isTransitioning
    {
      if overlay.Some? {
        page.overlays := page.overlays[overlay.value := false];
      }
      isTransitioning := false;
    }
  }
}
