/**
 * `PageTransitions`: on every page it makes sure a transition overlay
 * exists, intercepts clicks on internal links, fades the overlay in and
 * navigates after a short delay; a second transition cannot start while
 * one is under way.
 */
module Transitions {
  import opened Wrappers
  import opened Strings
  import opened Dom

  const AllowClass := "allow-transition"

  /**
   * The tests of the click listener, with the in-page-anchor test made on
   * `hashTested`.
   */
  predicate Passes(a: Anchor, origin: string, hashTested: string)
  {
    a.href != "" && a.target != "_blank" && Contains(a.href, origin) && !StartsWith(hashTested, "#")
    && (!Contains(a.href, "admin") || AllowClass in a.classes)
  }

  /**
   * The click listener's decision as written: the in-page-anchor test is
   * made on the resolved `href`, which is an absolute URL.
   */
  predicate InterceptsAsWritten(link: Option<Anchor>, origin: string)
  {
    link.Some? && Passes(link.value, origin, link.value.href)
  }

  /**
   * As written, the in-page-anchor test never rejects a resolved link: an
   * `href` that starts with the page's origin does not start with '#'.
   */
  lemma ResolvedLinksPassHashTest(a: Anchor, origin: string)
    requires a.target != "_blank" && origin != "" && origin[0] != '#' && StartsWith(a.href, origin)
    requires !Contains(a.href, "admin") || AllowClass in a.classes
    ensures InterceptsAsWritten(Some(a), origin)
  {
    assert OccursAt(a.href, origin, 0);
    assert a.href[0] == origin[0];
  }

  /** The page at `TestOrigin` that the counterexample below is set on. */
  const TestOrigin := "https://w.test"

  /**
   * A plain link to an anchor of the same page: its attribute is "#top",
   * its resolved `href` the page's own URL with that fragment.
   */
  const TopLink := Anchor(TestOrigin + "/#top", "#top", "", "w.test", {})

  /** That link is intercepted as written, although it only points into the page. */
  lemma HashLinkInterceptedAsWritten()
    ensures StartsWith(TopLink.hrefAttribute, "#") && InterceptsAsWritten(Some(TopLink), TestOrigin)
  {
    LeadMissingNotContained(TopLink.href, "admin");
    ResolvedLinksPassHashTest(TopLink, TestOrigin);
  }

  /**
   * The decision as evidently intended: the in-page-anchor test is made
   * on the `href` attribute as written in the page.
   */
  predicate Intercepts(link: Option<Anchor>, origin: string)
  {
    link.Some? && Passes(link.value, origin, link.value.hrefAttribute)
  }

  /** A link written as an in-page anchor is never intercepted. */
  lemma InPageAnchorsPassThrough(a: Anchor, origin: string)
    requires StartsWith(a.hrefAttribute, "#")
    ensures !Intercepts(Some(a), origin)
  {
  }

  /** Away from in-page anchors the two decisions agree. */
  lemma InterceptsAgreesOffAnchors(link: Option<Anchor>, origin: string)
    requires link.Some? ==> !StartsWith(link.value.hrefAttribute, "#") && !StartsWith(link.value.href, "#")
    ensures Intercepts(link, origin) == InterceptsAsWritten(link, origin)
  {
  }

  /** Admin links are intercepted only when they carry `allow-transition`. */
  lemma AdminLinksNeedOptIn(a: Anchor, origin: string)
    requires Contains(a.href, "admin") && AllowClass !in a.classes
    ensures !Intercepts(Some(a), origin)
  {
  }

  class PageTransitions {
    const page: Page
    var isTransitioning: bool
    /** The overlay was asked to fade in. */
    var overlayFadedIn: bool
    /** The URL `window.location.href` is set to once the delay has passed. */
    var pendingNavigation: Option<string>

    /** `new PageTransitions()`: not transitioning, and the page has an overlay. */
    constructor (page: Page)
      modifies page
      ensures this.page == page
      ensures !isTransitioning && !overlayFadedIn && pendingNavigation.None?
      ensures page.overlays == if old(page.overlays) == [] then [false] else old(page.overlays)
      ensures page.sections == old(page.sections) && page.rail == old(page.rail)
    {
      this.page := page;
      isTransitioning := false;
      overlayFadedIn := false;
      pendingNavigation := None;
      new;
      CreateTransitionOverlay();
    }

    /** `createTransitionOverlay()`: an overlay is added only when the page has none. */
    method CreateTransitionOverlay()
      modifies page
      ensures page.overlays == if old(page.overlays) == [] then [false] else old(page.overlays)
      ensures page.sections == old(page.sections) && page.rail == old(page.rail)
      ensures |old(page.overlays)| <= 1 ==> |page.overlays| == 1
    {
      if page.overlays != [] {
        return;
      }
      page.overlays := page.overlays + [false];
    }

    /**
     * The document's click listener as written, for a click whose closest
     * anchor is `link` on a page at `origin`: an intercepted click starts a
     * transition to the link's `href` and its default action is prevented.
     */
    method OnClick(link: Option<Anchor>, origin: string) returns (prevented: bool)
      modifies this
      ensures prevented == InterceptsAsWritten(link, origin)
      ensures !prevented ==> isTransitioning == old(isTransitioning) && overlayFadedIn == old(overlayFadedIn)
                             && pendingNavigation == old(pendingNavigation)
      ensures prevented && !old(isTransitioning) ==>
        isTransitioning && overlayFadedIn && pendingNavigation == Some(link.value.href)
      ensures prevented && old(isTransitioning) ==>
        isTransitioning && overlayFadedIn == old(overlayFadedIn) && pendingNavigation == old(pendingNavigation)
    {
      prevented := InterceptsAsWritten(link, origin);
      if prevented {
        TransitionToPage(link.value.href);
      }
    }

    /** The listener with the in-page-anchor test made on the `href` attribute, as evidently intended. */
    method OnClickIntended(link: Option<Anchor>, origin: string) returns (prevented: bool)
      modifies this
      ensures prevented == Intercepts(link, origin)
      ensures !prevented ==> isTransitioning == old(isTransitioning) && overlayFadedIn == old(overlayFadedIn)
                             && pendingNavigation == old(pendingNavigation)
      ensures prevented && !old(isTransitioning) ==>
        isTransitioning && overlayFadedIn && pendingNavigation == Some(link.value.href)
      ensures prevented && old(isTransitioning) ==>
        isTransitioning && overlayFadedIn == old(overlayFadedIn) && pendingNavigation == old(pendingNavigation)
    {
      prevented := Intercepts(link, origin);
      if prevented {
        TransitionToPage(link.value.href);
      }
    }

    /**
     * `transitionToPage(url)`: ignored while a transition is under way;
     * otherwise the flag is set for good, the overlay fades in and the
     * navigation to `url` is scheduled.
     */
    method TransitionToPage(url: string)
      modifies this
      ensures old(isTransitioning) ==>
        isTransitioning && overlayFadedIn == old(overlayFadedIn) && pendingNavigation == old(pendingNavigation)
      ensures !old(isTransitioning) ==> isTransitioning && overlayFadedIn && pendingNavigation == Some(url)
    {
      if isTransitioning {
        return;
      }
      isTransitioning := true;
      overlayFadedIn := true;
      pendingNavigation := Some(url);
    }

    /** The window's `load` listener: the overlay, when there is one, fades out. */
    method OnLoad()
      modifies this
      ensures overlayFadedIn == (old(overlayFadedIn) && page.overlays == [])
      ensures isTransitioning == old(isTransitioning) && pendingNavigation == old(pendingNavigation)
    {
      if page.overlays != [] {
        overlayFadedIn := false;
      }
    }

    /** `animateOutOnUnload()`, run by `beforeunload`: the overlay, when there is one, is made opaque. */
    method AnimateOutOnUnload()
      modifies this
      ensures overlayFadedIn == (old(overlayFadedIn) || page.overlays != [])
      ensures isTransitioning == old(isTransitioning) && pendingNavigation == old(pendingNavigation)
    {
      if page.overlays != [] {
        overlayFadedIn := true;
      }
    }
  }
}
