# Wood Camp Pharma site scripts — a Dafny model

This project models the page logic of the Wood Camp Pharma marketing site
and its admin dashboard, and proves properties about it. It covers:

- **the admin dashboard's local store**:
  - the per-category product lists: seeded once; then added to, renamed,
    deleted from and toggled;
  - the "recent leads" table;
  - the interest distribution;
  - the login flag and the welcome name.
- **the home page rules**:
  - the header scroll threshold;
  - the three form logs;
  - modals;
  - the product filter;
  - the once-only stats counter.
- **the three section-navigation scripts**: the numbered side rail, the
  button manager, and the scroll-line section picker.
- **the two particle backgrounds**: the canvas one with 150 particles, and the
  WebGL one with 800 particles in stride-3 buffers. Each updates its particles
  in place every frame, using a toroidal wrap rule.
- **the two page-transition scripts**: their overlay bookkeeping, their link
  filters and their one-shot `isTransitioning` guard.

One module per script, plus shared modules:

- `Wrappers` holds `Option`.
- `Strings` holds `startsWith`, `includes`, `split('@')[0]`, `String(n)`
  and `padStart`, with a decimal round trip.
- `Storage` holds `localStorage`, as a map from keys to entries.
- `Dom` holds the page: section offsets, the rail of nav buttons with
  their siblings, and the overlay elements.
- `Field` holds the random-range helpers and the wrap rule shared by both
  backgrounds.

Conventions:

- Objects whose fields the scripts update are classes with `modifies`
  frames. The particle buffers are `array`s updated in loops.
- Pure rules are functions, with lemmas about them.
- `Math.random()` results, the sine and drift terms, form values,
  `prompt`/`confirm` answers, the window size, `scrollY`, the key pressed
  and the anchor a click lands on are all parameters.
- Whether the optional libraries are loaded is also a parameter: THREE,
  Lenis, and the `window.smoothScroll` object, which `assets/js/scroll.js`
  creates and which is not part of this model.
- `window.scrollManager` is the modelled `SmoothScroll.SmoothScrollManager`
  that `assets/js/smooth-scroll.js` creates; the section rail receives it
  as an `Option`, `None` when that script has not run.
- Numbers are exact reals or unbounded integers.

## Model

| member | source | states |
|---|---|---|
| Admin.WoodDefaults | assets/js/admin.js:32-38 | the seeded wood list has 5 products, with ids 1..5, all in category "wood" |
| Admin.ChemicalDefaults | assets/js/admin.js:44-49 | the seeded chemicals list has 4 products, with ids 1..4, all in category "chemicals" |
| Admin.PharmaDefaults | assets/js/admin.js:55-61 | the seeded pharma list has 5 products, with ids 1..5, all in category "pharma" |
| Admin.SeedDefaults | assets/js/admin.js:29-64 | a category list is written only when its key is absent or empty; every other entry is kept; afterwards all three keys are present |
| Admin.SeedingIsIdempotent | assets/js/admin.js:29-64 | seeding twice equals seeding once |
| Admin.InitializeDefaultData | assets/js/admin.js:29-64 | the store afterwards is the seeded store |
| Admin.MaxId | assets/js/admin.js:244 | `Math.max(...ids, 0)`: at least 0, at least every id, and either 0 or some product's id |
| Admin.NextId | assets/js/admin.js:244 | the new id exceeds every existing id, and is 1 for an empty list |
| Admin.FindIndex | assets/js/admin.js:262 | `find` by id: the result is absent iff no product has the id, and otherwise is the first match |
| Admin.FirstWithIdUnique | assets/js/admin.js:262 | the first match is unique |
| Admin.AddProduct | assets/js/admin.js:236-256 | a cancelled or empty name changes nothing; otherwise exactly one Active product with the next id is appended to that category's list, and nothing else changes |
| Admin.Renamed | assets/js/admin.js:262-270 | only the first product with the id is renamed; the list keeps its length and all other fields |
| Admin.EditProduct | assets/js/admin.js:259-274 | a missing id or an empty or cancelled name changes nothing; otherwise the list becomes the renamed list |
| Admin.Without | assets/js/admin.js:281-284 | the result has exactly the products whose id differs, and is no longer than the input |
| Admin.WithoutAppend | assets/js/admin.js:281-284 | filtering distributes over concatenation, so order is kept |
| Admin.WithoutAbsentId | assets/js/admin.js:281-284 | deleting an id no product has changes nothing |
| Admin.AddThenDeleteRestores | assets/js/admin.js:236-256 | deleting the product just added gives back the original list |
| Admin.DeleteProduct | assets/js/admin.js:277-288 | unconfirmed changes nothing; confirmed writes the filtered list and touches no other key |
| Admin.Toggled | assets/js/admin.js:297 | the new status is "Inactive" iff the old one was "Active", and is always one of the two |
| Admin.ToggledAt | assets/js/admin.js:293-300 | only the first product with the id changes, and only its status |
| Admin.ToggleTwiceRestores | assets/js/admin.js:291-301 | toggling twice restores a list whose statuses are Active or Inactive |
| Admin.ToggleProductStatus | assets/js/admin.js:291-301 | a missing id changes nothing; otherwise the list becomes the toggled list |
| Admin.Reverse | assets/js/admin.js:101 | position i of the result holds position length-1-i of the input |
| Admin.RecentLeads | assets/js/admin.js:101 | at most five leads, which are the last ones, newest first |
| Admin.Distribution | assets/js/admin.js:124-135 | the four fixed buckets, each holding the count of leads naming it |
| Admin.BucketTotalAtMostLeads | assets/js/admin.js:131-135 | the four counts add up to at most the number of leads |
| Admin.CheckAuth | assets/js/admin.js:7-12 | it redirects to ../login.html iff the stored flag is not the text "true" |
| Admin.IsLoggedIn | assets/js/admin.js:8 | the `isLoggedIn` item is exactly the text "true" |
| Admin.Logout | assets/js/admin.js:20-26 | confirmed removes exactly the two auth keys, leaves the user logged out and redirects; unconfirmed changes nothing |
| Admin.WelcomeName | assets/js/admin.js:313-319 | the e-mail (or "Admin") up to just before its first '@', with no '@' in it |
| Admin.AdminEmail | assets/js/admin.js:314 | the stored `adminEmail`, or "Admin" when it is missing or empty |
| Admin.LeadsTable | assets/js/admin.js:92-120 | the rows of the leads table: the stored leads taken through RecentLeads, at most five, newest first |
| Admin.WelcomeWithoutEmail | assets/js/admin.js:314 | without a stored e-mail the greeting is "Admin" |
| Storage.LocalStorage.SetItem | assets/js/admin.js:39 | `setItem` replaces exactly one key |
| Storage.LocalStorage.RemoveItem | assets/js/admin.js:22-23 | `removeItem` removes exactly one key |
| Strings.BeforeFirst | assets/js/admin.js:317 | `split(c)[0]`: a prefix without c that stops at the first c |
| Strings.StartsWith | assets/js/transitions.js:52 | `startsWith(p)`: p is no longer than the text and is its prefix |
| Strings.EndsWith | assets/js/page-transitions.js:34 | the `$=` selector test: p is no longer than the text and is its suffix |
| Strings.Contains | assets/js/transitions.js:52 | `includes` holds iff the needle occurs at some position |
| Strings.LeadMissingNotContained | assets/js/transitions.js:57 | a text without the needle's first character does not include the needle |
| Strings.DecimalRoundTrip | assets/js/navigation.js:70 | reading back `String(n)` gives n |
| Strings.Decimal | assets/js/navigation.js:70 | `String(n)`: non-empty, all digits, a leading '0' only for 0, one digit exactly below 10 |
| Strings.PadStart | assets/js/navigation.js:70 | `padStart` gives length max(width, original); ends with the original; the added prefix is all fill characters |
| SitePage.MainPage.OnScroll | assets/js/main.js:11-17 | the header is marked scrolled iff scrollY > 50 |
| SitePage.Appended | assets/js/main.js:50-52 | a log gains exactly one record at its end, earlier records are unchanged, and other keys are untouched |
| SitePage.AppendedTwice | assets/js/main.js:50-52 | two submissions leave both records, oldest first |
| SitePage.NewestLeadFirst | assets/js/main.js:50-52 | a lead just submitted heads the dashboard's leads table |
| SitePage.MainPage.SubmitHero | assets/js/main.js:36-66 | the leads log gains exactly the submitted lead |
| SitePage.MainPage.SubmitContact | assets/js/main.js:221-240 | the contact log gains exactly the submitted message |
| SitePage.MainPage.SubmitQuote | assets/js/main.js:289-310 | the quote log gains exactly the request for the selected product, and the quote modal is closed |
| SitePage.MainPage.OpenModal | assets/js/main.js:188-193 | the named modal becomes active; an unknown id changes nothing |
| SitePage.MainPage.CloseModal | assets/js/main.js:195-200 | the named modal is cleared; an unknown id changes nothing |
| SitePage.MainPage.OpenQuoteModal | assets/js/main.js:278-284 | the product name is recorded and the quote modal opened |
| SitePage.Filtered | assets/js/main.js:262-273 | a card is displayed iff the category is "all" or is the card's own category; every other card is hidden |
| SitePage.FilteredTwice | assets/js/main.js:252-275 | only the last filter matters |
| SitePage.MainPage.FilterProducts | assets/js/main.js:252-275 | the cards become the filtered cards, and only the clicked pill is active |
| SitePage.IntText | assets/js/main.js:135-138 | `String(n)` reads back as n, including a '-' sign for negatives |
| SitePage.CounterText | assets/js/main.js:135-138 | the display is the number's text followed by '+' |
| SitePage.CounterTarget | assets/js/main.js:152 | `parseInt(...) \|\| 0` |
| SitePage.RunningValueIsProduct | assets/js/main.js:131-133 | after k ticks the running value is k * target / 125 |
| SitePage.TickReaches | assets/js/main.js:134 | for a positive target, the running value reaches the target exactly from the 125th tick on |
| SitePage.TickMonotone | assets/js/main.js:133 | for a positive target the running value never decreases |
| SitePage.CounterDisplaysProperties | assets/js/main.js:129-141 | the last display is the target; no display exceeds it; displays never decrease; a positive target takes 125 ticks |
| SitePage.CounterDisplays | assets/js/main.js:129-141 | the numbers the counter shows, tick by tick; its properties are stated by CounterDisplaysProperties |
| SitePage.AnimateCounter | assets/js/main.js:129-141 | the displays the interval produces until it is cleared, and their "n+" texts |
| SitePage.MainPage.OnStatsIntersect | assets/js/main.js:146-157 | counters start only on the first intersecting entry, one per stat number, each showing exactly CounterDisplays of its parsed target; later entries start nothing |
| Navigation.DefaultLabelNumbers | assets/js/navigation.js:29 | the default label is "Section " followed by index+1 |
| Navigation.LabelFor | assets/js/navigation.js:29 | a non-empty attribute is kept, otherwise the default label; never empty |
| Navigation.NavText | assets/js/navigation.js:70 | at least two digits reading index+1, with a leading '0' exactly below 10 |
| Navigation.SectionsOf | assets/js/navigation.js:27-31 | one record per element in document order, with index i and a non-empty label |
| Navigation.NavItemsOf | assets/js/navigation.js:48-84 | one item per section, in order, carrying that section's id |
| Navigation.NavItemsOfProperties | assets/js/navigation.js:58-70 | each item is titled with the label, numbered index+1, and only the first is active |
| Navigation.SectionNavigation.constructor | assets/js/navigation.js:8-43 | the sections and rail are built as above, with the index at 0 |
| Navigation.SectionNavigation.CollectSections | assets/js/navigation.js:27-31 | the push loop records exactly the sections |
| Navigation.SectionNavigation.CreateNavigation | assets/js/navigation.js:48-84 | the item loop builds exactly the rail |
| Navigation.IndexOf | assets/js/navigation.js:138 | `findIndex`: -1 iff the id is absent, otherwise the first match |
| Navigation.IndexOfDistinct | assets/js/navigation.js:138 | with distinct ids the index of a section's id is its own position |
| Navigation.Marked | assets/js/navigation.js:126-135 | the rail keeps its length; each button and item is active iff its section id is the id, and nothing else about it changes |
| Navigation.MarkedSelectsIndex | assets/js/navigation.js:126-135 | a button is active iff its section id equals the id, which is the one at IndexOf |
| Navigation.MarkedUnknownClearsAll | assets/js/navigation.js:126-135 | an unknown id deactivates every button and item |
| Navigation.SectionNavigation.SetActiveSection | assets/js/navigation.js:124-142 | the rail is marked for the id; the index moves to the first match, and stays put for an unknown id |
| Navigation.SectionNavigation.CurrentSection | assets/js/navigation.js:169-171 | the section at the current index when it is in range, and none otherwise; defined whenever there are sections |
| Navigation.SectionNavigation.NavigateToSection | assets/js/navigation.js:147-164 | an unknown id scrolls nothing and changes no state; otherwise it asks for a smooth scroll with a -80 offset (or scrollIntoView) and marks the id |
| Navigation.NextIndex | assets/js/navigation.js:184 | min(cur+1, len-1): stays in range, and sticks at the last section |
| Navigation.PreviousIndex | assets/js/navigation.js:195 | max(cur-1, 0): stays non-negative, and sticks at 0 |
| Navigation.NextThenPrevious | assets/js/navigation.js:183-200 | away from the ends, previous undoes next |
| Navigation.PreviousThenNext | assets/js/navigation.js:183-200 | away from the ends, next undoes previous |
| Navigation.SectionNavigation.NextSection | assets/js/navigation.js:183-189 | with no sections nothing happens; otherwise the section at NextIndex is scrolled to (smoothly with the -80 offset when the smooth scroller is loaded, else by scrollIntoView) and marked, and with distinct ids the index becomes NextIndex |
| Navigation.SectionNavigation.PreviousSection | assets/js/navigation.js:194-200 | with no sections nothing happens; otherwise the section at PreviousIndex is scrolled to (smoothly with the -80 offset when the smooth scroller is loaded, else by scrollIntoView) and marked, and with distinct ids the index becomes PreviousIndex |
| Navigation.SectionNavigation.OnKeyDown | assets/js/navigation.js:205-215 | ArrowDown and ArrowRight go next, ArrowUp and ArrowLeft go previous, other keys change nothing |
| Dom.FirstSection | assets/js/section-navigation.js:33 | `querySelector('[data-section=id]')`: absent iff no section has the id, otherwise the first one |
| Dom.FirstActiveButton | assets/js/section-navigation.js:48 | `querySelector('.section-nav-button.active')`: the first active button, or -1 |
| Dom.HighlightedSingle | assets/js/section-navigation.js:65-72 | with distinct targets at most one button is active afterwards |
| Dom.HighlightedIdempotent | assets/js/section-navigation.js:65-72 | highlighting the same id twice changes nothing more |
| Dom.HighlightButtons | assets/js/section-navigation.js:65-72 | the rail becomes the highlighted rail; sections and overlays are untouched |
| Dom.Highlighted | assets/js/section-navigation.js:65-72 | every button's `active` class is set iff its target is the id, other nodes kept; its properties are stated by HighlightedSingle and HighlightedIdempotent |
| SectionRail.SectionNavigationManager.UpdateActiveButton | assets/js/section-navigation.js:65-72 | a button is active iff its target is the id |
| SectionRail.SectionNavigationManager.NavigateToSection | assets/js/section-navigation.js:32-45 | scrolls iff a section has the id, through `window.scrollManager.scrollToSection` when that manager exists (Lenis or native, as it decides) and by `scrollIntoView` otherwise, in both cases to the first section with the id; the button is highlighted then, and with no match the rail is unchanged |
| SectionRail.SectionNavigationManager.ClickButton | assets/js/section-navigation.js:15-19 | a click navigates to the button's target: it scrolls iff that section exists, and then highlights it |
| SectionRail.Sibling | assets/js/section-navigation.js:47-63 | the sibling is a button, next to (or before) the first active one; there is none exactly when no button is active, the neighbour is off the rail, or it is not a nav button |
| SectionRail.StepRail | assets/js/section-navigation.js:47-63 | clicking the sibling: the rail is highlighted at its target when that section exists, and otherwise unchanged |
| SectionRail.StepWithoutSiblingKeepsRail | assets/js/section-navigation.js:49-53 | with no active button, or a neighbour that is missing or not a nav button, a step leaves the rail unchanged |
| SectionRail.StepToMissingSectionKeepsRail | assets/js/section-navigation.js:33-35 | a sibling whose section is missing leaves the rail unchanged |
| SectionRail.StepMovesActive | assets/js/section-navigation.js:47-63 | when the sibling's section exists, the sibling becomes the active button |
| SectionRail.SectionNavigationManager.NavigateNext | assets/js/section-navigation.js:47-54 | the rail steps to the next sibling button, and is unchanged when there is none; no scroll without a sibling, and with one a scroll iff its section exists |
| SectionRail.SectionNavigationManager.NavigatePrevious | assets/js/section-navigation.js:56-63 | the rail steps to the previous sibling button, and is unchanged when there is none; no scroll without a sibling, and with one a scroll iff its section exists |
| SectionRail.SectionNavigationManager.OnKeyDown | assets/js/section-navigation.js:23-29 | ArrowDown steps next, ArrowUp steps previous, other keys change nothing and scroll nothing |
| SmoothScroll.LastReached | assets/js/smooth-scroll.js:51-59 | the last section in document order whose top minus 200 is at or above scrollY, or none |
| SmoothScroll.ChosenMonotone | assets/js/smooth-scroll.js:51-59 | scrolling further never picks an earlier section |
| SmoothScroll.CurrentSection | assets/js/smooth-scroll.js:51-59 | the loop computes the chosen id ("" when none qualifies) |
| SmoothScroll.ChosenId | assets/js/smooth-scroll.js:51-59 | the id of the last section whose top (less 200) has been scrolled past, or "" |
| SmoothScroll.SmoothScrollManager.UpdateActiveSection | assets/js/smooth-scroll.js:47-67 | a button is active iff its target is the chosen id |
| SmoothScroll.SmoothScrollManager.ScrollToSection | assets/js/smooth-scroll.js:73-85 | no scroll iff no section has the id; otherwise it uses Lenis when loaded, else scrollIntoView, on the first match |
| Field.Wrap | assets/js/cinematic-bg.js:152-155 | past the high edge becomes the low edge, below the low edge becomes the high edge, otherwise the value is kept; the result is always in range |
| Field.WrapIdempotent | assets/js/cinematic-bg.js:152-155 | wrapping a wrapped value changes nothing |
| Field.Scale | assets/js/cinematic-bg.js:81-82 | `Math.random() * e` lies in [0, e) |
| Field.Centered | assets/js/cinematic-bg.js:83-84 | `(Math.random() - 0.5) * e` lies in [-e/2, e/2) |
| Field.Pick | assets/js/cinematic-bg.js:102 | the palette position is below the palette size |
| Cinematic.RandomColor | assets/js/cinematic-bg.js:95-103 | the colour is one of the four palette entries |
| Cinematic.NewParticle | assets/js/cinematic-bg.js:79-88 | on the window, with vx and vy in [-0.15, 0.15), size in [1, 3), opacity in [0.2, 0.7) and a palette colour |
| Cinematic.StepProperties | assets/js/cinematic-bg.js:143-159 | velocity, size and colour kept; the wrap rule is applied to x; the particle ends on the window; opacity is in [0.1, 0.5] |
| Cinematic.Step | assets/js/cinematic-bg.js:143-158 | one frame of a particle's motion; its properties are stated by StepProperties |
| Cinematic.FramesKeepParticle | assets/js/cinematic-bg.js:128-160 | over any number of frames the particle keeps its velocity, size and colour, stays on the window, and keeps its opacity in range |
| Cinematic.CinematicBackground.constructor | assets/js/cinematic-bg.js:8-30 | 150 particles are set up from the draws, and the first frame has run |
| Cinematic.CinematicBackground.Update | assets/js/cinematic-bg.js:139-160 | time goes up by one, every particle takes one step in place, the count is unchanged, and all particles are on the window |
| Cinematic.CinematicBackground.Animate | assets/js/cinematic-bg.js:128-134 | while paused neither particles nor time change; otherwise one update |
| Cinematic.CinematicBackground.OnBlur | assets/js/cinematic-bg.js:117-119 | pauses the frames |
| Cinematic.CinematicBackground.OnFocus | assets/js/cinematic-bg.js:120-122 | resumes the frames |
| Background.CameraFor | assets/js/background.js:61-68 | symmetric bounds spanning the window |
| Background.InitialPosition | assets/js/background.js:129-131 | x within ±W/2, y within ±H/2, z in [-50, 50) |
| Background.InitialVelocity | assets/js/background.js:134-136 | x and y velocity in [-0.25, 0.25), z velocity in [-0.1, 0.1) |
| Background.ColorOf | assets/js/background.js:139-142 | the colour is one of the five palette entries |
| Background.MovedInField | assets/js/background.js:255-263 | x is wrapped into ±W/2, y into ±H/2, and z only accumulates its velocity |
| Background.Moved | assets/js/background.js:255-263 | one frame of one coordinate; its properties are stated by MovedInField |
| Background.AnimatedBackground.constructor | assets/js/background.js:8-43 | WebGL is used unless THREE is missing or the renderer throws; the field exists only without a failure; the loop starts only then |
| Background.AnimatedBackground.Init | assets/js/background.js:27-102 | each branch: no THREE gives the fallback; no container starts nothing; a renderer failure gives the fallback with the camera made; otherwise the field is laid out and the first frame has run |
| Background.AnimatedBackground.InitCanvasFallback | assets/js/background.js:276-295 | a fallback canvas exists only in an existing container |
| Background.AnimatedBackground.CreateParticleField | assets/js/background.js:107-163 | the three 2400-slot buffers hold particle i at offsets 3i..3i+2 |
| Background.AnimatedBackground.UpdateParticles | assets/js/background.js:242-271 | each slot moves in place; x and y end within the field; the rotations grow by 0.0001 and 0.00015; the velocity and colour buffers are not written |
| Background.AnimatedBackground.Animate | assets/js/background.js:223-237 | while paused, or without the field, a frame changes nothing; otherwise one update |
| Background.AnimatedBackground.OnWindowResize | assets/js/background.js:203-218 | without WebGL nothing changes; otherwise the camera and renderer take the new size, and the buffers are untouched |
| Background.AnimatedBackground.OnBlur | assets/js/background.js:97 | pauses the frames |
| Background.AnimatedBackground.OnFocus | assets/js/background.js:98 | resumes the frames |
| Transitions.Passes | assets/js/transitions.js:48-58 | the listener's tests in one place: non-empty href, not `_blank`, contains the origin, the tested text not starting with '#', and an admin link only with `allow-transition` |
| Transitions.InterceptsAsWritten | assets/js/transitions.js:44-65 | the click test as written: present, non-empty href, not _blank, contains origin, resolved href not starting with '#', admin only with allow-transition |
| Transitions.ResolvedLinksPassHashTest | assets/js/transitions.js:48-60 | as written, any same-origin link that is not `_blank` and not a blocked admin link is intercepted, whatever its attribute |
| Transitions.HashLinkInterceptedAsWritten | assets/js/transitions.js:53-55 | an in-page "#top" link without classes is intercepted as written |
| Transitions.Intercepts | assets/js/transitions.js:44-65 | the same tests, with the '#' test made on the href attribute |
| Transitions.InPageAnchorsPassThrough | assets/js/transitions.js:53-55 | in-page anchors are never intercepted |
| Transitions.InterceptsAgreesOffAnchors | assets/js/transitions.js:44-65 | away from '#' links both tests agree |
| Transitions.AdminLinksNeedOptIn | assets/js/transitions.js:58-60 | admin links pass only with allow-transition |
| Transitions.PageTransitions.CreateTransitionOverlay | assets/js/transitions.js:26-39 | an overlay is created only if none exists, so the page has at most one |
| Transitions.PageTransitions.OnClick | assets/js/transitions.js:44-65 | as written: the default is prevented iff InterceptsAsWritten holds, and then the transition is started |
| Transitions.PageTransitions.OnClickIntended | assets/js/transitions.js:44-65 | the corrected listener: the default is prevented iff Intercepts holds, so in-page anchors are left alone, and then the transition is started |
| Transitions.PageTransitions.TransitionToPage | assets/js/transitions.js:70-89 | a no-op while transitioning; the first call sets the flag for good, fades the overlay in and schedules the URL |
| Transitions.PageTransitions.OnLoad | assets/js/transitions.js:106-116 | the overlay, when present, fades out |
| Transitions.PageTransitions.AnimateOutOnUnload | assets/js/transitions.js:94-99 | the overlay, when present, is made opaque |
| TransitionManager.Handles | assets/js/page-transitions.js:34-39 | intercepted iff the href attribute starts with "/" or "./" or ends in ".html", no target is set, and the hostname is the page's own |
| TransitionManager.MatchesSelector | assets/js/page-transitions.js:34 | the closest-anchor selector: the href attribute starts with "/" or "./" or ends in ".html" |
| TransitionManager.OtherHostsPassThrough | assets/js/page-transitions.js:36 | links to another host are never intercepted |
| TransitionManager.TargetedLinksPassThrough | assets/js/page-transitions.js:36 | a link with any target is never intercepted |
| TransitionManager.InPageAnchorsPassThrough | assets/js/page-transitions.js:34 | a '#' link not ending in ".html" is never intercepted |
| TransitionManager.WithOverlay | assets/js/page-transitions.js:55-66 | only the referenced overlay's class changes |
| TransitionManager.ShowThenHideRestores | assets/js/page-transitions.js:55-66 | showing and then hiding restores a hidden overlay |
| TransitionManager.PageTransitionManager.InitOverlay | assets/js/page-transitions.js:15-29 | an overlay is created only when absent, and the reference is always the first overlay |
| TransitionManager.PageTransitionManager.OnClick | assets/js/page-transitions.js:33-40 | the default is prevented iff the link is handled, and then the transition starts |
| TransitionManager.PageTransitionManager.TransitionTo | assets/js/page-transitions.js:43-53 | a no-op while transitioning; otherwise sets the flag, shows the overlay and schedules the URL |
| TransitionManager.PageTransitionManager.ShowOverlay | assets/js/page-transitions.js:55-59 | adds 'active' to the overlay, if there is one |
| TransitionManager.PageTransitionManager.HideOverlay | assets/js/page-transitions.js:61-66 | removes 'active' and clears the flag, so a later transition proceeds |

## Left out

- Drawing is not modelled: canvas paths, gradients, the glow circles, the grid and the vignette; the Three.js scene, material and render calls; the `innerHTML` markup of tables and charts. These are foreign graphics and DOM calls. Bar heights and percentages of the chart are omitted as cosmetic.
- The fallback canvas's own frame (`updateCanvasFallback`), the `resizeCanvas` handlers, device-pixel-ratio handling, mouse tracking and the scroll parallax (`rotation.z`) of both backgrounds are left out: they only feed drawing.
- `Math.random`, `Math.sin` and the drift terms are inputs; `IsSine` says only that a sine lies in [-1, 1]. `Date.now`, timers and `requestAnimationFrame` are explicit method calls: one `Animate` call is one frame, one loop round of `AnimateCounter` is one interval tick, and `pendingNavigation` stands for the delayed `window.location` assignment.
- Numbers are exact reals and unbounded integers. Float32 buffers, the IEEE rounding of `current += increment` and the 2000/16 division are taken as exact, so the counter reaches its target in exactly 125 ticks.
- JSON parse and stringify are the identity. An entry stored with another shape is read as an empty list; a `JSON.parse` exception on corrupted text is not modelled.
- `prompt`, `confirm` and `alert` are inputs or omitted. Redirects are returned values. Form `reset()` calls are omitted, and so are `IntersectionObserver` thresholds (the callback's `isIntersecting` is a parameter), `scrollIntoView`, and `formatDate` (locale formatting).
- Admin.AddProduct: the list is written back even when the stored entry was not a product list; the model reads such an entry as empty, exactly as `|| []` does after parsing.
- The dashboard loaders `loadDashboardData`, `loadProductsTable` and `switchProductTab` only render the lists modelled above. `loadLeadsTable`'s rows are `Admin.LeadsTable`; an empty result is the "No leads yet" row.
- Navigation.SectionNavigation.constructor: the section elements themselves, the `IntersectionObserver` that calls `setActiveSection`, and the `a[data-nav-to]` click handlers are not modelled; their effect is the modelled `SetActiveSection` and `NavigateToSection`. On a page with no sections, `setActiveSection` would read a missing container; nothing calls it there, so the model's loop simply finds no items.
- In both section scripts, the nav buttons are taken to sit together in one container, `Page.rail`, which may also hold non-button siblings. `window.smoothScroll` comes from `assets/js/scroll.js`, which is not part of this model, so its presence is a parameter; `window.scrollManager` is passed in as an optional `SmoothScroll.SmoothScrollManager` that works on the same page.
- Background.AnimatedBackground.OnWindowResize requires the camera and the renderer whenever `useWebGL` is set. The source registers the resize listener only after both exist. When the container is missing, `initWebGL` returns before registering it and leaves `useWebGL` set.
- Background.AnimatedBackground.Init: as in the source, the canvas fallback never starts the frame loop (`loopStarted` stays false), and the renderer failure is a boolean input standing for the exception.
- Transitions.PageTransitions.TransitionToPage: the GSAP fades are the `overlayFadedIn` flag; their durations and easing, and the `gsap.from` content animation on load, are not modelled.
- For both transition scripts, the anchor a click lands on (`closest`) is a parameter. For `page-transitions.js`, nested anchors are assumed away, so the closest anchor is the one the selector is tested on. Both scripts share the `.page-transition-overlay` class, so when both run the page still has a single overlay.
- `sections.js` and `scroll.js` (GSAP ScrollTrigger and Lenis wrappers) are not part of this model.

## Findings

| source | as written | input that shows it | evidently intended | confidence | as-written member | corrected member |
|---|---|---|---|---|---|---|
| assets/js/transitions.js:53 | the in-page-anchor test reads `link.href`, which the browser resolves to an absolute URL, so it never starts with '#' | a link with no classes whose attribute is `#top` on a page at `https://w.test/` resolves to `https://w.test/#top`, and it is intercepted: the overlay fades in and the fragment-only navigation fires no `load`, so the overlay stays up and `isTransitioning` stays set | test the `href` attribute, so that links to anchors on the same page are left alone | medium, not executed | Transitions.InterceptsAsWritten, Transitions.PageTransitions.OnClick, Transitions.HashLinkInterceptedAsWritten | Transitions.Intercepts, Transitions.PageTransitions.OnClickIntended, Transitions.InPageAnchorsPassThrough |
