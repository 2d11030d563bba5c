/**
 * The public pages' script: the header's scrolled state, the three forms
 * that append a record to a submission log in the store, the once-only
 * stats counters, the modals and the product filter.
 */
module SitePage {
  import opened Wrappers
  import opened Strings
  import opened Storage
  import Admin

  const ScrollThreshold: real := 50.0
  const ContactsKey := "contactMessages"
  const QuotesKey := "quoteRequests"
  const QuoteModal := "quoteModal"
  /** `duration / 16` for the default duration of 2000 ms. */
  const CounterTicks: nat := 125

  /** The store after `JSON.parse(getItem(key)) || []`, `push(record)` and `setItem(key, ...)`. */
  function Appended(items: Items, key: string, record: Submission): (r: Items)
    ensures key in r && r.Keys == items.Keys + {key}
    ensures var log := SubmissionsAt(r, key);
      |log| == |SubmissionsAt(items, key)| + 1
      && log[..|log| - 1] == SubmissionsAt(items, key) && log[|log| - 1] == record
    ensures forall k :: k in items && k != key ==> r[k] == items[k]
  {
    var log := SubmissionsAt(items, key) + [record];
    assert log[..|log| - 1] == SubmissionsAt(items, key);
    items[key := SubmissionList(log)]
  }

  /** The lead just submitted on the home page is the first row of the dashboard's leads table. */
  lemma NewestLeadFirst(items: Items, lead: Submission)
    ensures Admin.LeadsTable(Appended(items, Admin.LeadsKey, lead))[0] == lead
  {
  }

  /** Submitting twice keeps both records, oldest first. */
  lemma AppendedTwice(items: Items, key: string, first: Submission, second: Submission)
    ensures SubmissionsAt(Appended(Appended(items, key, first), key, second), key)
            == SubmissionsAt(items, key) + [first, second]
  {
    var once := SubmissionsAt(Appended(items, key, first), key);
    assert once == SubmissionsAt(items, key) + [first];
    var twice := SubmissionsAt(Appended(Appended(items, key, first), key, second), key);
    assert twice == once + [second];
  }

  /** `String(n)` for any integer. */
  function IntText(n: int): (r: string)
    ensures |r| >= 1
    ensures n >= 0 ==> AllDigits(r) && ParseDigits(r) == n
    ensures n < 0 ==> r[0] == '-' && AllDigits(r[1..]) && ParseDigits(r[1..]) == -n
  {
    if n < 0 then
      DecimalRoundTrip(-n);
      assert ("-" + Decimal(-n))[1..] == Decimal(-n);
      "-" + Decimal(-n)
    else
      DecimalRoundTrip(n);
      Decimal(n)
  }

  /** A counter's text: the number followed by '+'. */
  function CounterText(n: int): (r: string)
    ensures EndsWith(r, "+") && r[..|r| - 1] == IntText(n)
  {
    assert (IntText(n) + "+")[..|IntText(n)|] == IntText(n);
    IntText(n) + "+"
  }

  /** `parseInt(data-target) || 0`; `None` is `NaN`. */
  function CounterTarget(parsed: Option<int>): (t: int)
    ensures parsed.Some? ==> t == parsed.value
    ensures parsed.None? ==> t == 0
  {
    if parsed.Some? then parsed.value else 0
  }

  /** The running value after `k` ticks: `current += target / 125` applied `k` times. */
  function RunningValue(k: nat, target: int): real
  {
    if k == 0 then 0.0 else RunningValue(k - 1, target) + target as real / CounterTicks as real
  }

  /** `k` increments add up to `k` times the increment. */
  lemma {:induction false} RunningValueIsProduct(k: nat, target: int)
    ensures RunningValue(k, target) == k as real * (target as real / CounterTicks as real)
  {
    if k > 0 {
      RunningValueIsProduct(k - 1, target);
      var inc := target as real / CounterTicks as real;
      assert (k - 1) as real * inc + inc == k as real * inc;
    }
  }

  /** A positive target is reached exactly at tick 125. */
  lemma TickReaches(k: nat, target: int)
    requires target > 0
    ensures RunningValue(k, target) >= target as real <==> k >= CounterTicks
  {
    RunningValueIsProduct(k, target);
    var inc := target as real / 125.0;
    assert inc > 0.0;
    if k >= 125 {
      assert k as real * inc >= 125.0 * inc;
    } else {
      assert k as real * inc <= 124.0 * inc;
    }
  }

  /** For a positive target the running value grows with the tick count. */
  lemma TickMonotone(i: nat, j: nat, target: int)
    requires target > 0 && i <= j
    ensures RunningValue(i, target) <= RunningValue(j, target)
  {
    RunningValueIsProduct(i, target);
    RunningValueIsProduct(j, target);
    var inc := target as real / 125.0;
    assert (j as real - i as real) * inc >= 0.0;
    assert j as real * inc - i as real * inc == (j as real - i as real) * inc;
  }

  /**
   * The numbers `animateCounter` displays, one per tick, each followed by
   * '+': the floor of the running value while it is below the target,
   * then the target itself, when the interval is cleared.
   */
  function CounterDisplays(target: int): seq<int>
  {
    if target <= 0 then [target]
    else seq(CounterTicks - 1, i requires 0 <= i < CounterTicks - 1 => RunningValue(i + 1, target).Floor) + [target]
  }

  /**
   * The counter ends on exactly its target, never shows more than the
   * target, never goes down, and for a positive target takes 125 ticks.
   */
  lemma CounterDisplaysProperties(target: int)
    ensures var d := CounterDisplays(target);
      |d| >= 1 && d[|d| - 1] == target
      && (target > 0 ==> |d| == CounterTicks)
      && (forall i :: 0 <= i < |d| ==> d[i] <= target)
      && (forall i, j :: 0 <= i <= j < |d| ==> d[i] <= d[j])
  {
    var d := CounterDisplays(target);
    if target > 0 {
      forall i | 0 <= i < |d| - 1
        ensures d[i] < target
      {
        TickReaches(i + 1, target);
      }
      forall i, j | 0 <= i <= j < |d| - 1
        ensures d[i] <= d[j]
      {
        TickMonotone(i + 1, j + 1, target);
      }
    }
  }

  /** The `.card`s of the product page: `data-category` and the `display` style. */
  datatype CardDisplay = Unset | Grid | NoDisplay
  datatype ProductCard = ProductCard(category: string, display: CardDisplay)

  /** What `filterProducts(category)` shows: every card for "all", else the cards of that category. */
  function Filtered(cards: seq<ProductCard>, category: string): (r: seq<ProductCard>)
    ensures |r| == |cards|
    ensures forall i :: 0 <= i < |r| ==> r[i].category == cards[i].category
    ensures forall i :: 0 <= i < |r| ==>
      (r[i].display == Grid <==> category == "all" || cards[i].category == category)
    ensures forall i :: 0 <= i < |r| ==> r[i].display != Unset
  {
    seq(|cards|, i requires 0 <= i < |cards| =>
      cards[i].(display := if category == "all" || cards[i].category == category then Grid else NoDisplay))
  }

  /** Filtering is idempotent: the result depends on the category only. */
  lemma FilteredTwice(cards: seq<ProductCard>, first: string, second: string)
    ensures Filtered(Filtered(cards, first), second) == Filtered(cards, second)
  {
  }

  /**
   * `animateCounter(element, target)`: the numbers the element shows,
   * tick by tick, until the interval is cleared, and the texts they are
   * shown as. Numbers are taken as exact reals.
   */
  method AnimateCounter(target: int) returns (shown: seq<int>, texts: seq<string>)
    ensures shown == CounterDisplays(target)
    ensures |texts| == |shown| && forall i :: 0 <= i < |shown| ==> texts[i] == CounterText(shown[i])
  {
    var current: real := 0.0;
    var increment := target as real / (2000.0 / 16.0);
    var ticks: nat := 0;
    var cleared := false;
    shown := [];
    while !cleared
      invariant ticks <= CounterTicks && (target <= 0 ==> ticks <= 1)
      invariant current == RunningValue(ticks, target)
      invariant cleared ==> shown == CounterDisplays(target)
      invariant !cleared ==> ticks < CounterTicks && (target <= 0 ==> ticks == 0)
      invariant !cleared ==> |shown| == ticks
      invariant !cleared ==> forall i :: 0 <= i < ticks ==> shown[i] == RunningValue(i + 1, target).Floor
      decreases CounterTicks - ticks
    {
      current := current + increment;
      ticks := ticks + 1;
      if target > 0 {
        TickReaches(ticks, target);
      }
      if current >= target as real {
        shown := shown + [target];
        cleared := true;
      } else {
        shown := shown + [current.Floor];
      }
    }
    texts := seq(|shown|, i requires 0 <= i < |shown| => CounterText(shown[i]));
  }

  class MainPage {
    const store: LocalStorage
    var headerScrolled: bool
    /** The page's modals by id, each with whether it carries `active`. */
    var modals: map<string, bool>
    var cards: seq<ProductCard>
    /** The `.filter-pill` buttons, each with whether it carries `active`. */
    var pills: seq<bool>
    /** The stats grid carries `animated`. */
    var statsAnimated: bool
    /** The value of the quote form's product-name field. */
    var quoteProductName: string

    constructor (store: LocalStorage, modals: map<string, bool>, cards: seq<ProductCard>, pills: seq<bool>)
      ensures this.store == store && this.modals == modals && this.cards == cards && this.pills == pills
      ensures !headerScrolled && !statsAnimated && quoteProductName == ""
    {
      this.store := store;
      this.modals := modals;
      this.cards := cards;
      this.pills := pills;
      headerScrolled := false;
      statsAnimated := false;
      quoteProductName := "";
    }

    /** The window's `scroll` listener: the header is marked once the page has scrolled past 50 pixels. */
    method OnScroll(scrollY: real)
      modifies this`headerScrolled
      ensures headerScrolled <==> scrollY > ScrollThreshold
    {
      if scrollY > ScrollThreshold {
        headerScrolled := true;
      } else {
        headerScrolled := false;
      }
    }

    /** The hero form's `submit` listener: one lead is appended to `userLeads`. */
    method SubmitHero(name: string, email: string, phone: string, country: string, interest: string,
                      timestamp: string)
      modifies store
      ensures store.items ==
        Appended(old(store.items), Admin.LeadsKey, Lead(name, email, phone, country, interest, timestamp))
    {
      var leads := SubmissionsAt(store.items, Admin.LeadsKey);
      leads := leads + [Lead(name, email, phone, country, interest, timestamp)];
      store.SetItem(Admin.LeadsKey, SubmissionList(leads));
    }

    /** The contact form's `submit` listener: one message is appended to `contactMessages`. */
    method SubmitContact(name: string, email: string, message: string, timestamp: string)
      modifies store
      ensures store.items == Appended(old(store.items), ContactsKey, ContactMessage(name, email, message, timestamp))
    {
      var contacts := SubmissionsAt(store.items, ContactsKey);
      contacts := contacts + [ContactMessage(name, email, message, timestamp)];
      store.SetItem(ContactsKey, SubmissionList(contacts));
    }

    /**
     * The quote form's `submit` listener: one request for the product in
     * the form's product field is appended to `quoteRequests` and the
     * quote modal is closed.
     */
    method SubmitQuote(companyName: string, email: string, phone: string, quantity: string, timestamp: string)
      modifies store, this`modals
      ensures store.items == Appended(old(store.items), QuotesKey,
                                      QuoteRequest(quoteProductName, companyName, email, phone, quantity, timestamp))
      ensures modals == if QuoteModal in old(modals) then old(modals)[QuoteModal := false] else old(modals)
    {
      var quotes := SubmissionsAt(store.items, QuotesKey);
      quotes := quotes + [QuoteRequest(quoteProductName, companyName, email, phone, quantity, timestamp)];
      store.SetItem(QuotesKey, SubmissionList(quotes));
      CloseModal(QuoteModal);
    }

    /** `openModal(id)`: a modal of that id becomes active; an unknown id changes nothing. */
    method OpenModal(id: string)
      modifies this`modals
      ensures modals == if id in old(modals) then old(modals)[id := true] else old(modals)
    {
      if id in modals {
        modals := modals[id := true];
      }
    }

    /**
     * `closeModal(id)`, and equally the click on a modal's backdrop or its
     * close button: the modal stops being active; an unknown id changes nothing.
     */
    method CloseModal(id: string)
      modifies this`modals
      ensures modals == if id in old(modals) then old(modals)[id := false] else old(modals)
    {
      if id in modals {
        modals := modals[id := false];
      }
    }

    /** `openQuoteModal(productName)`: with a quote modal on the page, its product field is filled and it opens. */
    method OpenQuoteModal(productName: string)
      modifies this`modals, this`quoteProductName
      ensures QuoteModal in old(modals) ==>
        quoteProductName == productName && modals == old(modals)[QuoteModal := true]
      ensures QuoteModal !in old(modals) ==>
        quoteProductName == old(quoteProductName) && modals == old(modals)
    {
      if QuoteModal in modals {
        quoteProductName := productName;
        OpenModal(QuoteModal);
      }
    }

    /**
     * `filterProducts(category)`: every pill loses `active` and the clicked
     * element gains it (`clicked` is its pill position, `None` when it is
     * not a pill); then each card is shown or hidden.
     */
    method FilterProducts(category: string, clicked: Option<nat>)
      requires clicked.Some? ==> clicked.value < |pills|
      modifies this`cards, this`pills
      ensures cards == Filtered(old(cards), category)
      ensures |pills| == |old(pills)| && forall i :: 0 <= i < |pills| ==> (pills[i] <==> clicked == Some(i))
    {
      var p := 0;
      while p < |pills|
        invariant 0 <= p <= |pills| == |old(pills)|
        invariant forall i :: 0 <= i < p ==> !pills[i]
        invariant cards == old(cards)
      {
        pills := pills[p := false];
        p := p + 1;
      }
      if clicked.Some? {
        pills := pills[clicked.value := true];
      }
      ghost var marked := pills;
      var i := 0;
      while i < |cards|
        invariant pills == marked
        invariant 0 <= i <= |cards| == |old(cards)|
        invariant forall j :: 0 <= j < i ==> cards[j] == Filtered(old(cards), category)[j]
        invariant forall j :: i <= j < |cards| ==> cards[j] == old(cards)[j]
      {
        if category == "all" || cards[i].category == category {
          cards := cards[i := cards[i].(display := Grid)];
        } else {
          cards := cards[i := cards[i].(display := NoDisplay)];
        }
        i := i + 1;
      }
    }

    /**
     * The stats observer's callback: the first time the grid comes into
     * view it is marked `animated` and a counter runs for every stat
     * number (`targets` are their parsed `data-target`s); afterwards
     * nothing starts again.
     */
    method OnStatsIntersect(isIntersecting: bool, targets: seq<Option<int>>) returns (counters: seq<seq<int>>)
      modifies this`statsAnimated
      ensures statsAnimated == (old(statsAnimated) || isIntersecting)
      ensures (isIntersecting && !old(statsAnimated)) ==> |counters| == |targets|
      ensures !(isIntersecting && !old(statsAnimated)) ==> counters == []
      ensures forall i :: 0 <= i < |counters| ==>
        i < |targets| && counters[i] == CounterDisplays(CounterTarget(targets[i]))
      ensures forall i :: 0 <= i < |counters| ==>
        |counters[i]| >= 1 && counters[i][|counters[i]| - 1] == CounterTarget(targets[i])
    {
      counters := [];
      if isIntersecting && !statsAnimated {
        statsAnimated := true;
        var i := 0;
        while i < |targets|
          invariant 0 <= i <= |targets| && |counters| == i && statsAnimated
          invariant forall j :: 0 <= j < i ==> counters[j] == CounterDisplays(CounterTarget(targets[j]))
          invariant forall j :: 0 <= j < i ==>
            |counters[j]| >= 1 && counters[j][|counters[j]| - 1] == CounterTarget(targets[j])
        {
          var shown, _ := AnimateCounter(CounterTarget(targets[i]));
          counters := counters + [shown];
          i := i + 1;
        }
      }
    }
  }
}
