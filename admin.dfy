/**
 * The admin dashboard's data rules: the three per-category product lists
 * kept in the local store (seeded on first visit, then added to, renamed,
 * deleted from and toggled), the "recent leads" table, the interest
 * distribution, the login flag and the welcome name.
 *
 * Every operation reads a list from the store, changes its parsed copy and
 * writes the whole list back, so each one is a method on the store whose
 * new contents are a function of the old ones; `prompt` and `confirm`
 * answers are parameters.
 */
module Admin {
  import opened Wrappers
  import opened Storage
  import Strings

  const WoodKey := "products_wood"
  const ChemicalsKey := "products_chemicals"
  const PharmaKey := "products_pharma"
  const SeedKeys: set<string> := {WoodKey, ChemicalsKey, PharmaKey}
  const LeadsKey := "userLeads"
  const AuthKey := "isLoggedIn"
  const EmailKey := "adminEmail"
  const LoginPage := "../login.html"

  /** The store key of a category's product list. */
  function ProductKey(category: string): string
  {
    "products_" + category
  }

  // ----- default catalogue -----

  predicate NumberedFromOne(ps: seq<Product>)
  {
    forall i :: 0 <= i < |ps| ==> ps[i].id == i + 1
  }

  predicate AllInCategory(ps: seq<Product>, category: string)
  {
    forall i :: 0 <= i < |ps| ==> ps[i].category == category
  }

  function WoodDefaults(): (r: seq<Product>)
    ensures |r| == 5 && NumberedFromOne(r) && AllInCategory(r, "wood")
  {
    [ Product(1, "Marine Plywood (13mm)", "wood", "Active"),
      Product(2, "Commercial Plywood (9mm)", "wood", "Active"),
      Product(3, "Teak Timber (FAS Grade)", "wood", "Active"),
      Product(4, "Softwood Timber", "wood", "Active"),
      Product(5, "Blockboard (12mm)", "wood", "Inactive") ]
  }

  function ChemicalDefaults(): (r: seq<Product>)
    ensures |r| == 4 && NumberedFromOne(r) && AllInCategory(r, "chemicals")
  {
    [ Product(1, "Sodium Chloride (NaCl)", "chemicals", "Active"),
      Product(2, "Sulfuric Acid (H\U{2082}SO\U{2084})", "chemicals", "Active"),
      Product(3, "Citric Acid Monohydrate", "chemicals", "Active"),
      Product(4, "Calcium Hydroxide Ca(OH)\U{2082}", "chemicals", "Active") ]
  }

  function PharmaDefaults(): (r: seq<Product>)
    ensures |r| == 5 && NumberedFromOne(r) && AllInCategory(r, "pharma")
  {
    [ Product(1, "Paracetamol API", "pharma", "Active"),
      Product(2, "Ibuprofen API", "pharma", "Active"),
      Product(3, "Ampicillin Trihydrate", "pharma", "Active"),
      Product(4, "Metformin HCl API", "pharma", "Active"),
      Product(5, "Diclofenac Sodium", "pharma", "Inactive") ]
  }

  /** Writes `defaults` under `key` unless the store already holds something there. */
  function SeedOne(items: Items, key: string, defaults: seq<Product>): Items
  {
    if Present(items, key) then items else items[key := ProductList(defaults)]
  }

  /** The store as `initializeDefaultData` leaves it. */
  function SeedDefaults(items: Items): (r: Items)
    ensures r.Keys == items.Keys + SeedKeys
    ensures forall k :: k in items && (Present(items, k) || k !in SeedKeys) ==> r[k] == items[k]
    ensures !Present(items, WoodKey) ==> r[WoodKey] == ProductList(WoodDefaults())
    ensures !Present(items, ChemicalsKey) ==> r[ChemicalsKey] == ProductList(ChemicalDefaults())
    ensures !Present(items, PharmaKey) ==> r[PharmaKey] == ProductList(PharmaDefaults())
    ensures forall k :: k in SeedKeys ==> Present(r, k)
  {
    SeedOne(SeedOne(SeedOne(items, WoodKey, WoodDefaults()), ChemicalsKey, ChemicalDefaults()),
            PharmaKey, PharmaDefaults())
  }

  /** Seeding a second time changes nothing. */
  lemma SeedingIsIdempotent(items: Items)
    ensures SeedDefaults(SeedDefaults(items)) == SeedDefaults(items)
  {
  }

  /** `initializeDefaultData()` */
  method InitializeDefaultData(store: LocalStorage)
    modifies store
    ensures store.items == SeedDefaults(old(store.items))
  {
    if !Present(store.items, WoodKey) {
      store.SetItem(WoodKey, ProductList(WoodDefaults()));
    }
    if !Present(store.items, ChemicalsKey) {
      store.SetItem(ChemicalsKey, ProductList(ChemicalDefaults()));
    }
    if !Present(store.items, PharmaKey) {
      store.SetItem(PharmaKey, ProductList(PharmaDefaults()));
    }
  }

  // ----- product ids and lookups -----

  /** `Math.max(...products.map(p => p.id), 0)` */
  function MaxId(ps: seq<Product>): (m: int)
    ensures m >= 0
    ensures forall i :: 0 <= i < |ps| ==> ps[i].id <= m
    ensures m == 0 || exists i :: 0 <= i < |ps| && ps[i].id == m
  {
    if ps == [] then 0
    else
      var rest := MaxId(ps[1..]);
      assert forall i :: 1 <= i < |ps| ==> ps[i] == ps[1..][i - 1];
      if ps[0].id > rest then ps[0].id else rest
  }

  /** The id `addProduct` gives a new product: larger than every id in the list. */
  function NextId(ps: seq<Product>): (r: int)
    ensures r >= 1
    ensures forall i :: 0 <= i < |ps| ==> ps[i].id < r
    ensures ps == [] ==> r == 1
  {
    MaxId(ps) + 1
  }

  /** The product at index `i` is the first one whose id is `id` (`products.find`). */
  predicate FirstWithId(ps: seq<Product>, id: int, i: int)
  {
    0 <= i < |ps| && ps[i].id == id && forall j :: 0 <= j < i ==> ps[j].id != id
  }

  /** The index `products.find(p => p.id === id)` lands on, if any. */
  function FindIndex(ps: seq<Product>, id: int): (r: Option<nat>)
    ensures r.None? <==> forall i :: 0 <= i < |ps| ==> ps[i].id != id
    ensures r.Some? ==> FirstWithId(ps, id, r.value)
  {
    if ps == [] then None
    else if ps[0].id == id then Some(0)
    else
      match FindIndex(ps[1..], id)
      case None =>
        assert forall i :: 1 <= i < |ps| ==> ps[i] == ps[1..][i - 1];
        None
      case Some(k) =>
        assert forall j :: 1 <= j < k + 1 ==> ps[j] == ps[1..][j - 1];
        Some(k + 1)
  }

  lemma FirstWithIdUnique(ps: seq<Product>, id: int, i: int, j: int)
    requires FirstWithId(ps, id, i) && FirstWithId(ps, id, j)
    ensures i == j
  {
  }

  // ----- add -----

  /** `addProduct(category)`; `answer` is what `prompt` returned, `None` when it was cancelled. */
  method AddProduct(store: LocalStorage, category: string, answer: Option<string>)
    modifies store
    ensures answer.None? || answer.value == "" ==> store.items == old(store.items)
    ensures answer.Some? && answer.value != "" ==>
      var ps := ProductsAt(old(store.items), ProductKey(category));
      store.items == old(store.items)[ProductKey(category) :=
        ProductList(ps + [Product(NextId(ps), answer.value, category, "Active")])]
  {
    if answer.None? || answer.value == "" {
      return;
    }
    var key := ProductKey(category);
    var products := ProductsAt(store.items, key);
    var newProduct := Product(NextId(products), answer.value, category, "Active");
    products := products + [newProduct];
    store.SetItem(key, ProductList(products));
  }

  // ----- rename -----

  /** The list after `product.name = name` on the first product with that id. */
  function Renamed(ps: seq<Product>, id: int, name: string): (r: seq<Product>)
    ensures |r| == |ps|
    ensures forall i :: 0 <= i < |ps| ==>
      r[i] == if FirstWithId(ps, id, i) then ps[i].(name := name) else ps[i]
  {
    match FindIndex(ps, id)
    case None => ps
    case Some(i) => ps[i := ps[i].(name := name)]
  }

  /** `editProduct(category, id)`; `answer` is what `prompt` returned. */
  method EditProduct(store: LocalStorage, category: string, id: int, answer: Option<string>)
    modifies store
    ensures var ps := ProductsAt(old(store.items), ProductKey(category));
      store.items ==
        if FindIndex(ps, id).None? || answer.None? || answer.value == "" then old(store.items)
        else old(store.items)[ProductKey(category) := ProductList(Renamed(ps, id, answer.value))]
  {
    var key := ProductKey(category);
    var products := ProductsAt(store.items, key);
    var found := FindIndex(products, id);
    if found.None? {
      return;
    }
    if answer.None? || answer.value == "" {
      return;
    }
    var i := found.value;
    products := products[i := products[i].(name := answer.value)];
    store.SetItem(key, ProductList(products));
  }

  // ----- delete -----

  /** `products.filter(p => p.id !== id)` */
  function Without(ps: seq<Product>, id: int): (r: seq<Product>)
    ensures |r| <= |ps|
    ensures forall p :: p in r <==> p in ps && p.id != id
  {
    if ps == [] then []
    else
      assert forall p :: p in ps <==> p == ps[0] || p in ps[1..];
      (if ps[0].id == id then [] else [ps[0]]) + Without(ps[1..], id)
  }

  /** Filtering distributes over concatenation, so the kept products stay in their order. */
  lemma {:induction false} WithoutAppend(a: seq<Product>, b: seq<Product>, id: int)
    ensures Without(a + b, id) == Without(a, id) + Without(b, id)
  {
    if a != [] {
      assert (a + b)[1..] == a[1..] + b;
      WithoutAppend(a[1..], b, id);
    } else {
      assert a + b == b;
    }
  }

  /** Deleting an id nobody has leaves the list as it was. */
  lemma {:induction false} WithoutAbsentId(ps: seq<Product>, id: int)
    requires forall i :: 0 <= i < |ps| ==> ps[i].id != id
    ensures Without(ps, id) == ps
  {
    if ps != [] {
      WithoutAbsentId(ps[1..], id);
    }
  }

  /** Deleting the product just added, by its fresh id, restores the list. */
  lemma AddThenDeleteRestores(ps: seq<Product>, name: string, category: string)
    ensures Without(ps + [Product(NextId(ps), name, category, "Active")], NextId(ps)) == ps
  {
    var p := Product(NextId(ps), name, category, "Active");
    WithoutAppend(ps, [p], NextId(ps));
    WithoutAbsentId(ps, NextId(ps));
  }

  /** `deleteProduct(category, id)`; `confirmed` is what `confirm` returned. */
  method DeleteProduct(store: LocalStorage, category: string, id: int, confirmed: bool)
    modifies store
    ensures !confirmed ==> store.items == old(store.items)
    ensures confirmed ==> store.items == old(store.items)[ProductKey(category) :=
      ProductList(Without(ProductsAt(old(store.items), ProductKey(category)), id))]
  {
    if !confirmed {
      return;
    }
    var key := ProductKey(category);
    var products := ProductsAt(store.items, key);
    products := Without(products, id);
    store.SetItem(key, ProductList(products));
  }

  // ----- status toggle -----

  function Toggled(status: string): (r: string)
    ensures r == "Inactive" <==> status == "Active"
    ensures r == "Active" || r == "Inactive"
  {
    if status == "Active" then "Inactive" else "Active"
  }

  /** The list after the first product with that id has its status flipped. */
  function ToggledAt(ps: seq<Product>, id: int): (r: seq<Product>)
    ensures |r| == |ps|
    ensures forall i :: 0 <= i < |ps| ==>
      r[i] == if FirstWithId(ps, id, i) then ps[i].(status := Toggled(ps[i].status)) else ps[i]
  {
    match FindIndex(ps, id)
    case None => ps
    case Some(i) => ps[i := ps[i].(status := Toggled(ps[i].status))]
  }

  /** When every status is "Active" or "Inactive", toggling twice restores the list. */
  lemma ToggleTwiceRestores(ps: seq<Product>, id: int)
    requires forall i :: 0 <= i < |ps| ==> ps[i].status == "Active" || ps[i].status == "Inactive"
    ensures ToggledAt(ToggledAt(ps, id), id) == ps
  {
    var once := ToggledAt(ps, id);
    assert forall i :: 0 <= i < |ps| ==> once[i].id == ps[i].id;
    assert forall i :: FirstWithId(once, id, i) <==> FirstWithId(ps, id, i);
  }

  /** `toggleProductStatus(category, id)` */
  method ToggleProductStatus(store: LocalStorage, category: string, id: int)
    modifies store
    ensures var ps := ProductsAt(old(store.items), ProductKey(category));
      store.items ==
        if FindIndex(ps, id).None? then old(store.items)
        else old(store.items)[ProductKey(category) := ProductList(ToggledAt(ps, id))]
  {
    var key := ProductKey(category);
    var products := ProductsAt(store.items, key);
    var found := FindIndex(products, id);
    if found.Some? {
      var i := found.value;
      products := products[i := products[i].(status := Toggled(products[i].status))];
      store.SetItem(key, ProductList(products));
    }
  }

  // ----- leads table and distribution -----

  function Reverse<T>(s: seq<T>): (r: seq<T>)
    ensures |r| == |s|
    ensures forall i :: 0 <= i < |s| ==> r[i] == s[|s| - 1 - i]
  {
    if s == [] then [] else Reverse(s[1..]) + [s[0]]
  }

  /** `leads.slice(-5).reverse()`: the last five leads, newest first. */
  function RecentLeads(leads: seq<Submission>): (r: seq<Submission>)
    ensures |r| == if |leads| < 5 then |leads| else 5
    ensures forall i :: 0 <= i < |r| ==> r[i] == leads[|leads| - 1 - i]
  {
    var start := if |leads| > 5 then |leads| - 5 else 0;
    Reverse(leads[start..])
  }

  /** The rows `loadLeadsTable` renders; an empty result is the "No leads yet" row. */
  function LeadsTable(items: Items): seq<Submission>
  {
    RecentLeads(SubmissionsAt(items, LeadsKey))
  }

  const InterestBuckets: seq<string> :=
    ["Wood Products", "Chemical Products", "Pharmaceutical Products", "All"]

  /** `lead.interest`; only records of the hero form carry one. */
  function InterestOf(s: Submission): Option<string>
  {
    if s.Lead? then Some(s.interest) else None
  }

  /** How many of the leads name `bucket` as their interest. */
  function InterestCount(leads: seq<Submission>, bucket: string): nat
  {
    if leads == [] then 0
    else InterestCount(leads[..|leads| - 1], bucket)
         + (if InterestOf(leads[|leads| - 1]) == Some(bucket) then 1 else 0)
  }

  /** The counting part of `updateDistributionChart(leads)`. */
  method Distribution(leads: seq<Submission>) returns (d: map<string, nat>)
    ensures d.Keys == set b | b in InterestBuckets
    ensures forall b :: b in d ==> d[b] == InterestCount(leads, b)
  {
    d := map[InterestBuckets[0] := 0, InterestBuckets[1] := 0,
             InterestBuckets[2] := 0, InterestBuckets[3] := 0];
    var i := 0;
    while i < |leads|
      invariant 0 <= i <= |leads|
      invariant d.Keys == set b | b in InterestBuckets
      invariant forall b :: b in d ==> d[b] == InterestCount(leads[..i], b)
    {
      assert leads[..i + 1][..i] == leads[..i];
      var lead := leads[i];
      if lead.Lead? && lead.interest in d {
        d := d[lead.interest := d[lead.interest] + 1];
      }
      i := i + 1;
    }
    assert leads[..i] == leads;
  }

  function BucketTotal(leads: seq<Submission>): nat
  {
    InterestCount(leads, InterestBuckets[0]) + InterestCount(leads, InterestBuckets[1])
    + InterestCount(leads, InterestBuckets[2]) + InterestCount(leads, InterestBuckets[3])
  }

  /** Each lead lands in at most one bucket, so the buckets never add up to more than the leads. */
  lemma {:induction false} BucketTotalAtMostLeads(leads: seq<Submission>)
    ensures BucketTotal(leads) <= |leads|
  {
    if leads != [] {
      BucketTotalAtMostLeads(leads[..|leads| - 1]);
    }
  }

  // ----- authentication and welcome -----

  /** `localStorage.getItem('isLoggedIn') === 'true'` */
  predicate IsLoggedIn(items: Items)
  {
    TextAt(items, AuthKey) == Some("true")
  }

  /** `checkAuth()`: the page it redirects to, if any. */
  method CheckAuth(store: LocalStorage) returns (redirect: Option<string>)
    ensures redirect.None? <==> IsLoggedIn(store.items)
    ensures redirect.Some? ==> redirect.value == LoginPage
  {
    var isLoggedIn := TextAt(store.items, AuthKey) == Some("true");
    if !isLoggedIn {
      redirect := Some(LoginPage);
    } else {
      redirect := None;
    }
  }

  /** `logout()`; `confirmed` is what `confirm` returned. */
  method Logout(store: LocalStorage, confirmed: bool) returns (redirect: Option<string>)
    modifies store
    ensures !confirmed ==> store.items == old(store.items) && redirect.None?
    ensures confirmed ==> store.items == old(store.items) - {AuthKey, EmailKey}
                          && redirect == Some(LoginPage)
    ensures confirmed ==> !IsLoggedIn(store.items)
  {
    redirect := None;
    if confirmed {
      store.RemoveItem(AuthKey);
      store.RemoveItem(EmailKey);
      redirect := Some(LoginPage);
    }
  }

  /** `localStorage.getItem('adminEmail') || 'Admin'` */
  function AdminEmail(items: Items): string
  {
    var stored := TextAt(items, EmailKey);
    if stored.Some? && stored.value != "" then stored.value else "Admin"
  }

  /** The text `loadWelcomeMessage` shows: the stored e-mail up to its first '@'. */
  function WelcomeName(items: Items): (r: string)
    ensures '@' !in r
    ensures Strings.StartsWith(AdminEmail(items), r)
    ensures |r| < |AdminEmail(items)| ==> AdminEmail(items)[|r|] == '@'
  {
    Strings.BeforeFirst(AdminEmail(items), '@')
  }

  /** Without a stored e-mail the dashboard greets "Admin". */
  lemma WelcomeWithoutEmail(items: Items)
    requires EmailKey !in items
    ensures WelcomeName(items) == "Admin"
  {
    assert '@' !in "Admin";
  }
}
