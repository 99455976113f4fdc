/** The shop page: the filter-and-sort pipeline over the catalog, the
    category counts, the featured products and the bundle offers. */
module Shop {
  import opened Types
  import opened Wrappers
  import opened Seqs
  import opened Strings
  import opened Sorting
  import opened CartContext

  // ===========================================================================
  // Filter predicates
  // ===========================================================================

  /** The names the leafy-greens category looks for, exactly as listed. */
  const LeafyGreenNames: seq<string> := ["Managu", "Saaga", "Amaranthth"]

  /** Leafy greens are recognised by an exact name in the list. */
  predicate IsLeafyGreen(p: Product)
  {
    p.name in LeafyGreenNames
  }

  predicate IsPowder(p: Product)
  {
    Contains(p.name, "Powder")
  }

  predicate IsMushroom(p: Product)
  {
    Contains(p.name, "Mushroom")
  }

  /** A non-empty search term matches when its lower-cased form occurs in the
      lower-cased name, local name or description. */
  predicate MatchesSearch(term: string, p: Product)
  {
    Contains(Lower(p.name), Lower(term)) ||
    Contains(Lower(p.localName), Lower(term)) ||
    Contains(Lower(p.description), Lower(term))
  }

  /** The empty term is falsy and filters nothing. */
  predicate KeptBySearch(term: string, p: Product)
  {
    term == [] || MatchesSearch(term, p)
  }

  /** `'all'` and every unrecognised category id filter nothing. */
  predicate InCategory(category: string, p: Product)
  {
    if category == "leafy-greens" then IsLeafyGreen(p)
    else if category == "powders" then IsPowder(p)
    else if category == "mushrooms" then IsMushroom(p)
    else true
  }

  predicate Under200(p: Product)
  {
    p.price50 <= 200
  }

  predicate From200To400(p: Product)
  {
    p.price50 > 200 && p.price50 <= 400
  }

  predicate Over400(p: Product)
  {
    p.price50 > 400
  }

  /** The price buckets test the 50g price; `'all'` and every unrecognised
      bucket id filter nothing. */
  predicate InPriceRange(range: string, p: Product)
  {
    if range == "0-200" then Under200(p)
    else if range == "200-400" then From200To400(p)
    else if range == "400+" then Over400(p)
    else true
  }

  /** The three filters combined by AND. */
  predicate Kept(term: string, category: string, range: string, p: Product)
  {
    KeptBySearch(term, p) && InCategory(category, p) && InPriceRange(range, p)
  }

  /** The products the three filters keep, in catalog order. */
  function Selected(catalog: seq<Product>, term: string, category: string, range: string): seq<Product>
  {
    Filter(catalog, (p: Product) => Kept(term, category, range, p))
  }

  /** The ordering a `sortBy` key selects; `'featured'` and every unrecognised
      key select none. */
  function SortOrder(sortBy: string): Option<Order>
  {
    if sortBy == "price-low" then Some(PriceLow)
    else if sortBy == "price-high" then Some(PriceHigh)
    else if sortBy == "rating" then Some(ByRating)
    else if sortBy == "name" then Some(ByName)
    else None
  }

  /** The selected products in the order `sortBy` asks for. */
  function Arranged(s: seq<Product>, sortBy: string): seq<Product>
  {
    match SortOrder(sortBy)
    case Some(o) => StableSort(o, s)
    case None => s
  }

  // ===========================================================================
  // The pipeline
  // ===========================================================================

  /** The effect that recomputes `filteredProducts`: a copy of the catalog is
      narrowed by each active filter in turn and then sorted. The catalog is a
      value and is never changed. */
  method FilterProducts(catalog: seq<Product>, searchTerm: string, category: string,
                        priceRange: string, sortBy: string)
    returns (filtered: seq<Product>)
    ensures filtered == Arranged(Selected(catalog, searchTerm, category, priceRange), sortBy)
  {
    var bySearch := (p: Product) => KeptBySearch(searchTerm, p);
    var byCategory := (p: Product) => KeptBySearch(searchTerm, p) && InCategory(category, p);
    var byAll := (p: Product) => Kept(searchTerm, category, priceRange, p);

    filtered := catalog;
    filtered := NarrowBySearch(filtered, searchTerm);
    filtered := NarrowByCategory(filtered, category);
    FilterFilter(catalog, bySearch, (p: Product) => InCategory(category, p), byCategory);
    filtered := NarrowByPrice(filtered, priceRange);
    FilterFilter(catalog, byCategory, (p: Product) => InPriceRange(priceRange, p), byAll);
    filtered := SortBy(filtered, sortBy);
  }

  /** The search step: only a non-empty term filters. */
  method NarrowBySearch(s: seq<Product>, searchTerm: string) returns (r: seq<Product>)
    ensures r == Filter(s, (p: Product) => KeptBySearch(searchTerm, p))
  {
    r := s;
    if searchTerm != [] {
      r := Filter(r, (p: Product) => MatchesSearch(searchTerm, p));
      FilterCongruent(s, (p: Product) => MatchesSearch(searchTerm, p),
                      (p: Product) => KeptBySearch(searchTerm, p));
    }
  }

  /** The category step: one filter per recognised id, none otherwise. */
  method NarrowByCategory(s: seq<Product>, category: string) returns (r: seq<Product>)
    ensures r == Filter(s, (p: Product) => InCategory(category, p))
  {
    var inCategory := (p: Product) => InCategory(category, p);
    r := s;
    if category != "all" {
      if category == "leafy-greens" {
        r := Filter(r, IsLeafyGreen);
        FilterCongruent(s, IsLeafyGreen, inCategory);
      } else if category == "powders" {
        r := Filter(r, IsPowder);
        FilterCongruent(s, IsPowder, inCategory);
      } else if category == "mushrooms" {
        r := Filter(r, IsMushroom);
        FilterCongruent(s, IsMushroom, inCategory);
      }
    }
  }

  /** The price step: one filter per recognised bucket, none otherwise. */
  method NarrowByPrice(s: seq<Product>, priceRange: string) returns (r: seq<Product>)
    ensures r == Filter(s, (p: Product) => InPriceRange(priceRange, p))
  {
    var inRange := (p: Product) => InPriceRange(priceRange, p);
    r := s;
    if priceRange != "all" {
      if priceRange == "0-200" {
        r := Filter(r, Under200);
        FilterCongruent(s, Under200, inRange);
      } else if priceRange == "200-400" {
        r := Filter(r, From200To400);
        FilterCongruent(s, From200To400, inRange);
      } else if priceRange == "400+" {
        r := Filter(r, Over400);
        FilterCongruent(s, Over400, inRange);
      }
    }
  }

  /** The sort step: one ordering per recognised key, the selection's own
      order otherwise. */
  method SortBy(s: seq<Product>, sortBy: string) returns (r: seq<Product>)
    ensures r == Arranged(s, sortBy)
  {
    r := s;
    if sortBy == "price-low" {
      r := StableSort(PriceLow, r);
    } else if sortBy == "price-high" {
      r := StableSort(PriceHigh, r);
    } else if sortBy == "rating" {
      r := StableSort(ByRating, r);
    } else if sortBy == "name" {
      r := StableSort(ByName, r);
    }
  }

  // ---------------------------------------------------------------------------
  // What the pipeline promises
  // ---------------------------------------------------------------------------

  /** Before sorting, a product is shown iff it is in the catalog and passes
      the search, the category and the price bucket. */
  lemma SelectedMeaning(catalog: seq<Product>, term: string, category: string, range: string, p: Product)
    ensures p in Selected(catalog, term, category, range) <==>
            p in catalog && KeptBySearch(term, p) && InCategory(category, p) && InPriceRange(range, p)
    ensures |Selected(catalog, term, category, range)| <= |catalog|
  {
  }

  /** With no search term, category or price bucket the whole catalog is
      shown in its own order. */
  lemma NoFilterKeepsAll(catalog: seq<Product>)
    ensures Selected(catalog, "", "all", "all") == catalog
  {
  }

  /** A non-empty term keeps exactly the products it matches. */
  lemma SearchKeeps(catalog: seq<Product>, term: string, p: Product)
    requires term != []
    ensures p in Selected(catalog, term, "all", "all") <==> p in catalog && MatchesSearch(term, p)
  {
  }

  /** Searching ignores the case of ASCII letters in the term. */
  lemma SearchIgnoresCase(term: string, p: Product)
    ensures MatchesSearch(Lower(term), p) == MatchesSearch(term, p)
  {
    LowerIdempotent(term);
  }

  /** Every price falls in exactly one bucket. */
  lemma BucketsPartition(p: Product)
    ensures InPriceRange("0-200", p) || InPriceRange("200-400", p) || InPriceRange("400+", p)
    ensures !(InPriceRange("0-200", p) && InPriceRange("200-400", p))
    ensures !(InPriceRange("0-200", p) && InPriceRange("400+", p))
    ensures !(InPriceRange("200-400", p) && InPriceRange("400+", p))
  {
  }

  /** An unrecognised category id, like `'all'`, filters nothing. */
  lemma UnknownCategoryKeepsAll(catalog: seq<Product>, category: string)
    requires category != "leafy-greens" && category != "powders" && category != "mushrooms"
    ensures Selected(catalog, "", category, "all") == catalog
  {
  }

  /** An unrecognised price bucket, like `'all'`, filters nothing. */
  lemma UnknownRangeKeepsAll(catalog: seq<Product>, range: string)
    requires range != "0-200" && range != "200-400" && range != "400+"
    ensures Selected(catalog, "", "all", range) == catalog
  {
  }

  /** The displayed list is a rearrangement of the selected products, ordered
      by the chosen comparator with ties in catalog order; `'featured'` and
      unknown keys keep catalog order. */
  lemma ArrangedMeaning(s: seq<Product>, sortBy: string)
    ensures multiset(Arranged(s, sortBy)) == multiset(s)
    ensures SortOrder(sortBy).Some? ==> Sorted(SortOrder(sortBy).value, Arranged(s, sortBy))
    ensures SortOrder(sortBy).Some? ==>
              forall y :: Ties(SortOrder(sortBy).value, Arranged(s, sortBy), y) ==
                          Ties(SortOrder(sortBy).value, s, y)
    ensures SortOrder(sortBy).None? ==> Arranged(s, sortBy) == s
  {
    if SortOrder(sortBy).Some? {
      var o := SortOrder(sortBy).value;
      SortPermutes(o, s);
      SortSorted(o, s);
      forall y ensures Ties(o, StableSort(o, s), y) == Ties(o, s, y) {
        SortStable(o, s, y);
      }
    }
  }

  // ===========================================================================
  // Category counts and featured products
  // ===========================================================================

  /** A filter-panel entry: its id, its label and the number it shows. */
  datatype Category = Category(id: string, name: string, count: int)

  /** The categories computed from the catalog. */
  function Categories(catalog: seq<Product>): seq<Category>
  {
    [Category("all", "All Products", |catalog|),
     Category("leafy-greens", "Leafy Greens", |Filter(catalog, IsLeafyGreen)|),
     Category("powders", "Vegetable Powders", |Filter(catalog, IsPowder)|),
     Category("mushrooms", "Mushrooms", |Filter(catalog, IsMushroom)|)]
  }

  /** Each count is the number of products the category's filter shows with
      no search term and no price bucket. */
  lemma CategoryCounts(catalog: seq<Product>)
    ensures forall c :: c in Categories(catalog) ==> c.count == |Selected(catalog, "", c.id, "all")|
  {
    var cs := Categories(catalog);
    NoFilterKeepsAll(catalog);
    assert cs[0].count == |Selected(catalog, "", "all", "all")|;
    CategoryCount(catalog, "leafy-greens", IsLeafyGreen);
    CategoryCount(catalog, "powders", IsPowder);
    CategoryCount(catalog, "mushrooms", IsMushroom);
    assert forall c :: c in cs ==> c == cs[0] || c == cs[1] || c == cs[2] || c == cs[3];
  }

  /** A category's own filter and the pipeline agree when nothing else filters. */
  lemma CategoryCount(catalog: seq<Product>, category: string, p: Product -> bool)
    requires forall x :: p(x) == InCategory(category, x)
    ensures Filter(catalog, p) == Selected(catalog, "", category, "all")
  {
    FilterCongruent(catalog, p, (x: Product) => Kept("", category, "all", x));
  }

  predicate TopRated(p: Product)
  {
    p.rating >= 47
  }

  /** The first three products rated 4.7 or more, in catalog order. */
  function Featured(catalog: seq<Product>): seq<Product>
  {
    Take(Filter(catalog, TopRated), 3)
  }

  /** The featured list holds at most three products; they are the leading
      top-rated ones of the catalog, and if fewer than three it is all of them. */
  lemma FeaturedMeaning(catalog: seq<Product>)
    ensures var f := Featured(catalog);
      |f| <= 3 &&
      (forall p :: p in f ==> p in catalog && p.rating >= 47) &&
      f == Filter(catalog, TopRated)[..|f|] &&
      (|f| < 3 ==> f == Filter(catalog, TopRated))
  {
    var f := Featured(catalog);
    forall p | p in f ensures p in Filter(catalog, TopRated) {
      var k :| 0 <= k < |f| && f[k] == p;
      assert f[k] == Filter(catalog, TopRated)[k];
    }
  }

  // ===========================================================================
  // Bundles
  // ===========================================================================

  /** A bundle offer on the shop page. */
  datatype Bundle = Bundle(
    id: string,
    name: string,
    description: string,
    products: seq<string>,
    price: int,
    originalPrice: int,
    savings: int,
    image: string)

  const Bundles: seq<Bundle> := [
    Bundle("starter-pack", "Starter Pack", "Perfect for trying our indigenous vegetables",
           ["Managu", "Saaga"], 350, 400, 50, "/images/Managu-600x400.png"),
    Bundle("family-pack", "Family Pack", "Great value for families",
           ["Managu", "Saaga", "Amaranthth"], 550, 600, 50, "/images/Managu-600x400.png"),
    Bundle("complete-nutrition", "Complete Nutrition", "All our premium products",
           ["Managu", "Saaga", "Amaranthth", "Mushrooms", "Pumpkin Powder"], 900, 1000, 100,
           "/images/Managu-600x400.png")
  ]

  /** Every offer's saving is its original price less its price, it is a real
      discount, and the offers have distinct ids. */
  lemma BundleOffers()
    ensures forall b :: b in Bundles ==> b.savings == b.originalPrice - b.price && b.savings > 0
    ensures forall j, k :: 0 <= j < k < |Bundles| ==> Bundles[j].id != Bundles[k].id
  {
  }

  /** What "Add Bundle to Cart" sends: one unit of the offer, with its own id,
      name, price, image, product names and saving. */
  function BundlePayload(b: Bundle): BundleItem
  {
    BundleItem(b.id, b.name, b.price, 1, b.image, b.products, b.savings)
  }

  /** The button's handler: the cart count grows by exactly one and the
      bundle line for the offer is created or bumped. */
  method AddBundle(cart: Cart, b: Bundle)
    requires cart.Valid()
    modifies cart
    ensures cart.Valid()
    ensures cart.bundleItems == AddedBundles(old(cart.bundleItems), BundlePayload(b))
    ensures cart.cartItems == old(cart.cartItems)
    ensures cart.TotalItems() == old(cart.TotalItems()) + 1
  {
    cart.AddBundleToCart(BundlePayload(b));
  }

  /** Pressing the button for an offer already in the cart adds one to its
      quantity and leaves the other bundles alone. */
  lemma AddBundleAgain(bundles: seq<BundleItem>, b: Bundle, j: nat)
    requires BundleIdsUnique(bundles)
    requires j < |bundles| && bundles[j].id == b.id
    ensures AddedBundles(bundles, BundlePayload(b)) ==
            bundles[j := bundles[j].(quantity := bundles[j].quantity + 1)]
  {
    AddExistingBundle(bundles, BundlePayload(b), j);
  }
}
