/** What the shop page shows for the catalog as shipped: the category
    counts, the price buckets, the featured list, the stock badges, the star
    rows and the effect of each sort key. Each fact is proved for any list
    with the shipped names, prices, ratings and stock levels, and then for the
    catalog itself. */
module CatalogFacts {
  import opened Types
  import opened Seqs
  import opened Strings
  import opened Products
  import opened Sorting
  import opened Shop
  import opened ProductCard

  /** The fields of the catalog that the shop page and the cards look at. */
  predicate Shipped(s: seq<Product>)
  {
    |s| == 5 &&
    s[0].name == "Dried Managu" && s[1].name == "Dried Saaga" && s[2].name == "Dried Amaranth" &&
    s[3].name == "Dried Mushrooms" && s[4].name == "Powdered Pumpkin" &&
    s[0].rating == 48 && s[1].rating == 47 && s[2].rating == 49 && s[3].rating == 46 && s[4].rating == 47 &&
    s[0].inStock == 15 && s[1].inStock == 8 && s[2].inStock == 22 && s[3].inStock == 5 && s[4].inStock == 18 &&
    forall k :: 0 <= k < |s| ==> s[k].price50 == 200
  }

  lemma CatalogShipped()
    ensures Shipped(Catalog)
  {
  }

  // ---------------------------------------------------------------------------
  // Category membership of the five names
  // ---------------------------------------------------------------------------

  lemma MushroomsIsMushroom(p: Product)
    requires p.name == "Dried Mushrooms"
    ensures IsMushroom(p)
  {
    ContainsAt(p.name, "Mushroom", 6);
  }

  lemma PumpkinIsPowder(p: Product)
    requires p.name == "Powdered Pumpkin"
    ensures IsPowder(p)
  {
    ContainsAt(p.name, "Powder", 0);
  }

  // ---------------------------------------------------------------------------
  // Facts about any list shaped like the catalog
  // ---------------------------------------------------------------------------

  lemma ShippedLeafyGreens(s: seq<Product>)
    requires Shipped(s)
    ensures Filter(s, IsLeafyGreen) == [] && Selected(s, "", "leafy-greens", "all") == []
  {
    forall p | p in s ensures !IsLeafyGreen(p) {
      var k :| 0 <= k < |s| && s[k] == p;
    }
    CategoryCount(s, "leafy-greens", IsLeafyGreen);
  }

  lemma ShippedPowders(s: seq<Product>)
    requires Shipped(s)
    ensures Filter(s, IsPowder) == [s[4]]
  {
    // The other four names have no 'P'.
    forall k | 0 <= k < |s| && k != 4 ensures !IsPowder(s[k]) {
      assert k == 0 || k == 1 || k == 2 || k == 3;
      AbsentChar(s[k].name, "Powder", 0);
    }
    PumpkinIsPowder(s[4]);
    FilterKeepOne(s, IsPowder, 4);
  }

  lemma ShippedMushrooms(s: seq<Product>)
    requires Shipped(s)
    ensures Filter(s, IsMushroom) == [s[3]]
  {
    // The other four names have no 's'.
    forall k | 0 <= k < |s| && k != 3 ensures !IsMushroom(s[k]) {
      assert k == 0 || k == 1 || k == 2 || k == 4;
      AbsentChar(s[k].name, "Mushroom", 2);
    }
    MushroomsIsMushroom(s[3]);
    FilterKeepOne(s, IsMushroom, 3);
  }

  lemma ShippedCategories(s: seq<Product>)
    requires Shipped(s)
    ensures Categories(s) == [Category("all", "All Products", 5),
                              Category("leafy-greens", "Leafy Greens", 0),
                              Category("powders", "Vegetable Powders", 1),
                              Category("mushrooms", "Mushrooms", 1)]
  {
    ShippedLeafyGreens(s);
    ShippedPowders(s);
    ShippedMushrooms(s);
  }

  lemma ShippedBuckets(s: seq<Product>)
    requires Shipped(s)
    ensures Selected(s, "", "all", "0-200") == s
    ensures Selected(s, "", "all", "200-400") == []
    ensures Selected(s, "", "all", "400+") == []
  {
    forall p | p in s ensures p.price50 == 200 {
      var k :| 0 <= k < |s| && s[k] == p;
    }
    assert forall p :: p in s ==> Kept("", "all", "0-200", p);
    assert forall p :: p in s ==> !Kept("", "all", "200-400", p);
    assert forall p :: p in s ==> !Kept("", "all", "400+", p);
  }

  lemma ShippedFeatured(s: seq<Product>)
    requires Shipped(s)
    ensures Featured(s) == s[..3]
  {
    FilterDropOne(s, TopRated, 3);
    assert (s[..3] + s[4..])[..3] == s[..3];
  }

  lemma ShippedPriceSorts(s: seq<Product>)
    requires Shipped(s)
    ensures Arranged(s, "price-low") == s && Arranged(s, "price-high") == s
  {
    assert Sorted(PriceLow, s) && Sorted(PriceHigh, s);
    SortedUnchanged(PriceLow, s);
    SortedUnchanged(PriceHigh, s);
  }

  lemma ShippedRatingSort(s: seq<Product>)
    requires Shipped(s)
    ensures Arranged(s, "rating") == [s[2], s[0], s[1], s[4], s[3]]
  {
    assert s == [s[0], s[1], s[2], s[3], s[4]];
    RatingSortOfFive(s[0], s[1], s[2], s[3], s[4]);
  }

  lemma RatingSortOfFive(a: Product, b: Product, c: Product, d: Product, e: Product)
    requires a.rating == 48 && b.rating == 47 && c.rating == 49 && d.rating == 46 && e.rating == 47
    ensures StableSort(ByRating, [a, b, c, d, e]) == [c, a, b, e, d]
  {
    var o := ByRating;
    assert [a, b, c, d, e][1..] == [b, c, d, e] && [b, c, d, e][1..] == [c, d, e];
    assert [c, d, e][1..] == [d, e] && [d, e][1..] == [e] && [e][1..] == [];
    assert StableSort(o, [e]) == [e];
    assert Insert(o, d, [e]) == [e, d] by {
      assert Insert(o, d, []) == [d];
    }
    assert StableSort(o, [c, d, e]) == [c, e, d];
    assert Insert(o, b, [c, e, d]) == [c, b, e, d] by {
      assert [c, e, d][1..] == [e, d];
      assert Insert(o, b, [e, d]) == [b, e, d];
    }
    assert Insert(o, a, [c, b, e, d]) == [c, a, b, e, d] by {
      assert [c, b, e, d][1..] == [b, e, d];
      assert Insert(o, a, [b, e, d]) == [a, b, e, d];
    }
  }

  // ---------------------------------------------------------------------------
  // The catalog
  // ---------------------------------------------------------------------------

  /** No product name is exactly one of the leafy-green names (the catalog
      says "Dried Managu", the list says "Managu"), so the category is empty. */
  lemma LeafyGreensEmpty()
    ensures Filter(Catalog, IsLeafyGreen) == []
    ensures Selected(Catalog, "", "leafy-greens", "all") == []
  {
    CatalogShipped();
    ShippedLeafyGreens(Catalog);
  }

  /** Only the pumpkin powder has "Powder" in its name. */
  lemma PowdersAreThePumpkin()
    ensures Filter(Catalog, IsPowder) == [Catalog[4]]
  {
    CatalogShipped();
    ShippedPowders(Catalog);
  }

  /** Only the mushrooms have "Mushroom" in their name. */
  lemma MushroomsAreTheMushrooms()
    ensures Filter(Catalog, IsMushroom) == [Catalog[3]]
  {
    CatalogShipped();
    ShippedMushrooms(Catalog);
  }

  /** The filter panel shows 5, 0, 1 and 1. */
  lemma CatalogCategories()
    ensures Categories(Catalog) == [Category("all", "All Products", 5),
                                    Category("leafy-greens", "Leafy Greens", 0),
                                    Category("powders", "Vegetable Powders", 1),
                                    Category("mushrooms", "Mushrooms", 1)]
  {
    CatalogShipped();
    ShippedCategories(Catalog);
  }

  /** Every 50g pack costs exactly 200, so the first bucket keeps the whole
      catalog and the other two keep nothing. */
  lemma CatalogBuckets()
    ensures Selected(Catalog, "", "all", "0-200") == Catalog
    ensures Selected(Catalog, "", "all", "200-400") == []
    ensures Selected(Catalog, "", "all", "400+") == []
  {
    CatalogShipped();
    ShippedBuckets(Catalog);
  }

  /** Ratings 4.8, 4.7, 4.9, 4.6, 4.7: the featured list is the first three
      products. */
  lemma CatalogFeatured()
    ensures Featured(Catalog) == Catalog[..3]
  {
    CatalogShipped();
    ShippedFeatured(Catalog);
  }

  /** The badge "Only N left!" appears on the spider plant (8) and the
      mushrooms (5). */
  lemma CatalogLowStock()
    ensures forall k :: 0 <= k < |Catalog| ==> (LowStock(Catalog[k]) <==> k == 1 || k == 3)
  {
    CatalogShipped();
  }

  /** Every rating is between 4.6 and 4.9, so every card fills four stars. */
  lemma CatalogStars()
    ensures forall k :: 0 <= k < |Catalog| ==> FilledStars(Catalog[k]) == 4
  {
    CatalogShipped();
  }

  /** All products share one price, so both price sorts return the catalog
      order unchanged: sorting low-to-high and high-to-low give the same
      list, not reversed ones. */
  lemma PriceSortsKeepCatalogOrder()
    ensures Arranged(Catalog, "price-low") == Catalog
    ensures Arranged(Catalog, "price-high") == Catalog
  {
    CatalogShipped();
    ShippedPriceSorts(Catalog);
  }

  /** By rating: amaranth (4.9), managu (4.8), spider plant and pumpkin
      (4.7, tied, in catalog order), mushrooms (4.6). */
  lemma RatingSortOfCatalog()
    ensures Arranged(Catalog, "rating") == [Catalog[2], Catalog[0], Catalog[1], Catalog[4], Catalog[3]]
  {
    CatalogShipped();
    ShippedRatingSort(Catalog);
  }
}
