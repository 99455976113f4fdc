/** The cart state manager: two ordered lists, product lines keyed by
    `(id, selectedWeight)` and bundles keyed by `id`. Each operation replaces a
    list by a new one computed with `find`, `map`, `filter` or `concat`; the
    totals are folds over both lists. */
module CartContext {
  import opened Types
  import opened Wrappers
  import opened Seqs

  /** A bundle in the cart. */
  datatype BundleItem = BundleItem(
    id: string,
    name: string,
    price: int,
    quantity: int,
    image: string,
    products: seq<string>,
    savings: int)

  // ===========================================================================
  // Product lines
  // ===========================================================================

  /** `i.id === id && i.selectedWeight === weight`: the removal and update
      operations take the weight as a string, so a line is matched by label. */
  predicate Matches(i: CartItem, id: int, weight: string)
  {
    i.id == id && WeightLabel(i.selectedWeight) == weight
  }

  /** Two lines with the same key. */
  predicate SameLine(a: CartItem, b: CartItem)
  {
    Matches(a, b.id, WeightLabel(b.selectedWeight))
  }

  /** No key occurs twice. */
  predicate LinesUnique(items: seq<CartItem>)
  {
    forall j, k :: 0 <= j < k < |items| ==> !SameLine(items[j], items[k])
  }

  function FindLine(items: seq<CartItem>, id: int, weight: string): Option<CartItem>
  {
    Find(items, (i: CartItem) => Matches(i, id, weight))
  }

  /** The line after `item`'s quantity is merged into it, if it has `item`'s key. */
  function Bump(i: CartItem, item: CartItem): CartItem
  {
    if SameLine(i, item) then i.(quantity := i.quantity + item.quantity) else i
  }

  /** `addToCart(item)`: merge into the line with the same key, or append. */
  function AddedLines(items: seq<CartItem>, item: CartItem): seq<CartItem>
  {
    match FindLine(items, item.id, WeightLabel(item.selectedWeight))
    case Some(_) => Map(items, (i: CartItem) => Bump(i, item))
    case None => items + [item]
  }

  /** `removeFromCart(id, weight)`: keep the lines with a different key. */
  function RemovedLines(items: seq<CartItem>, id: int, weight: string): seq<CartItem>
  {
    Filter(items, (i: CartItem) => !Matches(i, id, weight))
  }

  /** `updateQuantity(id, weight, quantity)`: set the quantity of the matching
      line, whatever the value (callers do any clamping). */
  function UpdatedLines(items: seq<CartItem>, id: int, weight: string, quantity: int): seq<CartItem>
  {
    Map(items, (i: CartItem) => if Matches(i, id, weight) then i.(quantity := quantity) else i)
  }

  function Quantity(i: CartItem): int
  {
    i.quantity
  }

  function LinePrice(i: CartItem): int
  {
    i.price * i.quantity
  }

  /** Sum of the line quantities. */
  function QuantitySum(items: seq<CartItem>): int
  {
    SumOf(items, Quantity)
  }

  /** Sum of price times quantity over the lines. */
  function LinePriceSum(items: seq<CartItem>): int
  {
    SumOf(items, LinePrice)
  }

  // ---------------------------------------------------------------------------
  // Properties of the product-line operations
  // ---------------------------------------------------------------------------

  /** With unique keys, a matching line is the only one. */
  lemma OnlyMatch(items: seq<CartItem>, id: int, weight: string, j: nat)
    requires LinesUnique(items)
    requires j < |items| && Matches(items[j], id, weight)
    ensures forall k :: 0 <= k < |items| && k != j ==> !Matches(items[k], id, weight)
  {
    forall k | 0 <= k < |items| && k != j
      ensures !Matches(items[k], id, weight)
    {
      if j < k {
        assert !SameLine(items[j], items[k]);
      } else {
        assert !SameLine(items[k], items[j]);
      }
    }
  }

  /** A new key is appended: the list grows by one and its prefix is unchanged. */
  lemma AddNewLine(items: seq<CartItem>, item: CartItem)
    requires forall k :: 0 <= k < |items| ==> !SameLine(items[k], item)
    ensures AddedLines(items, item) == items + [item]
    ensures |AddedLines(items, item)| == |items| + 1
  {
    assert forall x :: x in items ==> !Matches(x, item.id, WeightLabel(item.selectedWeight));
  }

  /** An existing key has `item.quantity` added to its quantity; the length
      and every other line are unchanged. */
  lemma AddExistingLine(items: seq<CartItem>, item: CartItem, j: nat)
    requires LinesUnique(items)
    requires j < |items| && SameLine(items[j], item)
    ensures AddedLines(items, item) == items[j := items[j].(quantity := items[j].quantity + item.quantity)]
  {
    assert items[j] in items;
    assert FindLine(items, item.id, WeightLabel(item.selectedWeight)).Some?;
    OnlyMatch(items, item.id, WeightLabel(item.selectedWeight), j);
  }

  /** The line that `find` returns is one with the key, hence its index. */
  lemma FoundLine(items: seq<CartItem>, item: CartItem) returns (j: nat)
    requires FindLine(items, item.id, WeightLabel(item.selectedWeight)).Some?
    ensures j < |items| && SameLine(items[j], item)
    ensures items[j] == FindLine(items, item.id, WeightLabel(item.selectedWeight)).value
  {
    var p := (i: CartItem) => Matches(i, item.id, WeightLabel(item.selectedWeight));
    var k :| 0 <= k < |items| && items[k] == Find(items, p).value && p(items[k]);
    j := k;
  }

  /** Adding keeps keys unique. */
  lemma AddKeepsUnique(items: seq<CartItem>, item: CartItem)
    requires LinesUnique(items)
    ensures LinesUnique(AddedLines(items, item))
  {
    if FindLine(items, item.id, WeightLabel(item.selectedWeight)).Some? {
      var j := FoundLine(items, item);
      AddExistingLine(items, item, j);
    } else {
      assert forall k :: 0 <= k < |items| ==> items[k] in items;
      AddNewLine(items, item);
    }
  }

  /** Adding raises the total quantity by exactly `item.quantity`. */
  lemma AddQuantityTotal(items: seq<CartItem>, item: CartItem)
    requires LinesUnique(items)
    ensures QuantitySum(AddedLines(items, item)) == QuantitySum(items) + item.quantity
  {
    if FindLine(items, item.id, WeightLabel(item.selectedWeight)).Some? {
      var j := FoundLine(items, item);
      AddExistingLine(items, item, j);
      SumOfUpdate(items, j, items[j].(quantity := items[j].quantity + item.quantity), Quantity);
    } else {
      assert forall k :: 0 <= k < |items| ==> items[k] in items;
      AddNewLine(items, item);
      SumOfConcat(items, [item], Quantity);
    }
  }

  /** Adding raises the price total by `item.quantity` times the unit price of
      the line that receives it: the existing line's copied price when the key
      is present, `item.price` otherwise. */
  lemma AddPriceTotal(items: seq<CartItem>, item: CartItem)
    requires LinesUnique(items)
    ensures LinePriceSum(AddedLines(items, item)) ==
            LinePriceSum(items) +
            (match FindLine(items, item.id, WeightLabel(item.selectedWeight))
             case Some(e) => e.price
             case None => item.price) * item.quantity
  {
    if FindLine(items, item.id, WeightLabel(item.selectedWeight)).Some? {
      var j := FoundLine(items, item);
      AddExistingPrice(items, item, j);
    } else {
      AddNewPrice(items, item);
    }
  }

  lemma AddExistingPrice(items: seq<CartItem>, item: CartItem, j: nat)
    requires LinesUnique(items)
    requires j < |items| && SameLine(items[j], item)
    ensures LinePriceSum(AddedLines(items, item)) == LinePriceSum(items) + items[j].price * item.quantity
  {
    AddExistingLine(items, item, j);
    var x := items[j].(quantity := items[j].quantity + item.quantity);
    SumOfUpdate(items, j, x, LinePrice);
    LinePriceBump(items[j], item.quantity);
  }

  /** `q` more units of a line add `q` times its unit price. */
  lemma LinePriceBump(x: CartItem, q: int)
    ensures LinePrice(x.(quantity := x.quantity + q)) == LinePrice(x) + x.price * q
  {
    assert x.price * (x.quantity + q) == x.price * x.quantity + x.price * q;
  }

  lemma AddNewPrice(items: seq<CartItem>, item: CartItem)
    requires FindLine(items, item.id, WeightLabel(item.selectedWeight)).None?
    ensures LinePriceSum(AddedLines(items, item)) == LinePriceSum(items) + item.price * item.quantity
  {
    assert forall k :: 0 <= k < |items| ==> items[k] in items;
    AddNewLine(items, item);
    SumOfConcat(items, [item], LinePrice);
    assert SumOf([item], LinePrice) == LinePrice(item) + SumOf([item][1..], LinePrice);
  }

  /** `addToCart` applied to each element of `adds` in turn. */
  function AddAll(items: seq<CartItem>, adds: seq<CartItem>): seq<CartItem>
    decreases |adds|
  {
    if adds == [] then items else AddAll(AddedLines(items, adds[0]), adds[1..])
  }

  /** Repeated additions with one key leave one line whose quantity is the sum
      of the added quantities, starting from a cart holding only that key. */
  lemma {:induction false} AddAllSameKey(x: CartItem, adds: seq<CartItem>)
    requires forall k :: 0 <= k < |adds| ==> SameLine(x, adds[k])
    ensures AddAll([x], adds) == [x.(quantity := x.quantity + QuantitySum(adds))]
    decreases |adds|
  {
    if adds != [] {
      var y := x.(quantity := x.quantity + adds[0].quantity);
      BumpOnly(x, adds[0]);
      assert AddAll([x], adds) == AddAll([y], adds[1..]);
      var rest := adds[1..];
      forall k | 0 <= k < |rest| ensures SameLine(y, rest[k]) {
        assert rest[k] == adds[k + 1];
      }
      AddAllSameKey(y, rest);
      assert QuantitySum(adds) == adds[0].quantity + QuantitySum(rest);
    }
  }

  /** The cart with `n` more units on line `j`. */
  function Raised(items: seq<CartItem>, j: nat, n: int): seq<CartItem>
    requires j < |items|
  {
    items[j := items[j].(quantity := items[j].quantity + n)]
  }

  /** Repeated additions with the key of an existing line, in a cart with
      unique keys, add their summed quantity to that line and change nothing else. */
  lemma {:induction false} AddAllExistingKey(items: seq<CartItem>, adds: seq<CartItem>, j: nat)
    requires LinesUnique(items) && j < |items|
    requires forall k :: 0 <= k < |adds| ==> SameLine(items[j], adds[k])
    ensures AddAll(items, adds) == Raised(items, j, QuantitySum(adds))
    decreases |adds|
  {
    if adds == [] {
      assert Raised(items, j, 0) == items;
    } else {
      var next := BumpStep(items, adds, j);
      AddAllExistingKey(next, adds[1..], j);
    }
  }

  /** One step of `AddAllExistingKey`: after the first addition the keys are
      still unique, line `j` still has the key of the rest, and the sum left
      to add is that of the rest. */
  lemma BumpStep(items: seq<CartItem>, adds: seq<CartItem>, j: nat) returns (next: seq<CartItem>)
    requires LinesUnique(items) && j < |items| && adds != []
    requires forall k :: 0 <= k < |adds| ==> SameLine(items[j], adds[k])
    ensures LinesUnique(next) && j < |next|
    ensures forall k :: 0 <= k < |adds[1..]| ==> SameLine(next[j], adds[1..][k])
    ensures AddAll(items, adds) == AddAll(next, adds[1..])
    ensures Raised(next, j, QuantitySum(adds[1..])) == Raised(items, j, QuantitySum(adds))
  {
    next := Raised(items, j, adds[0].quantity);
    RaisedKeepsUnique(items, j, adds[0].quantity);
    RaisedKeepsKey(items, adds, j);
    AddAllStep(items, adds, j);
    RaisedTwice(items, j, adds[0].quantity, QuantitySum(adds[1..]));
    assert QuantitySum(adds) == adds[0].quantity + QuantitySum(adds[1..]);
  }

  /** The first addition of `AddAllExistingKey` raises line `j`. */
  lemma AddAllStep(items: seq<CartItem>, adds: seq<CartItem>, j: nat)
    requires LinesUnique(items) && j < |items| && adds != [] && SameLine(items[j], adds[0])
    ensures AddAll(items, adds) == AddAll(Raised(items, j, adds[0].quantity), adds[1..])
  {
    AddRaises(items, adds[0], j);
  }

  /** The raised line keeps the key the remaining additions share. */
  lemma RaisedKeepsKey(items: seq<CartItem>, adds: seq<CartItem>, j: nat)
    requires j < |items| && adds != []
    requires forall k :: 0 <= k < |adds| ==> SameLine(items[j], adds[k])
    ensures forall k :: 0 <= k < |adds[1..]| ==> SameLine(Raised(items, j, adds[0].quantity)[j], adds[1..][k])
  {
    var rest := adds[1..];
    forall k | 0 <= k < |rest| ensures SameLine(Raised(items, j, adds[0].quantity)[j], rest[k]) {
      assert rest[k] == adds[k + 1];
    }
  }

  /** `AddExistingLine`, written with `Raised`. */
  lemma AddRaises(items: seq<CartItem>, a: CartItem, j: nat)
    requires LinesUnique(items) && j < |items| && SameLine(items[j], a)
    ensures AddedLines(items, a) == Raised(items, j, a.quantity)
  {
    AddExistingLine(items, a, j);
  }

  /** Raising a quantity changes no key. */
  lemma RaisedKeepsUnique(items: seq<CartItem>, j: nat, n: int)
    requires LinesUnique(items) && j < |items|
    ensures LinesUnique(Raised(items, j, n))
  {
    var r := Raised(items, j, n);
    forall a, b | 0 <= a < b < |r| ensures !SameLine(r[a], r[b]) {
      assert !SameLine(items[a], items[b]);
    }
  }

  /** Raising a line twice raises it by the sum. */
  lemma RaisedTwice(items: seq<CartItem>, j: nat, a: int, b: int)
    requires j < |items|
    ensures Raised(Raised(items, j, a), j, b) == Raised(items, j, a + b)
  {
  }

  /** Adding to a one-line cart with the same key bumps that line. */
  lemma BumpOnly(x: CartItem, a: CartItem)
    requires SameLine(x, a)
    ensures AddedLines([x], a) == [x.(quantity := x.quantity + a.quantity)]
  {
    AddExistingLine([x], a, 0);
    assert [x][0 := x.(quantity := x.quantity + a.quantity)] == [x.(quantity := x.quantity + a.quantity)];
  }

  /** The first addition to an empty cart creates a line equal to the item. */
  lemma AddAllFirst(x: CartItem, rest: seq<CartItem>)
    ensures AddAll([], [x] + rest) == AddAll([x], rest)
  {
    var adds := [x] + rest;
    assert adds[0] == x && adds[1..] == rest;
    assert AddedLines([], x) == [x];
  }

  /** Starting from an empty cart, adding `x` and then items with the same key
      yields one line whose quantity is the sum of all added quantities. */
  lemma AddAllFromEmpty(x: CartItem, rest: seq<CartItem>)
    requires forall k :: 0 <= k < |rest| ==> SameLine(x, rest[k])
    ensures AddAll([], [x] + rest) == [x.(quantity := x.quantity + QuantitySum(rest))]
  {
    AddAllFirst(x, rest);
    AddAllSameKey(x, rest);
  }

  /** Removing a missing key leaves the list unchanged. */
  lemma RemoveMissingLine(items: seq<CartItem>, id: int, weight: string)
    requires forall k :: 0 <= k < |items| ==> !Matches(items[k], id, weight)
    ensures RemovedLines(items, id, weight) == items
  {
  }

  /** Removing a present key drops exactly that line and keeps the others in order. */
  lemma RemoveLine(items: seq<CartItem>, id: int, weight: string, j: nat)
    requires LinesUnique(items)
    requires j < |items| && Matches(items[j], id, weight)
    ensures RemovedLines(items, id, weight) == items[..j] + items[j + 1..]
  {
    OnlyMatch(items, id, weight, j);
    FilterDropOne(items, (i: CartItem) => !Matches(i, id, weight), j);
  }

  /** Keys stay unique after a removal. */
  lemma {:induction false} RemoveKeepsUnique(items: seq<CartItem>, id: int, weight: string)
    requires LinesUnique(items)
    ensures LinesUnique(RemovedLines(items, id, weight))
  {
    if items != [] {
      var tail := items[1..];
      assert LinesUnique(tail) by {
        forall j, k | 0 <= j < k < |tail| ensures !SameLine(tail[j], tail[k]) {
          assert tail[j] == items[j + 1] && tail[k] == items[k + 1];
        }
      }
      RemoveKeepsUnique(tail, id, weight);
      var rest := RemovedLines(tail, id, weight);
      if !Matches(items[0], id, weight) {
        assert RemovedLines(items, id, weight) == [items[0]] + rest;
        forall k | 0 <= k < |rest| ensures !SameLine(items[0], rest[k]) {
          assert rest[k] in tail;
          var m :| 0 <= m < |tail| && tail[m] == rest[k];
          assert items[m + 1] == rest[k];
        }
        ConsUnique(items[0], rest);
      }
    }
  }

  /** A line whose key is absent from a list of unique keys can head it. */
  lemma ConsUnique(x: CartItem, rest: seq<CartItem>)
    requires LinesUnique(rest)
    requires forall k :: 0 <= k < |rest| ==> !SameLine(x, rest[k])
    ensures LinesUnique([x] + rest)
  {
    var t := [x] + rest;
    forall j, k | 0 <= j < k < |t| ensures !SameLine(t[j], t[k]) {
      assert t[k] == rest[k - 1];
      if j > 0 {
        assert t[j] == rest[j - 1];
      }
    }
  }

  /** Removing a present key lowers the total quantity by that line's quantity. */
  lemma RemoveQuantityTotal(items: seq<CartItem>, id: int, weight: string, j: nat)
    requires LinesUnique(items)
    requires j < |items| && Matches(items[j], id, weight)
    ensures QuantitySum(RemovedLines(items, id, weight)) == QuantitySum(items) - items[j].quantity
  {
    RemoveLine(items, id, weight, j);
    SumOfRemove(items, j, Quantity);
  }

  /** Updating a missing key leaves the list unchanged: no line is created. */
  lemma UpdateMissingLine(items: seq<CartItem>, id: int, weight: string, quantity: int)
    requires forall k :: 0 <= k < |items| ==> !Matches(items[k], id, weight)
    ensures UpdatedLines(items, id, weight, quantity) == items
  {
  }

  /** Updating a present key sets that line's quantity to the given value,
      unclamped, and changes nothing else. */
  lemma UpdateLine(items: seq<CartItem>, id: int, weight: string, quantity: int, j: nat)
    requires LinesUnique(items)
    requires j < |items| && Matches(items[j], id, weight)
    ensures UpdatedLines(items, id, weight, quantity) == items[j := items[j].(quantity := quantity)]
  {
    OnlyMatch(items, id, weight, j);
  }

  /** An update changes only quantities, never keys, names or prices. */
  lemma UpdateKeepsKeys(items: seq<CartItem>, id: int, weight: string, quantity: int)
    ensures var r := UpdatedLines(items, id, weight, quantity);
      |r| == |items| &&
      forall k :: 0 <= k < |items| ==> r[k] == items[k].(quantity := r[k].quantity)
  {
  }

  /** Keys stay unique after an update. */
  lemma UpdateKeepsUnique(items: seq<CartItem>, id: int, weight: string, quantity: int)
    requires LinesUnique(items)
    ensures LinesUnique(UpdatedLines(items, id, weight, quantity))
  {
    UpdateKeepsKeys(items, id, weight, quantity);
  }

  /** Updating a present key replaces its quantity in the total. */
  lemma UpdateQuantityTotal(items: seq<CartItem>, id: int, weight: string, quantity: int, j: nat)
    requires LinesUnique(items)
    requires j < |items| && Matches(items[j], id, weight)
    ensures QuantitySum(UpdatedLines(items, id, weight, quantity)) ==
            QuantitySum(items) - items[j].quantity + quantity
  {
    UpdateLine(items, id, weight, quantity, j);
    SumOfUpdate(items, j, items[j].(quantity := quantity), Quantity);
  }

  // ===========================================================================
  // Bundle lines
  // ===========================================================================

  predicate BundleIdsUnique(bundles: seq<BundleItem>)
  {
    forall j, k :: 0 <= j < k < |bundles| ==> bundles[j].id != bundles[k].id
  }

  /** With unique ids, a bundle with the id is the only one. */
  lemma OnlyBundle(bundles: seq<BundleItem>, id: string, j: nat)
    requires BundleIdsUnique(bundles)
    requires j < |bundles| && bundles[j].id == id
    ensures forall k :: 0 <= k < |bundles| && k != j ==> bundles[k].id != id
  {
    forall k | 0 <= k < |bundles| && k != j
      ensures bundles[k].id != id
    {
      if j < k {
        assert bundles[j].id != bundles[k].id;
      } else {
        assert bundles[k].id != bundles[j].id;
      }
    }
  }

  function FindBundle(bundles: seq<BundleItem>, id: string): Option<BundleItem>
  {
    Find(bundles, (b: BundleItem) => b.id == id)
  }

  function BumpBundle(b: BundleItem, bundle: BundleItem): BundleItem
  {
    if b.id == bundle.id then b.(quantity := b.quantity + bundle.quantity) else b
  }

  /** `addBundleToCart(bundle)`: merge into the bundle with the same id, or append. */
  function AddedBundles(bundles: seq<BundleItem>, bundle: BundleItem): seq<BundleItem>
  {
    match FindBundle(bundles, bundle.id)
    case Some(_) => Map(bundles, (b: BundleItem) => BumpBundle(b, bundle))
    case None => bundles + [bundle]
  }

  /** `removeBundleFromCart(id)`. */
  function RemovedBundles(bundles: seq<BundleItem>, id: string): seq<BundleItem>
  {
    Filter(bundles, (b: BundleItem) => b.id != id)
  }

  /** `updateBundleQuantity(id, quantity)`. */
  function UpdatedBundles(bundles: seq<BundleItem>, id: string, quantity: int): seq<BundleItem>
  {
    Map(bundles, (b: BundleItem) => if b.id == id then b.(quantity := quantity) else b)
  }

  function BundleQuantity(b: BundleItem): int
  {
    b.quantity
  }

  function BundlePrice(b: BundleItem): int
  {
    b.price * b.quantity
  }

  function BundleQuantitySum(bundles: seq<BundleItem>): int
  {
    SumOf(bundles, BundleQuantity)
  }

  function BundlePriceSum(bundles: seq<BundleItem>): int
  {
    SumOf(bundles, BundlePrice)
  }

  /** A new bundle id is appended. */
  lemma AddNewBundle(bundles: seq<BundleItem>, bundle: BundleItem)
    requires forall k :: 0 <= k < |bundles| ==> bundles[k].id != bundle.id
    ensures AddedBundles(bundles, bundle) == bundles + [bundle]
  {
    assert forall x :: x in bundles ==> x.id != bundle.id;
  }

  /** An existing bundle id has `bundle.quantity` added to its quantity only. */
  lemma AddExistingBundle(bundles: seq<BundleItem>, bundle: BundleItem, j: nat)
    requires BundleIdsUnique(bundles)
    requires j < |bundles| && bundles[j].id == bundle.id
    ensures AddedBundles(bundles, bundle) ==
            bundles[j := bundles[j].(quantity := bundles[j].quantity + bundle.quantity)]
  {
    assert bundles[j] in bundles;
    assert FindBundle(bundles, bundle.id).Some?;
    OnlyBundle(bundles, bundle.id, j);
  }

  lemma FoundBundle(bundles: seq<BundleItem>, id: string) returns (j: nat)
    requires FindBundle(bundles, id).Some?
    ensures j < |bundles| && bundles[j].id == id
    ensures bundles[j] == FindBundle(bundles, id).value
  {
    var p := (b: BundleItem) => b.id == id;
    var k :| 0 <= k < |bundles| && bundles[k] == Find(bundles, p).value && p(bundles[k]);
    j := k;
  }

  /** Bundle ids stay unique under `addBundleToCart`. */
  lemma AddBundleKeepsUnique(bundles: seq<BundleItem>, bundle: BundleItem)
    requires BundleIdsUnique(bundles)
    ensures BundleIdsUnique(AddedBundles(bundles, bundle))
  {
    if FindBundle(bundles, bundle.id).Some? {
      var j := FoundBundle(bundles, bundle.id);
      AddExistingBundle(bundles, bundle, j);
    } else {
      assert forall k :: 0 <= k < |bundles| ==> bundles[k] in bundles;
      AddNewBundle(bundles, bundle);
    }
  }

  /** Adding a bundle raises the bundle quantity total by `bundle.quantity`. */
  lemma AddBundleQuantityTotal(bundles: seq<BundleItem>, bundle: BundleItem)
    requires BundleIdsUnique(bundles)
    ensures BundleQuantitySum(AddedBundles(bundles, bundle)) == BundleQuantitySum(bundles) + bundle.quantity
  {
    if FindBundle(bundles, bundle.id).Some? {
      var j := FoundBundle(bundles, bundle.id);
      AddExistingBundle(bundles, bundle, j);
      SumOfUpdate(bundles, j, bundles[j].(quantity := bundles[j].quantity + bundle.quantity), BundleQuantity);
    } else {
      assert forall k :: 0 <= k < |bundles| ==> bundles[k] in bundles;
      AddNewBundle(bundles, bundle);
      SumOfConcat(bundles, [bundle], BundleQuantity);
    }
  }

  /** Removing a present bundle id drops exactly that bundle and keeps the
      others in order. */
  lemma RemoveBundle(bundles: seq<BundleItem>, id: string, j: nat)
    requires BundleIdsUnique(bundles)
    requires j < |bundles| && bundles[j].id == id
    ensures RemovedBundles(bundles, id) == bundles[..j] + bundles[j + 1..]
  {
    OnlyBundle(bundles, id, j);
    FilterDropOne(bundles, (b: BundleItem) => b.id != id, j);
  }

  lemma RemoveMissingBundle(bundles: seq<BundleItem>, id: string)
    requires forall k :: 0 <= k < |bundles| ==> bundles[k].id != id
    ensures RemovedBundles(bundles, id) == bundles
  {
  }

  /** Bundle ids stay unique after a removal. */
  lemma {:induction false} RemoveBundleKeepsUnique(bundles: seq<BundleItem>, id: string)
    requires BundleIdsUnique(bundles)
    ensures BundleIdsUnique(RemovedBundles(bundles, id))
  {
    if bundles != [] {
      var tail := bundles[1..];
      assert BundleIdsUnique(tail) by {
        forall j, k | 0 <= j < k < |tail| ensures tail[j].id != tail[k].id {
          assert tail[j] == bundles[j + 1] && tail[k] == bundles[k + 1];
        }
      }
      RemoveBundleKeepsUnique(tail, id);
      var rest := RemovedBundles(tail, id);
      if bundles[0].id != id {
        assert RemovedBundles(bundles, id) == [bundles[0]] + rest;
        forall k | 0 <= k < |rest| ensures bundles[0].id != rest[k].id {
          assert rest[k] in tail;
          var m :| 0 <= m < |tail| && tail[m] == rest[k];
          assert bundles[m + 1] == rest[k];
        }
        ConsBundleUnique(bundles[0], rest);
      }
    }
  }

  /** A bundle whose id is absent from a list of unique ids can head it. */
  lemma ConsBundleUnique(x: BundleItem, rest: seq<BundleItem>)
    requires BundleIdsUnique(rest)
    requires forall k :: 0 <= k < |rest| ==> x.id != rest[k].id
    ensures BundleIdsUnique([x] + rest)
  {
    var t := [x] + rest;
    forall j, k | 0 <= j < k < |t| ensures t[j].id != t[k].id {
      assert t[k] == rest[k - 1];
      if j > 0 {
        assert t[j] == rest[j - 1];
      }
    }
  }

  /** Removing a present bundle lowers the bundle count by its quantity. */
  lemma RemoveBundleQuantityTotal(bundles: seq<BundleItem>, id: string, j: nat)
    requires BundleIdsUnique(bundles)
    requires j < |bundles| && bundles[j].id == id
    ensures BundleQuantitySum(RemovedBundles(bundles, id)) == BundleQuantitySum(bundles) - bundles[j].quantity
  {
    RemoveBundle(bundles, id, j);
    SumOfRemove(bundles, j, BundleQuantity);
  }

  /** Updating a bundle id sets that bundle's quantity, unclamped, and nothing else. */
  lemma UpdateBundle(bundles: seq<BundleItem>, id: string, quantity: int, j: nat)
    requires BundleIdsUnique(bundles)
    requires j < |bundles| && bundles[j].id == id
    ensures UpdatedBundles(bundles, id, quantity) == bundles[j := bundles[j].(quantity := quantity)]
  {
    OnlyBundle(bundles, id, j);
  }

  /** Updating a present bundle replaces its quantity in the bundle count. */
  lemma UpdateBundleQuantityTotal(bundles: seq<BundleItem>, id: string, quantity: int, j: nat)
    requires BundleIdsUnique(bundles)
    requires j < |bundles| && bundles[j].id == id
    ensures BundleQuantitySum(UpdatedBundles(bundles, id, quantity)) ==
            BundleQuantitySum(bundles) - bundles[j].quantity + quantity
  {
    UpdateBundle(bundles, id, quantity, j);
    SumOfUpdate(bundles, j, bundles[j].(quantity := quantity), BundleQuantity);
  }

  lemma UpdateMissingBundle(bundles: seq<BundleItem>, id: string, quantity: int)
    requires forall k :: 0 <= k < |bundles| ==> bundles[k].id != id
    ensures UpdatedBundles(bundles, id, quantity) == bundles
  {
  }

  lemma UpdateBundleKeepsUnique(bundles: seq<BundleItem>, id: string, quantity: int)
    requires BundleIdsUnique(bundles)
    ensures BundleIdsUnique(UpdatedBundles(bundles, id, quantity))
  {
  }

  // ===========================================================================
  // Totals over both lists
  // ===========================================================================

  /** `totalItems`: the quantities of every product line and every bundle. */
  function ItemCount(items: seq<CartItem>, bundles: seq<BundleItem>): int
  {
    QuantitySum(items) + BundleQuantitySum(bundles)
  }

  /** `totalPrice`: price times quantity over every product line and bundle. */
  function PriceTotal(items: seq<CartItem>, bundles: seq<BundleItem>): int
  {
    LinePriceSum(items) + BundlePriceSum(bundles)
  }

  // ===========================================================================
  // The provider's state
  // ===========================================================================

  /** The cart state the provider holds; every operation replaces one list. */
  class Cart {
    var cartItems: seq<CartItem>
    var bundleItems: seq<BundleItem>

    /** Keys are unique in both lists: no operation ever duplicates one. */
    ghost predicate Valid()
      reads this
    {
      LinesUnique(cartItems) && BundleIdsUnique(bundleItems)
    }

    constructor ()
      ensures Valid()
      ensures cartItems == [] && bundleItems == []
    {
      cartItems, bundleItems := [], [];
    }

    function TotalItems(): int
      reads this
    {
      ItemCount(cartItems, bundleItems)
    }

    function TotalPrice(): int
      reads this
    {
      PriceTotal(cartItems, bundleItems)
    }

    method AddToCart(item: CartItem)
      requires Valid()
      modifies this
      ensures Valid()
      ensures cartItems == AddedLines(old(cartItems), item)
      ensures bundleItems == old(bundleItems)
      ensures TotalItems() == old(TotalItems()) + item.quantity
    {
      AddKeepsUnique(cartItems, item);
      AddQuantityTotal(cartItems, item);
      cartItems := AddedLines(cartItems, item);
    }

    method AddBundleToCart(bundle: BundleItem)
      requires Valid()
      modifies this
      ensures Valid()
      ensures bundleItems == AddedBundles(old(bundleItems), bundle)
      ensures cartItems == old(cartItems)
      ensures TotalItems() == old(TotalItems()) + bundle.quantity
    {
      AddBundleKeepsUnique(bundleItems, bundle);
      AddBundleQuantityTotal(bundleItems, bundle);
      bundleItems := AddedBundles(bundleItems, bundle);
    }

    method RemoveFromCart(id: int, weight: string)
      requires Valid()
      modifies this
      ensures Valid()
      ensures cartItems == RemovedLines(old(cartItems), id, weight)
      ensures bundleItems == old(bundleItems)
    {
      RemoveKeepsUnique(cartItems, id, weight);
      cartItems := RemovedLines(cartItems, id, weight);
    }

    method RemoveBundleFromCart(id: string)
      requires Valid()
      modifies this
      ensures Valid()
      ensures bundleItems == RemovedBundles(old(bundleItems), id)
      ensures cartItems == old(cartItems)
    {
      RemoveBundleKeepsUnique(bundleItems, id);
      bundleItems := RemovedBundles(bundleItems, id);
    }

    method UpdateQuantity(id: int, weight: string, quantity: int)
      requires Valid()
      modifies this
      ensures Valid()
      ensures cartItems == UpdatedLines(old(cartItems), id, weight, quantity)
      ensures bundleItems == old(bundleItems)
    {
      UpdateKeepsUnique(cartItems, id, weight, quantity);
      cartItems := UpdatedLines(cartItems, id, weight, quantity);
    }

    method UpdateBundleQuantity(id: string, quantity: int)
      requires Valid()
      modifies this
      ensures Valid()
      ensures bundleItems == UpdatedBundles(old(bundleItems), id, quantity)
      ensures cartItems == old(cartItems)
    {
      UpdateBundleKeepsUnique(bundleItems, id, quantity);
      bundleItems := UpdatedBundles(bundleItems, id, quantity);
    }

    method ClearCart()
      modifies this
      ensures Valid()
      ensures cartItems == [] && bundleItems == []
      ensures TotalItems() == 0 && TotalPrice() == 0
    {
      cartItems, bundleItems := [], [];
    }
  }

  /** Adding product 1 at 50g with quantity 1 and then with quantity 2 leaves
      one line of quantity 3, and the cart counts 3 items. Returns what the
      context would expose afterwards. */
  method AddTwiceScenario() returns (lines: seq<CartItem>, totalItems: int)
    ensures |lines| == 1 && lines[0].id == 1 && lines[0].quantity == 3
    ensures totalItems == 3
  {
    var cart := new Cart();
    var first := CartItem(1, "Dried Managu", "African Nightshade", "/images/Managu-600x400.png", 200, 1, W50);
    cart.AddToCart(first);
    AddNewLine([], first);
    cart.AddToCart(first.(quantity := 2));
    AddExistingLine([first], first.(quantity := 2), 0);
    lines, totalItems := cart.cartItems, cart.TotalItems();
  }
}
