/** The navigation bar's cart drawer: the subtotal, the WhatsApp order
    message, the quantity buttons, the item counts and the link number. The
    quantity-button arithmetic is shared with the cart sidebar, whose buttons
    are written the same way. */
module Navbar {
  import opened Types
  import opened Wrappers
  import opened Seqs
  import opened Strings
  import opened CartContext

  // ===========================================================================
  // Subtotal
  // ===========================================================================

  /** The drawer's subtotal is `LinePriceSum(cartItems)`: it adds price times
      quantity over the product lines only, so it differs from the context's
      `totalPrice` by exactly the bundles' contribution. */
  lemma TotalIgnoresBundles(items: seq<CartItem>, bundles: seq<BundleItem>)
    ensures PriceTotal(items, bundles) - LinePriceSum(items) == BundlePriceSum(bundles)
    ensures bundles == [] ==> LinePriceSum(items) == PriceTotal(items, bundles)
  {
  }

  /** With one starter pack in the cart and no product lines the subtotal is 0
      while the context's total is 350. */
  lemma TotalMissesBundle()
    ensures var b := BundleItem("starter-pack", "Starter Pack", 350, 1, "/images/Managu-600x400.png",
                                ["Managu", "Saaga"], 50);
      LinePriceSum([]) == 0 && PriceTotal([], [b]) == 350
  {
  }

  // ===========================================================================
  // The order message
  // ===========================================================================

  /** The fixed sentences of the message, written as short pieces so that
      the absence of a line break is proved piece by piece. */
  const Greeting: string := "Hello! I want " + "to order the " + "following items:"
  const Closing: string := "Please confirm " + "availability and " + "provide delivery info."

  /** `<name> x <qty> = Ksh <price*qty>`. */
  function ItemLine(i: CartItem): string
  {
    i.name + " x " + IntToString(i.quantity) + " = Ksh " + IntToString(i.price * i.quantity)
  }

  function ItemLines(items: seq<CartItem>): (r: seq<string>)
    ensures |r| == |items|
    ensures forall k :: 0 <= k < |items| ==> r[k] == ItemLine(items[k])
  {
    Map(items, ItemLine)
  }

  function TotalLine(items: seq<CartItem>): string
  {
    "Total: Ksh " + IntToString(LinePriceSum(items))
  }

  /** The item lines in cart order, separated by newlines. */
  function ItemsText(items: seq<CartItem>): string
  {
    Join(ItemLines(items), "\n")
  }

  /** `generateWhatsAppMessage()` before percent-encoding. */
  function Message(items: seq<CartItem>): string
  {
    Greeting + "\n" + ItemsText(items) + "\n" + TotalLine(items) + "\n" + Closing
  }

  /** Product names hold no line break. */
  predicate SingleLineNames(items: seq<CartItem>)
  {
    forall k :: 0 <= k < |items| ==> '\n' !in items[k].name
  }

  /** Read line by line, the message is the greeting, one line per cart item
      in cart order (a single empty line when the cart is empty), the total
      and the closing sentence. */
  lemma MessageLines(items: seq<CartItem>)
    requires SingleLineNames(items)
    ensures Split(Message(items), '\n') ==
            [Greeting] + (if items == [] then [""] else ItemLines(items)) + [TotalLine(items), Closing]
  {
    var lines := ItemLines(items);
    forall k | 0 <= k < |lines| ensures '\n' !in lines[k] {
      ItemLineSingle(items[k]);
    }
    GreetingSingleLine();
    ClosingSingleLine();
    assert '\n' !in "Total: Ksh ";
    FramedLines(Greeting, lines, TotalLine(items), Closing);
  }

  /** A head line, lines joined by line breaks, and two closing lines. */
  lemma FramedLines(head: string, lines: seq<string>, t: string, c: string)
    requires '\n' !in head && '\n' !in t && '\n' !in c
    requires forall k :: 0 <= k < |lines| ==> '\n' !in lines[k]
    ensures Split(head + "\n" + Join(lines, "\n") + "\n" + t + "\n" + c, '\n') ==
            [head] + (if lines == [] then [""] else lines) + [t, c]
  {
    var j := Join(lines, "\n");
    var x := head + "\n" + j;
    var y := x + "\n" + t;
    SplitNoSeparator(head, '\n');
    SplitNoSeparator(t, '\n');
    SplitNoSeparator(c, '\n');
    if lines != [] {
      SplitJoin(lines, '\n');
    }
    SplitConcat(head, j, '\n');
    SplitConcat(x, t, '\n');
    SplitConcat(y, c, '\n');
  }

  lemma ItemLineSingle(i: CartItem)
    requires '\n' !in i.name
    ensures '\n' !in ItemLine(i)
  {
    assert '\n' !in " x " && '\n' !in " = Ksh ";
  }

  /** The fixed sentences hold no line break. */
  lemma GreetingSingleLine()
    ensures '\n' !in Greeting
  {
  }

  lemma ClosingSingleLine()
    ensures '\n' !in Closing
  {
  }

  /** Adding a product that is not yet in a non-empty cart appends one line
      to the item text. */
  lemma TextAfterNewItem(items: seq<CartItem>, item: CartItem)
    requires items != []
    requires forall k :: 0 <= k < |items| ==> !SameLine(items[k], item)
    ensures ItemsText(AddedLines(items, item)) == ItemsText(items) + "\n" + ItemLine(item)
  {
    AddNewLine(items, item);
    assert ItemLines(items + [item]) == ItemLines(items) + [ItemLine(item)];
    JoinSnoc(ItemLines(items), ItemLine(item), "\n");
  }

  /** Two packs of dried managu at 200 give the line and total shown. */
  lemma ManaguOrder()
    ensures var i := CartItem(1, "Dried Managu", "African Nightshade", "/images/Managu-600x400.png", 200, 2, W50);
      ItemLine(i) == "Dried Managu x 2 = Ksh 400" && TotalLine([i]) == "Total: Ksh 400"
  {
    var i := CartItem(1, "Dried Managu", "African Nightshade", "/images/Managu-600x400.png", 200, 2, W50);
    FourHundred();
    assert IntToString(2) == "2";
    OneLineTotal(i);
  }

  lemma FourHundred()
    ensures IntToString(400) == "400"
  {
    assert NatToString(40) == "40";
  }

  /** A one-line cart's subtotal is that line's amount. */
  lemma OneLineTotal(i: CartItem)
    ensures LinePriceSum([i]) == i.price * i.quantity
  {
    assert [i][1..] == [];
    assert SumOf([i], LinePrice) == LinePrice(i) + SumOf([], LinePrice);
  }

  // ===========================================================================
  // Quantity buttons
  // ===========================================================================

  /** The minus button asks for `Math.max(1, q - 1)`. */
  function DecrementRequest(q: int): (r: int)
    ensures r >= 1
    ensures q > 1 ==> r == q - 1
    ensures q <= 1 ==> r == 1
  {
    if 1 > q - 1 then 1 else q - 1
  }

  /** The plus button asks for `q + 1`. */
  function IncrementRequest(q: int): int
  {
    q + 1
  }

  /** Minus after plus restores a positive quantity; plus after minus
      restores a quantity above one, and a quantity of one stays one under
      minus. */
  lemma ButtonsRoundTrip(q: int)
    ensures q >= 1 ==> DecrementRequest(IncrementRequest(q)) == q
    ensures q > 1 ==> IncrementRequest(DecrementRequest(q)) == q
    ensures DecrementRequest(1) == 1
  {
  }

  /** Pressing minus on line `j`: `updateQuantity` with the line's own key. */
  function MinusPressed(items: seq<CartItem>, j: nat): seq<CartItem>
    requires j < |items|
  {
    UpdatedLines(items, items[j].id, WeightLabel(items[j].selectedWeight), DecrementRequest(items[j].quantity))
  }

  /** Pressing plus on line `j`. */
  function PlusPressed(items: seq<CartItem>, j: nat): seq<CartItem>
    requires j < |items|
  {
    UpdatedLines(items, items[j].id, WeightLabel(items[j].selectedWeight), IncrementRequest(items[j].quantity))
  }

  predicate PositiveQuantities(items: seq<CartItem>)
  {
    forall k :: 0 <= k < |items| ==> items[k].quantity >= 1
  }

  /** The minus button changes only its own line, to `max(1, q - 1)`, so
      quantities that start positive stay positive and no line disappears. */
  lemma MinusKeepsPositive(items: seq<CartItem>, j: nat)
    requires LinesUnique(items) && PositiveQuantities(items)
    requires j < |items|
    ensures MinusPressed(items, j) == items[j := items[j].(quantity := DecrementRequest(items[j].quantity))]
    ensures PositiveQuantities(MinusPressed(items, j))
  {
    UpdateLine(items, items[j].id, WeightLabel(items[j].selectedWeight), DecrementRequest(items[j].quantity), j);
  }

  /** The plus button adds one to its own line only. */
  lemma PlusKeepsPositive(items: seq<CartItem>, j: nat)
    requires LinesUnique(items) && PositiveQuantities(items)
    requires j < |items|
    ensures PlusPressed(items, j) == items[j := items[j].(quantity := items[j].quantity + 1)]
    ensures PositiveQuantities(PlusPressed(items, j))
  {
    UpdateLine(items, items[j].id, WeightLabel(items[j].selectedWeight), items[j].quantity + 1, j);
  }

  /** Minus after plus on the same line gives the cart back. */
  lemma PlusThenMinus(items: seq<CartItem>, j: nat)
    requires LinesUnique(items) && PositiveQuantities(items)
    requires j < |items|
    ensures MinusPressed(PlusPressed(items, j), j) == items
  {
    PlusKeepsPositive(items, j);
    var up := PlusPressed(items, j);
    UpdateKeepsUnique(items, items[j].id, WeightLabel(items[j].selectedWeight), items[j].quantity + 1);
    MinusKeepsPositive(up, j);
    assert up[j := up[j].(quantity := items[j].quantity)] == items;
  }

  // ===========================================================================
  // Counts and the link number
  // ===========================================================================

  /** The cart icon's badge: `totalItems`, shown only when positive. */
  function Badge(totalItems: int): (r: Option<int>)
    ensures r.Some? <==> totalItems > 0
    ensures r.Some? ==> r.value == totalItems
  {
    if totalItems > 0 then Some(totalItems) else None
  }

  /** The drawer header: `<n> item` for one line, `<n> items` otherwise. */
  function CountLabel(lines: int): string
  {
    IntToString(lines) + (if lines == 1 then " item" else " items")
  }

  /** The header reads back as the number it was given followed by one word,
      singular exactly when there is one line. */
  lemma CountLabelReadsBack(lines: int)
    ensures var w := Split(CountLabel(lines), ' ');
      |w| == 2 && w[0] == IntToString(lines) && ParseInt(w[0]) == lines &&
      (w[1] == "item" <==> lines == 1) && (w[1] == "items" <==> lines != 1)
  {
    var n := IntToString(lines);
    assert ' ' !in n;
    var word := if lines == 1 then "item" else "items";
    assert CountLabel(lines) == n + [' '] + word;
    SplitAfter(n, word, ' ');
    SplitNoSeparator(word, ' ');
    ParseIntToString(lines);
  }

  /** The drawer header counts distinct lines, the badge counts units: with
      positive quantities and no bundles of negative quantity the header never
      exceeds the badge, and the badge is shown whenever the drawer has a line. */
  lemma {:induction false} CountAtMostBadge(items: seq<CartItem>, bundles: seq<BundleItem>)
    requires PositiveQuantities(items)
    requires forall k :: 0 <= k < |bundles| ==> bundles[k].quantity >= 0
    ensures |items| <= QuantitySum(items) <= ItemCount(items, bundles)
    ensures items != [] ==> Badge(ItemCount(items, bundles)).Some?
  {
    LinesAtMostUnits(items);
    BundleUnitsNonNegative(bundles);
  }

  lemma {:induction false} LinesAtMostUnits(items: seq<CartItem>)
    requires PositiveQuantities(items)
    ensures |items| <= QuantitySum(items)
  {
    if items != [] {
      LinesAtMostUnits(items[1..]);
    }
  }

  lemma {:induction false} BundleUnitsNonNegative(bundles: seq<BundleItem>)
    requires forall k :: 0 <= k < |bundles| ==> bundles[k].quantity >= 0
    ensures BundleQuantitySum(bundles) >= 0
  {
    if bundles != [] {
      BundleUnitsNonNegative(bundles[1..]);
    }
  }

  const WhatsappNumber: string := "+254712345678"

  /** `whatsappNumber.replace('+', '')`: the number without its leading plus. */
  function LinkNumber(): string
  {
    RemoveFirst(WhatsappNumber, '+')
  }

  lemma LinkNumberDigits()
    ensures LinkNumber() == "254712345678"
    ensures forall k :: 0 <= k < |LinkNumber()| ==> IsDigit(LinkNumber()[k])
  {
    RemoveFirstMeaning(WhatsappNumber, '+');
    assert FirstIndex(WhatsappNumber, '+') == 0;
  }
}
