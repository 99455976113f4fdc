/** The cart sidebar: a second cart drawer whose WhatsApp message uses its
    own template. Its subtotal, item count and quantity buttons are the
    navigation bar's (`LinePriceSum`, `Navbar.CountLabel`,
    `Navbar.MinusPressed`, `Navbar.PlusPressed`). */
module CartSidebar {
  import opened Types
  import opened Seqs
  import opened Strings
  import opened CartContext
  import Navbar

  /** `🛒 <name> (<weight>) x <qty> = Ksh <price*qty>`. */
  function SidebarLine(i: CartItem): string
  {
    "\U{1F6D2} " + i.name + " (" + WeightLabel(i.selectedWeight) + ") x " +
    IntToString(i.quantity) + " = Ksh " + IntToString(i.price * i.quantity)
  }

  function SidebarLines(items: seq<CartItem>): (r: seq<string>)
    ensures |r| == |items|
    ensures forall k :: 0 <= k < |items| ==> r[k] == SidebarLine(items[k])
  {
    Map(items, SidebarLine)
  }

  /** The item lines joined by the three characters `%0A` (which the link's
      percent-encoding later turns into `%250A`), not by a line break. */
  function ItemsText(items: seq<CartItem>): string
  {
    Join(SidebarLines(items), "%0A")
  }

  /** The fixed lines of the message (the first two end in `%0A`), written as
      short pieces so that the absence of a line break is proved piece by piece. */
  const Salutation: string := "\U{1F49A} Hello " + "Nyakazi Organics!%0A"
  const Request: string := "I would like " + "to order the " + "following items:%0A"
  const SignOff: string := "Please confirm " + "availability and " + "I will provide " + "delivery info. " + "Thank you!"

  /** The third physical line: the item text after one space. */
  function ItemsRow(items: seq<CartItem>): string
  {
    " " + ItemsText(items) + "%0A"
  }

  function TotalLine(items: seq<CartItem>): string
  {
    "✅ Total: Ksh " + IntToString(LinePriceSum(items)) + "%0A"
  }

  /** The template literal spans five source lines, so the message holds four
      real line breaks; the item text is indented by one space. */
  function Message(items: seq<CartItem>): string
  {
    Salutation + "\n" + Request + "\n" + ItemsRow(items) + "\n" + TotalLine(items) + "\n" + SignOff
  }

  /** The message has exactly five physical lines: the salutation, the
      request, all item lines on one line, the total and the sign-off. */
  lemma MessageLines(items: seq<CartItem>)
    requires Navbar.SingleLineNames(items)
    ensures Split(Message(items), '\n') ==
            [Salutation, Request, ItemsRow(items), TotalLine(items), SignOff]
  {
    ItemsRowSingle(items);
    TotalLineSingle(items);
    FixedTextSingleLine();
    FiveLines(Salutation, Request, ItemsRow(items), TotalLine(items), SignOff);
  }

  lemma FiveLines(a: string, b: string, c: string, d: string, e: string)
    requires '\n' !in a && '\n' !in b && '\n' !in c && '\n' !in d && '\n' !in e
    ensures Split(a + "\n" + b + "\n" + c + "\n" + d + "\n" + e, '\n') == [a, b, c, d, e]
  {
    var l2 := a + "\n" + b;
    var l3 := l2 + "\n" + c;
    var l4 := l3 + "\n" + d;
    SplitNoSeparator(a, '\n');
    SplitNoSeparator(b, '\n');
    SplitNoSeparator(c, '\n');
    SplitNoSeparator(d, '\n');
    SplitNoSeparator(e, '\n');
    SplitConcat(a, b, '\n');
    SplitConcat(l2, c, '\n');
    SplitConcat(l3, d, '\n');
    SplitConcat(l4, e, '\n');
  }

  lemma SidebarLineSingle(i: CartItem)
    requires '\n' !in i.name
    ensures '\n' !in SidebarLine(i)
  {
    assert '\n' !in "\U{1F6D2} " && '\n' !in " (" && '\n' !in ") x " && '\n' !in " = Ksh ";
  }

  lemma ItemsRowSingle(items: seq<CartItem>)
    requires Navbar.SingleLineNames(items)
    ensures '\n' !in ItemsRow(items)
  {
    forall k | 0 <= k < |items| ensures '\n' !in SidebarLines(items)[k] {
      SidebarLineSingle(items[k]);
    }
    JoinAvoids(SidebarLines(items), "%0A", '\n');
  }

  lemma TotalLineSingle(items: seq<CartItem>)
    ensures '\n' !in TotalLine(items)
  {
    assert '\n' !in "✅ Total: Ksh " && '\n' !in "%0A";
  }

  lemma FixedTextSingleLine()
    ensures '\n' !in Salutation && '\n' !in Request && '\n' !in SignOff
  {
    SalutationSingleLine();
    RequestSingleLine();
    SignOffSingleLine();
  }

  lemma SalutationSingleLine()
    ensures '\n' !in Salutation
  {
  }

  lemma RequestSingleLine()
    ensures '\n' !in Request
  {
  }

  lemma SignOffSingleLine()
    ensures '\n' !in SignOff
  {
  }

  /** Adding a product that is not yet in a non-empty cart appends `%0A` and
      its line to the item text. */
  lemma TextAfterNewItem(items: seq<CartItem>, item: CartItem)
    requires items != []
    requires forall k :: 0 <= k < |items| ==> !SameLine(items[k], item)
    ensures ItemsText(AddedLines(items, item)) == ItemsText(items) + "%0A" + SidebarLine(item)
  {
    AddNewLine(items, item);
    assert SidebarLines(items + [item]) == SidebarLines(items) + [SidebarLine(item)];
    JoinSnoc(SidebarLines(items), SidebarLine(item), "%0A");
  }

  /** Two 50g packs of dried managu at 200 each. */
  lemma ManaguLine()
    ensures SidebarLine(CartItem(1, "Dried Managu", "African Nightshade", "/images/Managu-600x400.png", 200, 2, W50))
            == "\U{1F6D2} " + "Dried Managu" + " (50g) x 2" + " = Ksh 400"
  {
    assert IntToString(2) == "2";
    assert NatToString(40) == "40";
    assert IntToString(400) == "400";
  }

  /** The amount printed on the total line reads back as the product-line
      subtotal. */
  lemma TotalReadsBack(items: seq<CartItem>)
    ensures var t := TotalLine(items);
      var digits := IntToString(LinePriceSum(items));
      t == "✅ Total: Ksh " + digits + "%0A" && ParseInt(digits) == LinePriceSum(items)
  {
    ParseIntToString(LinePriceSum(items));
  }
}
