/** A product card: the pack size the visitor picked, the favourite and
    details toggles, the price and stock badge derived from the product, and
    the line item the card sends to the cart. */
module ProductCard {
  import opened Types
  import opened Seqs
  import opened CartContext

  /** `selectedWeight === '50g' ? price50 : price100`. */
  function PriceFor(p: Product, w: Weight): int
  {
    if w == W50 then p.price50 else p.price100
  }

  /** The badge "Only N left!" shows below ten units. */
  predicate LowStock(p: Product)
  {
    p.inStock < 10
  }

  /** Star `i` (0 to 4) is filled when `i < Math.floor(rating)`; the rating is
      in tenths, and integer division by a positive divisor is the floor. */
  predicate StarFilled(p: Product, i: int)
  {
    i < p.rating / 10
  }

  /** The number of filled stars among the five drawn. */
  function FilledStars(p: Product): (r: int)
    ensures 0 <= r <= 5
    ensures forall i :: 0 <= i < 5 ==> (StarFilled(p, i) <==> i < r)
  {
    if p.rating / 10 < 0 then 0 else Min(5, p.rating / 10)
  }

  /** The health benefits the details panel lists: the first three. */
  function BenefitsShown(p: Product): (r: seq<string>)
    ensures |r| == Min(3, |p.healthBenefits|)
    ensures r == p.healthBenefits[..|r|]
  {
    Take(p.healthBenefits, 3)
  }

  /** The nutrition entries the panel lists: the first four in the object's
      insertion order. */
  function NutritionShown(p: Product): (r: seq<(string, string)>)
    ensures |r| == Min(4, |p.nutritionalInfo|)
    ensures r == p.nutritionalInfo[..|r|]
  {
    Take(p.nutritionalInfo, 4)
  }

  /** What `handleAddToCart` sends: one unit of the card's product at the
      chosen size and that size's price. The stock level is not consulted. */
  function Payload(p: Product, w: Weight): CartItem
  {
    CartItem(p.id, p.name, p.localName, p.image, PriceFor(p, w), 1, w)
  }

  /** The payload is one unit tagged with the size whose price it carries,
      and its key is the product's id and that size. */
  lemma PayloadMeaning(p: Product, w: Weight)
    ensures var i := Payload(p, w);
      i.quantity == 1 && i.selectedWeight == w && i.id == p.id &&
      (WeightLabel(w) == "50g" ==> i.price == p.price50) &&
      (WeightLabel(w) == "100g" ==> i.price == p.price100)
  {
    WeightLabelInjective(w, W50);
    WeightLabelInjective(w, W100);
  }

  /** The two sizes of one product are different cart lines: adding one of
      each to an empty cart gives two lines, each priced for its size. */
  lemma BothSizesTwoLines(p: Product)
    ensures AddedLines(AddedLines([], Payload(p, W50)), Payload(p, W100)) ==
            [Payload(p, W50), Payload(p, W100)]
  {
    var a := Payload(p, W50);
    AddNewLine([], a);
    assert [] + [a] == [a];
    assert !SameLine(a, Payload(p, W100));
    AddNewLine([a], Payload(p, W100));
  }

  /** Adding the same size twice gives one line of two units. */
  lemma SameSizeMerges(p: Product, w: Weight)
    ensures AddedLines(AddedLines([], Payload(p, w)), Payload(p, w)) ==
            [Payload(p, w).(quantity := 2)]
  {
    var a := Payload(p, w);
    AddNewLine([], a);
    assert [] + [a] == [a];
    AddExistingLine([a], a, 0);
  }

  class Card {
    const product: Product
    var selectedWeight: Weight
    var isFavorited: bool
    var showDetails: bool

    /** A fresh card shows the 50g pack, not favourited, details closed. */
    constructor (p: Product)
      ensures product == p && selectedWeight == W50 && !isFavorited && !showDetails
    {
      product := p;
      selectedWeight, isFavorited, showDetails := W50, false, false;
    }

    /** The price shown next to the size buttons. */
    function Price(): int
      reads this
    {
      PriceFor(product, selectedWeight)
    }

    /** A size button. */
    method SelectWeight(w: Weight)
      modifies this
      ensures selectedWeight == w && Price() == PriceFor(product, w)
      ensures isFavorited == old(isFavorited) && showDetails == old(showDetails)
    {
      selectedWeight := w;
    }

    /** The heart button. */
    method ToggleFavorite()
      modifies this
      ensures isFavorited == !old(isFavorited)
      ensures selectedWeight == old(selectedWeight) && showDetails == old(showDetails)
    {
      isFavorited := !isFavorited;
    }

    /** The information button. */
    method ToggleDetails()
      modifies this
      ensures showDetails == !old(showDetails)
      ensures selectedWeight == old(selectedWeight) && isFavorited == old(isFavorited)
    {
      showDetails := !showDetails;
    }

    /** The add button: the cart receives the payload for the current size,
      and counts one more unit, however many units are in stock. */
    method HandleAddToCart(cart: Cart)
      requires cart.Valid()
      modifies cart
      ensures cart.Valid()
      ensures cart.cartItems == AddedLines(old(cart.cartItems), Payload(product, selectedWeight))
      ensures cart.bundleItems == old(cart.bundleItems)
      ensures cart.TotalItems() == old(cart.TotalItems()) + 1
    {
      cart.AddToCart(Payload(product, selectedWeight));
    }
  }

  /** Pressing the heart twice leaves the card as it was. */
  method FavoriteTwice(p: Product) returns (favorited: bool)
    ensures !favorited
  {
    var card := new Card(p);
    card.ToggleFavorite();
    card.ToggleFavorite();
    favorited := card.isFavorited;
  }

  /** Choosing 100g and pressing add puts one 100g unit at the 100g price in
      an empty cart. */
  method AddLargePack(p: Product) returns (lines: seq<CartItem>)
    ensures lines == [CartItem(p.id, p.name, p.localName, p.image, p.price100, 1, W100)]
  {
    var cart := new Cart();
    var card := new Card(p);
    card.SelectWeight(W100);
    card.HandleAddToCart(cart);
    AddNewLine([], Payload(p, W100));
    lines := cart.cartItems;
  }
}
