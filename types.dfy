/** The storefront's records: a catalog product and a cart line item. */
module Types {

  /** The two purchase sizes, `'50g' | '100g'`. */
  datatype Weight = W50 | W100

  function WeightLabel(w: Weight): (r: string)
    ensures r == "50g" || r == "100g"
  {
    match w
    case W50 => "50g"
    case W100 => "100g"
  }

  /** Distinct sizes have distinct labels, so comparing labels compares sizes. */
  lemma WeightLabelInjective(a: Weight, b: Weight)
    ensures WeightLabel(a) == WeightLabel(b) <==> a == b
  {
    if a != b {
      assert WeightLabel(a)[0] != WeightLabel(b)[0];
    }
  }

  /** A catalog entry. Prices are whole Kenyan shillings; `rating` is in tenths
      of a star (4.8 is 48); `nutritionalInfo` keeps the insertion order of the
      source's object literal as a list of (nutrient, value) pairs. */
  datatype Product = Product(
    id: int,
    name: string,
    localName: string,
    image: string,
    price50: int,
    price100: int,
    description: string,
    healthBenefits: seq<string>,
    nutritionalInfo: seq<(string, string)>,
    origin: string,
    inStock: int,
    rating: int,
    reviews: int)

  /** A product line in the cart, with the price and names copied at the time
      it was added. */
  datatype CartItem = CartItem(
    id: int,
    name: string,
    localName: string,
    image: string,
    price: int,
    quantity: int,
    selectedWeight: Weight)
}
