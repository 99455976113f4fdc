/** The static catalog: five dried-vegetable products, each sold in a 50g
    pack for 200 and a 100g pack for 400 shillings. */
module Products {
  import opened Types

  const Catalog: seq<Product> := [
    Product(
      1, "Dried Managu", "African Nightshade", "/images/Managu-600x400.png", 200, 400,
      "A traditional Kenyan leafy green vegetable packed with essential nutrients. Managu has been a staple in Kenyan households for generations, known for its unique flavor and impressive health benefits.",
      ["Rich in iron, helping prevent anemia",
       "High in vitamin A for improved vision",
       "Contains antioxidants that boost immune system",
       "Supports bone health with calcium and magnesium",
       "Aids digestion with high fiber content"],
      [("protein", "25g"), ("fiber", "15g"), ("vitaminA", "200%"),
       ("iron", "50%"), ("calcium", "30%"), ("vitaminC", "120%")],
      "Central Kenya", 15, 48, 124),
    Product(
      2, "Dried Saaga", "Spider Plant", "/images/Spider-Plant.png", 200, 400,
      "A nutritious leafy vegetable with a slightly bitter taste that becomes milder when cooked. Saaga is highly valued in traditional Kenyan cuisine for its medicinal properties and distinct flavor.",
      ["Natural anti-inflammatory properties",
       "Supports cardiovascular health",
       "Rich in folate for cell growth and development",
       "Helps regulate blood sugar levels",
       "Contains compounds that may prevent certain cancers"],
      [("protein", "22g"), ("fiber", "18g"), ("folate", "75%"),
       ("magnesium", "40%"), ("vitaminK", "150%"), ("potassium", "35%")],
      "Western Kenya", 8, 47, 98),
    Product(
      3, "Dried Amaranth", "Terere", "/images/Terere-600x400.png", 200, 400,
      "A highly nutritious grain and leafy vegetable that has been cultivated for thousands of years. Amaranth is a complete protein source, making it especially valuable for vegetarian and vegan diets.",
      ["Complete protein with all essential amino acids",
       "Gluten-free alternative to grains",
       "Supports brain function with high lysine content",
       "Strengthens bones with calcium and magnesium",
       "May help lower cholesterol levels"],
      [("protein", "30g"), ("fiber", "20g"), ("lysine", "15%"),
       ("magnesium", "65%"), ("iron", "45%"), ("phosphorus", "55%")],
      "Rift Valley", 22, 49, 156),
    Product(
      4, "Dried Mushrooms", "Nyakazi", "/images/nyakazi-mushroom.jpeg", 200, 400,
      "Wild-harvested mushrooms with a rich, earthy flavor and meaty texture. These traditional mushrooms are sustainably foraged from Kenyan forests and carefully dried to preserve their nutritional value.",
      ["Natural source of vitamin D when exposed to sunlight",
       "Supports immune system with beta-glucans",
       "May help reduce inflammation",
       "Rich in B vitamins for energy production",
       "Contains antioxidants that fight cellular damage"],
      [("protein", "18g"), ("fiber", "8g"), ("vitaminD", "100%"),
       ("selenium", "45%"), ("niacin", "60%"), ("pantothenicAcid", "40%")],
      "Mount Kenya Forest", 5, 46, 87),
    Product(
      5, "Powdered Pumpkin", "Ulenje", "/images/Managu Powder.jpeg", 200, 400,
      "A versatile nutrient-dense powder made from locally grown pumpkins. This convenient powder can be added to smoothies, soups, or baked goods for an instant nutritional boost.",
      ["Rich in beta-carotene for eye health",
       "Supports skin health and anti-aging",
       "High in antioxidants that fight free radicals",
       "May help regulate blood pressure",
       "Supports weight management with high fiber"],
      [("protein", "12g"), ("fiber", "25g"), ("betaCarotene", "300%"),
       ("potassium", "40%"), ("vitaminE", "35%"), ("magnesium", "30%")],
      "Eastern Kenya", 18, 47, 102)
  ]

  /** The catalog's ids are 1 to 5 in order, hence pairwise distinct. */
  lemma CatalogIds()
    ensures |Catalog| == 5
    ensures forall k :: 0 <= k < |Catalog| ==> Catalog[k].id == k + 1
    ensures forall j, k :: 0 <= j < k < |Catalog| ==> Catalog[j].id != Catalog[k].id
  {
  }

  /** Every product costs 200 for 50g and 400 for 100g. */
  lemma CatalogPrices()
    ensures forall p :: p in Catalog ==> p.price50 == 200 && p.price100 == 400
  {
  }
}
