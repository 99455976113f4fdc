# Nyakazi Organics storefront core, modelled in Dafny

This project models the storefront of Nyakazi Organics, a Next.js shop for
dried Kenyan indigenous vegetables, and proves properties of the model. It
covers these parts of the shop:

- **Cart context.** Two lists, of product lines and bundle lines. A product
  line is keyed by product id and pack size, a bundle line by its id. The
  context offers add, remove, update and clear, plus the item and price
  totals.
- **Shop page pipeline.** A copy of the catalog is narrowed by search term,
  category and price bucket, one filter after another. It is then sorted by
  the chosen key.
- **Shop page derived data.** The category counts, the featured products and
  the bundle offers.
- **Navbar drawer and cart sidebar.** The subtotal, the WhatsApp order
  messages and the quantity buttons. Also the header count, the badge and
  the link number.
- **Testimonial carousel.** It autoplays until the visitor navigates by hand.
- **Hero banner.** A rotating quote.
- **Product card.** Pack-size selection, the favourite and details toggles,
  the low-stock badge, the star row and the add-to-cart payload.
- **Catalog.** The five products.

The files and their modules:

| file | module | contents |
|---|---|---|
| `wrappers.dfy` | `Wrappers` | `Option` |
| `seqs.dfy` | `Seqs` | `filter`, `map`, `find`, sums by `reduce`, `slice` |
| `strings.dfy` | `Strings` | `includes`, ASCII `toLowerCase`, decimal printing and its inverse, `join`/`split` on one character, ordinal string order, `replace` of the first occurrence |
| `types.dfy` | `Types` | `Product`, `CartItem`, `BundleItem` and the pack sizes |
| `products.dfy` | `Products` | the catalog |
| `cart_context.dfy` | `CartContext` | the list operations as functions with their lemmas, and the class `Cart`, whose methods replace its `seq` fields the way the provider's `setState` calls do |
| `sorting.dfy` | `Sorting` | the four comparators and a stable sort |
| `shop.dfy` | `Shop` | the pipeline method `FilterProducts` and its specification `Arranged(Selected(..))`, categories, featured products, bundles |
| `navbar.dfy`, `cart_sidebar.dfy` | `Navbar`, `CartSidebar` | the drawers |
| `testimonials.dfy` | `Testimonials` | the carousel as a transition function, and the class `Carousel` whose methods follow it |
| `hero.dfy` | `Hero` | the banner class `Banner` |
| `product_card.dfy` | `ProductCard` | the card class `Card` and its pure derivations |
| `catalog_facts.dfy` | `CatalogFacts` | what the pages show for the shipped catalog |

How the source is represented:

- Ratings are integers in tenths: 4.8 is `48`. `Math.floor(rating)` is then
  `rating / 10`, and the featured threshold 4.7 is `47`.
- Prices and quantities are unbounded integers. The source's numbers are
  doubles, but every value here is integral and small.
- The weights passed to `removeFromCart` and `updateQuantity` are strings,
  as in the context's signature. A line matches when its size's label
  (`"50g"` or `"100g"`) equals that string and its id is equal too.

## Behaviour of the code that the model keeps

- `[...].includes(p.name)` compares whole names. The catalog's names are
  "Dried Managu", "Dried Saaga" and so on, and the list also holds the typo
  "Amaranthth". So the leafy-greens category is empty for the shipped
  catalog (`CatalogFacts.LeafyGreensEmpty`).
- Every 50g pack costs 200. So "0-200" keeps everything, and the two other
  buckets keep nothing.
- Sorting by price low-to-high and by price high-to-low give the same order,
  not reversed orders. All prices tie and the sort is stable
  (`CatalogFacts.PriceSortsKeepCatalogOrder`). A reversed ordering holds only
  when no two products share a price. The model follows the code.
- The drawers' subtotal adds product lines only. The context's `totalPrice`
  also counts bundles (`Navbar.TotalIgnoresBundles`).
- `updateQuantity` stores whatever quantity it is given. Only the minus
  button's `Math.max(1, q - 1)` keeps quantities positive.
- The add button of a product card does not look at the stock level.

## Model

| member | source | states |
|---|---|---|
| CartContext.AddedLines | src/context/CartContext.tsx:36-48 | `addToCart`'s updater: the line with the item's id and size gets the item's quantity added, otherwise the item is appended |
| CartContext.RemovedLines | src/context/CartContext.tsx:62-64 | `removeFromCart`'s updater: the lines whose id and size label both match are dropped |
| CartContext.UpdatedLines | src/context/CartContext.tsx:70-74 | `updateQuantity`'s updater: the matching lines get the given quantity, the rest are kept |
| CartContext.QuantitySum | src/context/CartContext.tsx:85 | the units on the product lines, the first `reduce` of `totalItems` |
| CartContext.LinePriceSum | src/context/CartContext.tsx:88 | price times quantity summed over the product lines; the same sum is the drawers' `total` (src/components/Navbar.tsx:17 and src/components/CartSidebar.tsx:18) |
| CartContext.AddAllExistingKey | src/context/CartContext.tsx:38-44 | in a cart with unique keys, repeated adds with the key of an existing line add their summed quantity to that line and change nothing else |
| CartContext.OnlyMatch | src/context/CartContext.tsx:38-41 | when keys are unique, a line matching (id, size) is the only line that matches |
| CartContext.AddNewLine | src/context/CartContext.tsx:36-48 | adding a key not in the cart appends the item and grows the list by one |
| CartContext.AddExistingLine | src/context/CartContext.tsx:38-44 | adding an existing key adds the item's quantity to that line only |
| CartContext.FoundLine | src/context/CartContext.tsx:38 | a line that `find` returns sits at an index whose key equals the item's |
| CartContext.AddKeepsUnique | src/context/CartContext.tsx:36-48 | adding never duplicates a key |
| CartContext.AddQuantityTotal | src/context/CartContext.tsx:36-48 | adding raises the unit count by the item's quantity |
| CartContext.AddPriceTotal | src/context/CartContext.tsx:36-48 | adding raises the line total by the item's quantity times the price of the line it lands on; an existing line keeps its own price |
| CartContext.AddAllSameKey | src/context/CartContext.tsx:38-44 | repeated adds of one key to a one-line cart leave one line holding the summed quantity |
| CartContext.AddAllFirst | src/context/CartContext.tsx:46 | the first add to an empty cart creates the line that later adds bump |
| CartContext.AddAllFromEmpty | src/context/CartContext.tsx:36-48 | adds of one key to an empty cart give a single line with the summed quantity |
| CartContext.RemoveMissingLine | src/context/CartContext.tsx:62-64 | removing a key not in the cart changes nothing |
| CartContext.RemoveLine | src/context/CartContext.tsx:62-64 | removing a present key deletes exactly its line and keeps the order of the rest |
| CartContext.RemoveKeepsUnique | src/context/CartContext.tsx:62-64 | removal keeps keys unique |
| CartContext.RemoveQuantityTotal | src/context/CartContext.tsx:62-64 | removal lowers the unit count by the removed line's quantity |
| CartContext.UpdateMissingLine | src/context/CartContext.tsx:70-74 | updating a key not in the cart changes nothing |
| CartContext.UpdateLine | src/context/CartContext.tsx:70-74 | updating a present key sets that line's quantity only |
| CartContext.UpdateKeepsKeys | src/context/CartContext.tsx:70-74 | an update keeps the length and changes nothing but quantities |
| CartContext.UpdateKeepsUnique | src/context/CartContext.tsx:70-74 | an update keeps keys unique |
| CartContext.UpdateQuantityTotal | src/context/CartContext.tsx:70-74 | an update replaces the line's quantity in the unit count |
| CartContext.AddedBundles | src/context/CartContext.tsx:50-60 | `addBundleToCart`'s updater: the bundle with the id gets the quantity added, otherwise the bundle is appended |
| CartContext.RemovedBundles | src/context/CartContext.tsx:66-68 | `removeBundleFromCart`'s updater: the bundles with the id are dropped |
| CartContext.UpdatedBundles | src/context/CartContext.tsx:76-78 | `updateBundleQuantity`'s updater: the bundles with the id get the given quantity |
| CartContext.OnlyBundle | src/context/CartContext.tsx:52 | when bundle ids are unique, a bundle with the id is the only one |
| CartContext.AddNewBundle | src/context/CartContext.tsx:50-60 | a new bundle id is appended |
| CartContext.AddExistingBundle | src/context/CartContext.tsx:52-56 | an existing bundle id has the added quantity added to it only |
| CartContext.FoundBundle | src/context/CartContext.tsx:52 | a bundle that `find` returns sits at an index with that id |
| CartContext.AddBundleKeepsUnique | src/context/CartContext.tsx:50-60 | adding a bundle never duplicates an id |
| CartContext.AddBundleQuantityTotal | src/context/CartContext.tsx:50-60 | adding a bundle raises the bundle unit count by its quantity |
| CartContext.RemoveBundle | src/context/CartContext.tsx:66-68 | removing a present bundle id deletes exactly that bundle |
| CartContext.RemoveMissingBundle | src/context/CartContext.tsx:66-68 | removing an absent bundle id changes nothing |
| CartContext.RemoveBundleKeepsUnique | src/context/CartContext.tsx:66-68 | bundle removal keeps ids unique |
| CartContext.RemoveBundleQuantityTotal | src/context/CartContext.tsx:66-68 | bundle removal lowers the bundle unit count by the removed quantity |
| CartContext.UpdateBundle | src/context/CartContext.tsx:76-78 | updating a present bundle id sets its quantity only |
| CartContext.UpdateBundleQuantityTotal | src/context/CartContext.tsx:76-78 | a bundle update replaces its quantity in the bundle unit count |
| CartContext.UpdateMissingBundle | src/context/CartContext.tsx:76-78 | updating an absent bundle id changes nothing |
| CartContext.UpdateBundleKeepsUnique | src/context/CartContext.tsx:76-78 | a bundle update keeps ids unique |
| CartContext.ItemCount | src/context/CartContext.tsx:85-86 | `totalItems`: product units plus bundle units |
| CartContext.PriceTotal | src/context/CartContext.tsx:88-89 | `totalPrice`: product line prices plus bundle price times quantity |
| CartContext.Cart.TotalItems | src/context/CartContext.tsx:85-86 | the provider's `totalItems` over its current lists |
| CartContext.Cart.TotalPrice | src/context/CartContext.tsx:88-89 | the provider's `totalPrice` over its current lists |
| CartContext.Cart.constructor | src/context/CartContext.tsx:33-34 | the provider starts with two empty lists |
| CartContext.Cart.AddToCart | src/context/CartContext.tsx:36-48 | the product list becomes the added list, bundles are untouched, and `totalItems` grows by the item's quantity |
| CartContext.Cart.AddBundleToCart | src/context/CartContext.tsx:50-60 | the bundle list becomes the added list, product lines are untouched, and `totalItems` grows by the bundle's quantity |
| CartContext.Cart.RemoveFromCart | src/context/CartContext.tsx:62-64 | the product list loses the matching lines, bundles are untouched |
| CartContext.Cart.RemoveBundleFromCart | src/context/CartContext.tsx:66-68 | the bundle list loses the matching bundle, product lines are untouched |
| CartContext.Cart.UpdateQuantity | src/context/CartContext.tsx:70-74 | the matching line's quantity is set, bundles are untouched |
| CartContext.Cart.UpdateBundleQuantity | src/context/CartContext.tsx:76-78 | the matching bundle's quantity is set, product lines are untouched |
| CartContext.Cart.ClearCart | src/context/CartContext.tsx:80-89 | both lists are emptied and both totals become 0 |
| CartContext.AddTwiceScenario | src/context/CartContext.tsx:36-48 | adding 1 and then 2 units of one product and size gives one line of 3 units and `totalItems` 3 |
| Strings.Lower | src/app/shop/page.tsx:48-50 | lower-casing keeps the length, maps each character, and leaves no upper-case ASCII letter |
| Strings.IntToString | src/components/Navbar.tsx:22 | a printed integer is non-empty, has a minus sign exactly when negative, and holds only digits after it |
| Strings.ParseIntToString | src/components/Navbar.tsx:24 | a printed amount reads back as the amount |
| Strings.RemoveFirstMeaning | src/components/Navbar.tsx:387 | `replace` with a string pattern removes the first occurrence only, or nothing if there is none |
| Seqs.Take | src/app/shop/page.tsx:92 | `slice(0, n)` is the prefix of length min(n, length) |
| Seqs.Slice | src/components/Testimonials.tsx:236 | `slice(start, end)` has the clamped length and the elements from `start` on |
| Sorting.Precedes | src/app/shop/page.tsx:77-85 | the four comparators as "may come first": 50g price ascending, 50g price descending, rating descending, name in ordinal order |
| Sorting.StableSort | src/app/shop/page.tsx:77-85 | the page's `sort` of the filtered copy, as a stable insertion sort |
| Sorting.PrecedesTotal | src/app/shop/page.tsx:77-85 | every comparator orders any two products one way or the other |
| Sorting.PrecedesTransitive | src/app/shop/page.tsx:77-85 | every comparator is transitive |
| Sorting.SortPermutes | src/app/shop/page.tsx:77-85 | sorting is a permutation that keeps the length |
| Sorting.SortSorted | src/app/shop/page.tsx:77-85 | after sorting, every pair is in comparator order |
| Sorting.SortStable | src/app/shop/page.tsx:77-85 | products tied under the comparator keep their relative order |
| Sorting.SortedUnchanged | src/app/shop/page.tsx:77-85 | sorting a list that is already in order returns it unchanged |
| Shop.Kept | src/app/shop/page.tsx:45-74 | a product passes the search, the category and the price bucket |
| Shop.Selected | src/app/shop/page.tsx:43-74 | the catalog products the three filters keep, in catalog order |
| Shop.Arranged | src/app/shop/page.tsx:76-85 | the order the `sortBy` key selects, or the list unchanged for `featured` and unknown keys |
| Shop.FilterProducts | src/app/shop/page.tsx:42-88 | the successive filter reassignments and the sort compute exactly `Arranged(Selected(catalog, term, category, range), sortBy)` |
| Shop.NarrowBySearch | src/app/shop/page.tsx:46-52 | the search step keeps the products the term matches, and all of them when the term is empty |
| Shop.NarrowByCategory | src/app/shop/page.tsx:55-63 | the category step keeps the products of the chosen category, and all of them for `all` or an unknown id |
| Shop.NarrowByPrice | src/app/shop/page.tsx:66-74 | the price step keeps the products in the chosen bucket, and all of them for `all` or an unknown bucket |
| Shop.SortBy | src/app/shop/page.tsx:77-85 | the sort step orders by the key the `sortBy` value names and leaves the order alone for any other value |
| Shop.SelectedMeaning | src/app/shop/page.tsx:45-74 | a product is shown iff it is in the catalog and passes the search, the category and the price bucket |
| Shop.NoFilterKeepsAll | src/app/shop/page.tsx:43-74 | the default filters show the whole catalog in order |
| Shop.SearchKeeps | src/app/shop/page.tsx:46-52 | a non-empty term keeps exactly the products whose name, local name or description contains it |
| Shop.SearchIgnoresCase | src/app/shop/page.tsx:48-50 | lower-casing the term does not change what it matches |
| Shop.BucketsPartition | src/app/shop/page.tsx:66-74 | every product falls in exactly one of the three price buckets |
| Shop.UnknownCategoryKeepsAll | src/app/shop/page.tsx:55-63 | an unrecognised category id filters nothing |
| Shop.UnknownRangeKeepsAll | src/app/shop/page.tsx:66-74 | an unrecognised price bucket filters nothing |
| Shop.ArrangedMeaning | src/app/shop/page.tsx:76-85 | the shown list is a permutation of the selection; it is sorted and stable for the four keys and untouched for any other key |
| Shop.Categories | src/app/shop/page.tsx:34-39 | the four filter entries with their ids, labels and counts |
| Shop.CategoryCounts | src/app/shop/page.tsx:34-39 | each category's count is the number of products the pipeline shows for that category alone |
| Shop.CategoryCount | src/app/shop/page.tsx:36-38 | a category's own count filter agrees with the pipeline's category filter |
| Shop.Featured | src/app/shop/page.tsx:91-94 | the first three catalog products rated 4.7 or more |
| Shop.FeaturedMeaning | src/app/shop/page.tsx:91-94 | at most three featured products, all rated 4.7 or more, the leading ones of the catalog; when fewer than three exist, all of them |
| Shop.BundleOffers | src/app/shop/page.tsx:97-128 | each offer's saving is its original price less its price and is positive; the ids are distinct |
| Shop.BundlePayload | src/app/shop/page.tsx:484-492 | the object the button passes to `addBundleToCart`: the offer's fields with quantity 1 |
| Shop.AddBundle | src/app/shop/page.tsx:484-492 | the button adds one unit of the offer and changes only the bundle list |
| Shop.AddBundleAgain | src/app/shop/page.tsx:484-492 | pressing it for an offer already in the cart adds one to that bundle only |
| Navbar.TotalIgnoresBundles | src/components/Navbar.tsx:17 | the drawer subtotal is `totalPrice` less the bundles' contribution, and equals it when there are no bundles |
| Navbar.TotalMissesBundle | src/components/Navbar.tsx:17 | with only a starter pack in the cart the subtotal is 0 and `totalPrice` is 350 |
| Navbar.ItemLine | src/components/Navbar.tsx:22 | one item as "name x quantity = Ksh price×quantity" |
| Navbar.TotalLine | src/components/Navbar.tsx:17 | "Total: Ksh " and the product-line subtotal |
| Navbar.ItemsText | src/components/Navbar.tsx:21-23 | the item lines in cart order joined by line breaks |
| Navbar.Message | src/components/Navbar.tsx:20-25 | greeting, item lines joined by line breaks, total and closing, separated by line breaks |
| Navbar.ItemLines | src/components/Navbar.tsx:21-22 | one text line per cart line, in cart order |
| Navbar.MessageLines | src/components/Navbar.tsx:20-25 | split at line breaks, the message is the greeting, one line per item (one empty line for an empty cart), the total and the closing |
| Navbar.TextAfterNewItem | src/components/Navbar.tsx:21-23 | adding a new product to a non-empty cart appends a line break and its line to the item text |
| Navbar.ManaguOrder | src/components/Navbar.tsx:22-24 | two 200-shilling packs print "Dried Managu x 2 = Ksh 400" and "Total: Ksh 400" |
| Navbar.DecrementRequest | src/components/Navbar.tsx:338-343 | the minus button asks for one less, but never less than 1 |
| Navbar.IncrementRequest | src/components/Navbar.tsx:350-353 | the plus button asks for one more |
| Navbar.MinusPressed | src/components/Navbar.tsx:338-343 | the cart after the minus button of line j; the sidebar's minus button (src/components/CartSidebar.tsx:190-196) is the same |
| Navbar.PlusPressed | src/components/Navbar.tsx:350-353 | the cart after the plus button of line j; the sidebar's plus button (src/components/CartSidebar.tsx:212-214) is the same |
| Navbar.ButtonsRoundTrip | src/components/Navbar.tsx:338-353 | minus undoes plus for positive quantities, plus undoes minus above 1, and minus leaves 1 at 1 |
| Navbar.MinusKeepsPositive | src/components/Navbar.tsx:338-343 | minus changes only its own line, and quantities stay positive |
| Navbar.PlusKeepsPositive | src/components/Navbar.tsx:350-353 | plus adds one to its own line only |
| Navbar.PlusThenMinus | src/components/Navbar.tsx:338-353 | minus after plus on the same line gives the cart back |
| Navbar.Badge | src/components/Navbar.tsx:144-146 | the badge shows `totalItems` exactly when it is positive |
| Navbar.CountLabel | src/components/Navbar.tsx:277 | the header "N item" or "N items"; the sidebar's header (src/components/CartSidebar.tsx:85) is the same |
| Navbar.CountLabelReadsBack | src/components/Navbar.tsx:277 | the header is the line count and one word, "item" exactly when there is one line |
| Navbar.CountAtMostBadge | src/components/Navbar.tsx:144-146 | with positive quantities the header's line count never exceeds the badge, and the badge shows whenever there is a line |
| Navbar.LinkNumber | src/components/Navbar.tsx:18 | the number with its first "+" removed, as at src/components/Navbar.tsx:387 |
| Navbar.LinkNumberDigits | src/components/Navbar.tsx:387 | the wa.me number is "254712345678", digits only |
| CartSidebar.SidebarLine | src/components/CartSidebar.tsx:26-28 | one item as cart emoji, name, size in brackets, "x quantity" and "= Ksh price×quantity" |
| CartSidebar.SidebarLines | src/components/CartSidebar.tsx:23-29 | one line per cart line, in cart order |
| CartSidebar.ItemsText | src/components/CartSidebar.tsx:21-30 | the sidebar lines in cart order joined by the three characters `%0A` |
| CartSidebar.TotalLine | src/components/CartSidebar.tsx:35 | the fourth template line: the product-line subtotal after "Total: Ksh ", ending in `%0A` |
| CartSidebar.Message | src/components/CartSidebar.tsx:32-36 | the five template lines joined by the line breaks the template literal holds |
| CartSidebar.MessageLines | src/components/CartSidebar.tsx:32-36 | the message has exactly five physical lines: salutation, request, all items on one line, total and sign-off |
| CartSidebar.TextAfterNewItem | src/components/CartSidebar.tsx:23-30 | adding a new product appends `%0A` and its line to the item text |
| CartSidebar.ManaguLine | src/components/CartSidebar.tsx:26-28 | two 50g managu packs print the cart emoji, name, "(50g) x 2" and "= Ksh 400" |
| CartSidebar.TotalReadsBack | src/components/CartSidebar.tsx:35 | the total line's amount reads back as the product-line subtotal |
| Testimonials.CountIsLength | src/components/Testimonials.tsx:13-64 | the list holds five testimonials, the modulus all the index arithmetic uses |
| Testimonials.NextIndex | src/components/Testimonials.tsx:85-90 | the last index wraps to 0, any other moves up by one |
| Testimonials.PrevIndex | src/components/Testimonials.tsx:78-83 | index 0 wraps to the last, any other moves down by one |
| Testimonials.MovesInRange | src/components/Testimonials.tsx:78-90 | next and previous stay in range and are +1 and -1 modulo five |
| Testimonials.MovesInverse | src/components/Testimonials.tsx:78-90 | previous undoes next and next undoes previous |
| Testimonials.Step | src/components/Testimonials.tsx:66-95 | one event: a tick advances only under autoplay; an arrow or a dot moves and turns autoplay off |
| Testimonials.StepInRange | src/components/Testimonials.tsx:66-95 | every transition keeps the index in range |
| Testimonials.RunInRange | src/components/Testimonials.tsx:66-95 | any run of ticks, arrows and dots keeps the index in range |
| Testimonials.AutoplayStaysOff | src/components/Testimonials.tsx:66-95 | once autoplay is off nothing turns it on, and ticks change nothing |
| Testimonials.TicksCycle | src/components/Testimonials.tsx:66-76 | under autoplay, k ticks move the index k places round |
| Testimonials.Ticks | src/components/Testimonials.tsx:69-73 | k timer firings |
| Testimonials.Carousel.constructor | src/components/Testimonials.tsx:10-11 | the carousel starts at the first testimonial with autoplay on |
| Testimonials.Carousel.OnTick | src/components/Testimonials.tsx:66-76 | the interval advances the index only while autoplay is on |
| Testimonials.Carousel.GoToPrevious | src/components/Testimonials.tsx:78-83 | the left arrow moves back with wrap-around and stops autoplay |
| Testimonials.Carousel.GoToNext | src/components/Testimonials.tsx:85-90 | the right arrow moves on with wrap-around and stops autoplay |
| Testimonials.Carousel.GoToSlide | src/components/Testimonials.tsx:92-95 | a dot jumps to its index and stops autoplay |
| Testimonials.ForwardAndBack | src/components/Testimonials.tsx:78-90 | next then previous returns to the first testimonial with autoplay off, and a tick leaves it there |
| Testimonials.Grid | src/components/Testimonials.tsx:236 | `slice(1, 4)` of the testimonials |
| Testimonials.GridShowsTwoToFour | src/components/Testimonials.tsx:236 | the grid shows testimonials 2, 3 and 4 in order |
| Hero.Advance | src/components/Hero.tsx:36 | the next quote index, `(prev + 1) % quotes.length` |
| Hero.AdvanceInRange | src/components/Hero.tsx:36 | a tick stays in range, wrapping from the last quote to the first |
| Hero.AdvanceByMod | src/components/Hero.tsx:34-39 | k ticks move the quote k places round |
| Hero.ThreeTicksReturn | src/components/Hero.tsx:34-39 | three ticks return to the same quote |
| Hero.Banner.constructor | src/components/Hero.tsx:11 | the banner starts at the first quote |
| Hero.Banner.OnTick | src/components/Hero.tsx:35-37 | a tick advances modulo three and stays in range |
| Hero.Banner.Shown | src/components/Hero.tsx:13-32 | the banner always shows one of the three quotes |
| Hero.ThreeTicks | src/components/Hero.tsx:34-39 | after three ticks the banner shows the first quote again |
| ProductCard.PriceFor | src/components/ProductCard.tsx:34 | the 50g price for 50g, the 100g price otherwise |
| ProductCard.LowStock | src/components/ProductCard.tsx:35 | the badge shows when fewer than ten are in stock |
| ProductCard.FilledStars | src/components/ProductCard.tsx:120-125 | between 0 and 5 stars, star i filled exactly when i is below the count |
| ProductCard.BenefitsShown | src/components/ProductCard.tsx:146 | the details panel lists the first three health benefits |
| ProductCard.NutritionShown | src/components/ProductCard.tsx:164 | the details panel lists the first four nutrition entries |
| ProductCard.Payload | src/components/ProductCard.tsx:37-46 | the item `handleAddToCart` passes: the product's fields, the chosen size, its price and quantity 1 |
| ProductCard.PayloadMeaning | src/components/ProductCard.tsx:34-46 | the payload is one unit of the card's product at the chosen size, priced for that size |
| ProductCard.BothSizesTwoLines | src/components/ProductCard.tsx:37-46 | one of each size of a product makes two cart lines |
| ProductCard.SameSizeMerges | src/components/ProductCard.tsx:37-46 | the same size added twice gives one line of two units |
| ProductCard.Card.Price | src/components/ProductCard.tsx:34 | the price shown for the card's selected size |
| ProductCard.Card.constructor | src/components/ProductCard.tsx:29-32 | a card starts at 50g, not favourited, details closed |
| ProductCard.Card.SelectWeight | src/components/ProductCard.tsx:183-194 | a size button sets the size and the shown price, and nothing else |
| ProductCard.Card.ToggleFavorite | src/components/ProductCard.tsx:71 | the heart flips the favourite flag only |
| ProductCard.Card.ToggleDetails | src/components/ProductCard.tsx:92 | the information button flips the details flag only |
| ProductCard.Card.HandleAddToCart | src/components/ProductCard.tsx:37-46 | the cart gets the payload for the current size and one more unit, whatever the stock |
| ProductCard.FavoriteTwice | src/components/ProductCard.tsx:71 | two presses of the heart leave it off |
| ProductCard.AddLargePack | src/components/ProductCard.tsx:194-211 | choosing 100g and pressing add puts one 100g unit at the 100g price in an empty cart |
| CatalogFacts.CatalogShipped | src/data/products.ts:4-144 | the catalog's names, ratings, stock levels and 50g prices are the ones the page facts below use |
| Products.CatalogIds | src/data/products.ts:4-144 | five products with ids 1 to 5, pairwise distinct |
| Products.CatalogPrices | src/data/products.ts:10-11 | every product costs 200 for 50g and 400 for 100g |
| CatalogFacts.LeafyGreensEmpty | src/app/shop/page.tsx:36 | no catalog name is on the leafy-green list, so the category shows nothing |
| CatalogFacts.PowdersAreThePumpkin | src/app/shop/page.tsx:37 | only the pumpkin powder is a powder |
| CatalogFacts.MushroomsAreTheMushrooms | src/app/shop/page.tsx:38 | only the mushrooms are mushrooms |
| CatalogFacts.CatalogCategories | src/app/shop/page.tsx:34-39 | the filter panel shows counts 5, 0, 1 and 1 |
| CatalogFacts.CatalogBuckets | src/app/shop/page.tsx:66-74 | "0-200" keeps the whole catalog, and "200-400" and "400+" keep nothing |
| CatalogFacts.CatalogFeatured | src/app/shop/page.tsx:91-94 | the featured products are the first three of the catalog |
| CatalogFacts.CatalogLowStock | src/components/ProductCard.tsx:35 | the low-stock badge shows on products 2 and 4 only |
| CatalogFacts.CatalogStars | src/components/ProductCard.tsx:123 | every card fills four stars |
| CatalogFacts.PriceSortsKeepCatalogOrder | src/app/shop/page.tsx:77-80 | both price sorts return the catalog in its own order |
| CatalogFacts.RatingSortOfCatalog | src/app/shop/page.tsx:81-82 | sorting by rating gives products 3, 1, 2, 5, 4, with the tied 2 and 5 in catalog order |

## Left out

- Rendering, styling, animation, icons, images and toast notifications are not modelled: they produce no state the other parts read.
- Timers are not modelled as clocks. `setInterval`/`clearInterval` become a `Tick` event or an `OnTick` method that fires only while the interval would be scheduled.
- `encodeURIComponent` and the `wa.me` URL around the message are not modelled; the model stops at the message text and the link number.
- `localeCompare` depends on the locale. It is modelled as ordinal comparison of code points.
- `toLowerCase` is modelled on ASCII letters only; there is no Unicode case mapping.
- Ratings are modelled as integer tenths, not floating point.
- `Array.prototype.sort` is a library routine that sorts in place. It is modelled as a stable sort on a value, because the page sorts a fresh copy and no other reference sees the array.
- `Sorting`: the sort's result is characterised by permutation, order and stability, not by the number of comparator calls.
- `Object.entries(nutritionalInfo)` is modelled as a list of pairs in insertion order.
- The card's `isHovered` state, `handleImageError` and the hero's video modal are left out: they only change presentation.
- The React context plumbing (`createContext`, `useCart`'s missing-provider error) is left out: it is wiring, not cart behaviour.
- The product detail page, the home, about and contact pages, the footer, the layout and `ProductsSection` are not part of this model.
- The mobile menu, the drawer open/close flags and the filter-panel visibility flag are not modelled. They are single booleans with no behaviour beyond toggling.
- CartContext.AddAllFromEmpty: stated for a first add followed by adds of the same key; CartContext.AddAllExistingKey covers adds to a line already in any cart with unique keys, but no lemma covers adds that interleave a new key with other keys.

