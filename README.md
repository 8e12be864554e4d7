# Eddjos Collections storefront: a verified model of the cart and the catalogue views

The storefront is a single-page shop. It lists products, lets a shopper
filter them by subcategory and by a text search, collects a cart of lines
keyed by product, size and colour, and hands enquiries and orders over to
WhatsApp.

This project models the parts of it that carry rules and proves what those
rules promise:

- the cart store, as a class over a sequence of lines, with its merge, removal, quantity and total rules;
- the product grid's subcategory chips and its two-stage filter;
- the price-range panel's clamped bounds;
- the WhatsApp enquiry message and links;
- the view state of the detail view, the cart panel, the image carousel, the product card and the page shell.

Modules follow the source files:

| module | models |
|---|---|
| `CartLines` | the line list and the pure `find`/`map`/`filter`/`reduce` steps of the cart store |
| `CartContext` | `CartStore`, the provider's `cartItems` state and its operations |
| `ProductGrid` | `uniqueSubcategories` and `filteredProducts` |
| `PriceFilter` | `PriceRange`, the bounds state and its handlers |
| `WhatsApp` | `generateWhatsAppLink`, `getWhatsAppFloatingLink` |
| `ProductDetailModal`, `CartPanel`, `ImageCarousel`, `ProductCard`, `App` | the views of the same names |
| `Pricing`, `CyclicIndex` | the shared displayed-price and wrap-around index rules |
| `Catalog`, `Options`, `JsMath`, `Strings`, `Seqs` | the `Product` record, nullable values, and the JavaScript operations used (`Math.min`/`max`, `%`, `trim`, `toLowerCase`, `includes`, `filter`) |

Every property below is stated in Dafny and proved by the Dafny verifier.

Where the code does something one might not expect, the model follows the code:

- `removeFromCart` filters out every line with the key, not just one. On a cart whose keys are unique this is the one line (`CartLines.RemoveUniqueLine`), and the store keeps its keys unique.
- The product grid has no price stage. The price panel only reports `(min, max)` pairs, and nothing in the code consumes them.
- The displayed price uses JavaScript truthiness: a discounted price of 0 falls back to the base price.
- The `maxAvailable` effect resets the maximum without clamping the minimum, so the range can become inverted (`PriceFilter.ShrinkingMaxAvailableInverts`).
- The search query is lower-cased but not trimmed before matching, so a trailing space can hide products (`ProductGrid.UntrimmedQueryExample`).

## Model

| member | source | states |
|---|---|---|
| CartLines.FindLine | src/context/CartContext.tsx:45-50 | the first line index whose (product, size, colour) equals the key, or none exactly when no line has the key |
| CartLines.AddLine | src/context/CartContext.tsx:44-63 | a key already present keeps the length; a new key appends exactly the item; every existing line keeps its key and position |
| CartLines.RemoveLines | src/context/CartContext.tsx:67-76 | a line survives removal exactly when it was in the cart and its key differs from the removed one |
| CartLines.UpdateLines | src/context/CartContext.tsx:80-93 | a quantity of zero or less leaves no line with the key; a positive one keeps length, keys and prices and sets the quantity of exactly the matching lines |
| CartLines.TotalPrice | src/context/CartContext.tsx:101 | the sum of price times quantity over the lines, folded left from 0; `TotalPriceNonNegative` and the `Totals` lemmas state its behaviour |
| CartLines.TotalPriceNonNegative | src/context/CartContext.tsx:101 | with no negative price or quantity, the total is never negative |
| CartLines.ItemCount | src/context/CartContext.tsx:105 | with every quantity at least one, the count of items is at least the number of lines |
| CartLines.AddMergesExisting | src/context/CartContext.tsx:45-60 | adding an item with an existing key raises that line's quantity by the added quantity, keeps its price, name and image, and changes no other line and not the length |
| CartLines.AddAppendsNew | src/context/CartContext.tsx:62 | adding an item with a new key appends it as the last line, earlier lines unchanged |
| CartLines.SizesStaySeparate | src/context/CartContext.tsx:46-49 | keys match on all three fields: two sizes of one product and colour are two lines, and an absent size matches only an absent size |
| CartLines.AddKeepsKeysUnique | src/context/CartContext.tsx:43-64 | adding keeps the line keys pairwise distinct |
| CartLines.AddKeepsPositive | src/context/CartContext.tsx:57 | adding a quantity of at least one keeps every line's quantity at least one |
| CartLines.AddTotals | src/context/CartContext.tsx:43-64 | adding raises the item count by the added quantity, and the total by that quantity at the stored line's price (merge) or by the item's subtotal (append) |
| CartLines.AddTotalsMerge | src/context/CartContext.tsx:53-59 | the merge case of the totals: count up by the added quantity, total up by that many units at the stored price |
| CartLines.AddIsReplace | src/context/CartContext.tsx:53-59 | on unique keys, the merge replaces just the matching line by its raised-quantity copy |
| CartLines.MergedTotals | src/context/CartContext.tsx:100-106 | raising one line's quantity by c raises the count by c and the total by c times that line's price |
| CartLines.PriceReplace | src/context/CartContext.tsx:100-102 | replacing one line changes the total by the difference of the two subtotals |
| CartLines.CountReplace | src/context/CartContext.tsx:104-106 | replacing one line changes the item count by the difference of the two quantities |
| CartLines.TotalsAppend | src/context/CartContext.tsx:100-106 | appending a line adds its subtotal to the total and its quantity to the count |
| CartLines.AddSameKeyTwice | src/context/CartContext.tsx:43-64 | adding one new key twice gives a single line with the summed quantity and the first add's price, name and image |
| CartLines.AddDistinctKeys | src/context/CartContext.tsx:62 | adding two new, distinct keys appends both, in call order |
| CartLines.RemoveDeletesExactly | src/context/CartContext.tsx:66-77 | removal keeps exactly the lines whose key differs, as a subsequence in the original order |
| CartLines.RemoveAbsentIsNoop | src/context/CartContext.tsx:66-77 | removing an absent key leaves the list unchanged |
| CartLines.RemoveUniqueLine | src/context/CartContext.tsx:66-77 | on unique keys, removing a line's key deletes just that position |
| CartLines.RemoveKeepsKeysUnique | src/context/CartContext.tsx:66-77 | removal keeps the keys pairwise distinct |
| CartLines.RemoveKeepsPositive | src/context/CartContext.tsx:66-77 | removal keeps every quantity at least one |
| CartLines.UpdateReplacesQuantity | src/context/CartContext.tsx:85-93 | a positive quantity replaces, not increments, the matching line's quantity; length and other lines unchanged |
| CartLines.UpdateToZeroRemoves | src/context/CartContext.tsx:79-83 | a quantity of zero or less gives exactly the removal result, so no line with the key remains |
| CartLines.UpdateAbsentIsNoop | src/context/CartContext.tsx:79-94 | changing the quantity of an absent key leaves the list unchanged |
| CartLines.UpdateKeepsKeysUnique | src/context/CartContext.tsx:79-94 | a quantity change keeps the keys pairwise distinct |
| CartLines.UpdateKeepsPositive | src/context/CartContext.tsx:80-90 | a quantity change never leaves a line below one, since non-positive quantities remove |
| CartLines.RunKeepsInvariants | src/context/CartContext.tsx:43-98 | any sequence of add, remove, update and clear calls whose adds are positive keeps keys unique and quantities positive |
| CartLines.TotalsExample | src/context/CartContext.tsx:100-106 | lines 1000 x 2 and 500 x 1 total 2500 over 3 items; removing the first leaves the second, total 500 |
| CartContext.CartStore.constructor | src/context/CartContext.tsx:26 | the cart starts empty and valid |
| CartContext.CartStore.AddToCart | src/context/CartContext.tsx:43-64 | the new lines are the add transformation of the old ones; unique keys kept, positivity kept for a positive add |
| CartContext.CartStore.RemoveFromCart | src/context/CartContext.tsx:66-77 | the new lines are the old ones without the key; unique keys and positivity kept |
| CartContext.CartStore.UpdateQuantity | src/context/CartContext.tsx:79-94 | a quantity of zero or less delegates to removal, otherwise the matching quantity is set; unique keys and positivity kept |
| CartContext.CartStore.ClearCart | src/context/CartContext.tsx:96-98 | the cart becomes empty, with total 0 and count 0 |
| CartContext.CartStore.GetTotalPrice | src/context/CartContext.tsx:100-102 | the loop returns the sum of price times quantity over the lines |
| CartContext.CartStore.GetItemCount | src/context/CartContext.tsx:104-106 | the loop returns the sum of quantities, not the number of lines |
| ProductGrid.NonNullSubcategories | src/components/ProductGrid.tsx:41-43 | holds exactly the subcategories that some product has |
| ProductGrid.Dedup | src/components/ProductGrid.tsx:39-45 | the set spread holds the same values with no duplicates |
| ProductGrid.DedupFirstSeenOrder | src/components/ProductGrid.tsx:39-45 | the deduplicated values keep the order of their first occurrence |
| ProductGrid.UniqueSubcategories | src/components/ProductGrid.tsx:39-45 | the chips have no duplicates, are exactly the non-null subcategories of the products, and are empty for no products |
| ProductGrid.UniqueSubcategoriesFirstSeen | src/components/ProductGrid.tsx:39-45 | the chips appear in the order in which their subcategories first occur among the products, and in the list of present subcategories |
| ProductGrid.FirstSeenAgrees | src/components/ProductGrid.tsx:41-43 | the order of first occurrences in the list of present subcategories is their order of first occurrence in the product list |
| ProductGrid.BySubcategory | src/components/ProductGrid.tsx:56-58 | a subsequence of the products holding exactly those whose subcategory equals the selection, or all of them for 'all', each with its multiplicity in the input |
| ProductGrid.SearchActive | src/components/ProductGrid.tsx:60 | the search stage runs exactly when a query is given and is not made only of whitespace |
| ProductGrid.MatchesQuery | src/components/ProductGrid.tsx:63-66 | a product matches exactly when the query occurs at some position of its lower-cased name, or of its subcategory or description when those are non-empty |
| ProductGrid.BySearch | src/components/ProductGrid.tsx:60-68 | a subsequence of the products; the input itself when no search is active, otherwise exactly the products matching the lower-cased query, each with its multiplicity in the input |
| ProductGrid.MissedQueryHides | src/components/ProductGrid.tsx:60-68 | an active query that a lone product does not match leaves the grid empty |
| ProductGrid.FilteredProducts | src/components/ProductGrid.tsx:54-68 | the visible products are a subsequence of the input, empty for an empty input, and hold every product that passes both stages as often as the input does, and no other |
| ProductGrid.NoCriteriaShowsAll | src/components/ProductGrid.tsx:54-60 | with 'all' and no query or a whitespace-only one, every product is shown |
| ProductGrid.BlankQueryNoFilter | src/components/ProductGrid.tsx:60 | a blank query applies no text filter |
| ProductGrid.SubcategoryStageExact | src/components/ProductGrid.tsx:56-58 | a specific subcategory keeps exactly the products that have it, in order |
| ProductGrid.SearchStageIff | src/components/ProductGrid.tsx:60-67 | a non-blank query keeps a product iff the lower-cased, untrimmed query occurs in its lower-cased name, or its non-empty subcategory or description |
| ProductGrid.FilteredIff | src/components/ProductGrid.tsx:54-68 | a product is visible iff it is an input product passing the subcategory selection and, for an active query, matching it |
| ProductGrid.UntrimmedQueryExample | src/components/ProductGrid.tsx:60-64 | the query "tee " does not find a product named "Tee", because the query is not trimmed |
| Strings.TrimEmptyIffBlank | src/components/ProductGrid.tsx:60 | `trim()` is empty exactly for strings made only of whitespace |
| Strings.Trim | src/components/ProductGrid.tsx:60 | the result starts and ends with a non-whitespace character, or is empty, and is what remains of the input after a blank head and a blank tail are cut off; `App.tsx:27` uses the same `trim()` |
| Strings.TrimSplits | src/components/ProductGrid.tsx:60 | the input is a whitespace-only head, the trimmed string, and a whitespace-only tail |
| Strings.Includes | src/components/ProductGrid.tsx:64-66 | true for every prefix, and only for a needle no longer than the text; `IncludesIffOccurs` gives the full characterisation |
| Strings.ToLower | src/components/ProductGrid.tsx:61-66 | lower-casing keeps the length and maps each character on its own, so positions are preserved |
| Strings.ToLowerIdempotent | src/components/ProductGrid.tsx:61-66 | lower-casing an already lower-cased string changes nothing, so the lower-cased query and fields compare case-insensitively |
| Strings.ToLowerHasNoCapitals | src/components/ProductGrid.tsx:61-66 | no upper-case ASCII letter remains after lower-casing |
| Strings.IncludesIffOccurs | src/components/ProductGrid.tsx:64-66 | `includes` holds iff the needle occurs at some position |
| Seqs.Filter | src/components/ProductGrid.tsx:57 | `filter` keeps exactly the elements satisfying the test, every occurrence of each (equal multiplicities), as a subsequence |
| Seqs.FilterTwice | src/components/ProductGrid.tsx:56-68 | two filters in a row equal one filter by both tests |
| PriceFilter.PriceRange.constructor | src/components/PriceFilter.tsx:17-18 | the initial bounds are 0 and `maxAvailable`, nothing reported |
| PriceFilter.PriceRange.HandleMinChange | src/components/PriceFilter.tsx:24-28 | the minimum becomes min(input, maximum), the maximum is unchanged, the bounds are ordered and the new pair is reported |
| PriceFilter.PriceRange.HandleMaxChange | src/components/PriceFilter.tsx:30-34 | the maximum becomes max(input, minimum), the minimum is unchanged, the bounds are ordered and the new pair is reported |
| PriceFilter.PriceRange.HandleMinInput | src/components/PriceFilter.tsx:73-77 | the number input for the minimum does what the slider handler does |
| PriceFilter.PriceRange.HandleMaxInput | src/components/PriceFilter.tsx:96-100 | the number input for the maximum does what the slider handler does |
| PriceFilter.PriceRange.HandleReset | src/components/PriceFilter.tsx:36-40 | the bounds become (0, maxAvailable) and that pair is reported |
| PriceFilter.PriceRange.ChangeMaxAvailable | src/components/PriceFilter.tsx:20-22 | the maximum follows the new prop, the minimum is untouched, nothing is reported, and the range stays ordered iff the old minimum is within the new prop |
| PriceFilter.ClampExample | src/components/PriceFilter.tsx:24-28 | a minimum of 5000 against a maximum of 2000 becomes 2000 and (2000, 2000) is reported |
| PriceFilter.ShrinkingMaxAvailableInverts | src/components/PriceFilter.tsx:17-28 | a minimum of 1500 followed by a shrink of the prop to 1000 leaves min 1500 above max 1000 |
| JsMath.MathMin | src/components/PriceFilter.tsx:25 | `Math.min` is at most both arguments and is one of them |
| JsMath.MathMax | src/components/PriceFilter.tsx:31 | `Math.max` is at least both arguments and is one of them |
| WhatsApp.GenerateWhatsAppLink | src/lib/whatsapp.ts:3-22 | the successive appends build the enquiry message, and the link is the base, the number, `?text=` and the encoded message |
| WhatsApp.EnquiryMessageShape | src/lib/whatsapp.ts:8-18 | the message opens with the greeting and product name, ends with the fixed request, and holds the size clause then the colour clause between them, each absent iff its value is absent or empty |
| WhatsApp.EnquiryMessage | src/lib/whatsapp.ts:8-18 | the message begins with the greeting followed by the product name, and is at least as long as greeting, name and closing together |
| WhatsApp.EmptyMeansAbsent | src/lib/whatsapp.ts:10-16 | an empty size or colour gives the same message as none |
| WhatsApp.EnquiryMessageLength | src/lib/whatsapp.ts:8-18 | the message length is the fixed parts plus exactly the present clauses |
| WhatsApp.FloatingLink | src/lib/whatsapp.ts:24-29 | the floating link is the base and number followed by the encoded fixed message, whatever else holds |
| WhatsApp.FloatingLinkIsNoEnquiry | src/lib/whatsapp.ts:3-29 | the floating link and every enquiry link share the base, number and `?text=` prefix; with an encoder that keeps distinct messages distinct, the floating link is none of the enquiry links |
| WhatsApp.FloatingMessageIsNoEnquiry | src/lib/whatsapp.ts:8-26 | the floating message differs from every enquiry message |
| WhatsApp.NotAfterGreeting | src/lib/whatsapp.ts:8-26 | no message opening with the enquiry greeting is the floating message |
| Pricing.DisplayPrice | src/components/ProductDetailModal.tsx:21 | the displayed price is the discounted price when it is set and non-zero, otherwise the base price |
| Pricing.ShowDiscount | src/components/ProductDetailModal.tsx:23 | the struck-through price is shown exactly when the original price is set, non-zero and above the price charged (the discounted price when truthy, otherwise the base price); the card uses the same rule at src/components/ProductCard.tsx:18 |
| Pricing.DiscountMeansSaving | src/components/ProductDetailModal.tsx:22-23 | the struck-through price shows only when the original price is set, non-zero, and above the price charged |
| Pricing.ZeroDiscountIgnored | src/components/ProductCard.tsx:16-18 | a zero discounted price prices and badges the product as if no discount were set |
| ProductDetailModal.Images | src/components/ProductDetailModal.tsx:26-28 | the gallery is never empty: the product's images if any, else the single picture `image_url`, or the fallback when that is empty or absent |
| ProductDetailModal.ToggleWishlist | src/components/ProductDetailModal.tsx:59-65 | a liked product is removed, any other added, for that product's id |
| ProductDetailModal.ToggleFlipsMembership | src/components/ProductDetailModal.tsx:59-65 | read as set operations, the toggle flips the product's membership and leaves every other id alone |
| ProductDetailModal.ProductDetail.constructor | src/components/ProductDetailModal.tsx:14-17 | no size or colour selected, quantity 1, first image |
| ProductDetailModal.ProductDetail.SelectSize | src/components/ProductDetailModal.tsx:165-172 | a size button, one per product size, sets the selected size to that size and changes nothing else |
| ProductDetailModal.ProductDetail.SelectColor | src/components/ProductDetailModal.tsx:186-193 | a colour button, one per product colour, sets the selected colour to that colour and changes nothing else |
| ProductDetailModal.ProductDetail.DecrementQuantity | src/components/ProductDetailModal.tsx:211 | the quantity becomes max(1, q - 1), so it stays at 1 from 1 and never drops below 1; selections and image unchanged |
| ProductDetailModal.ProductDetail.IncrementQuantity | src/components/ProductDetailModal.tsx:218 | the quantity goes up by one; selections and image unchanged |
| ProductDetailModal.ProductDetail.PrevImage | src/components/ProductDetailModal.tsx:94 | the main image moves back one place, wrapping, and stays in range; quantity and selections unchanged |
| ProductDetailModal.ProductDetail.NextImage | src/components/ProductDetailModal.tsx:100 | the main image moves forward one place, wrapping, and stays in range; quantity and selections unchanged |
| ProductDetailModal.ProductDetail.SelectImage | src/components/ProductDetailModal.tsx:111-114 | a thumbnail makes its image the main one; quantity and selections unchanged |
| ProductDetailModal.ProductDetail.HandleAddToCart | src/components/ProductDetailModal.tsx:30-47 | without both a size and a colour the cart is unchanged; otherwise it receives the displayed price, the quantity and the selections, which are among the product's sizes and colours |
| ProductDetailModal.ModalLine | src/components/ProductDetailModal.tsx:36-44 | the line is keyed by the product and both selections, carries the chosen quantity and name, is priced at the displayed price (`discounted_price || price`), and has an image exactly when the product's image URL is non-empty, and then that URL |
| ProductDetailModal.ProductDetail.ClickAddToCart | src/components/ProductDetailModal.tsx:227-229 | an out-of-stock product adds nothing; otherwise as the handler |
| ProductDetailModal.ProductDetail.ClickBuyNow | src/components/ProductDetailModal.tsx:49-57 | both branches open the enquiry with the current selections, those left empty adding no clause; nothing when out of stock |
| ProductDetailModal.ProductDetail.HandleToggleWishlist | src/components/ProductDetailModal.tsx:59-65 | issues the toggle's call: remove iff liked |
| CartPanel.HandleCheckout | src/components/CartPanel.tsx:13-19 | an empty cart builds no link and stays as it was; otherwise the link is built from the lines before the cart is emptied and the panel closed |
| CartPanel.Decrement | src/components/CartPanel.tsx:64 | the minus button sets the line's quantity one lower, through the store's update |
| CartPanel.Increment | src/components/CartPanel.tsx:71 | the plus button sets the line's quantity one higher, through the store's update |
| CartPanel.Remove | src/components/CartPanel.tsx:78 | the trash button removes the lines with that line's key |
| CartPanel.DecrementAtOneRemoves | src/components/CartPanel.tsx:64 | at quantity one the minus button removes just that line |
| CartPanel.DecrementAboveOne | src/components/CartPanel.tsx:64 | above one it lowers just that line's quantity by one |
| CartPanel.IncrementOneLine | src/components/CartPanel.tsx:71 | the plus button raises just that line's quantity, the count by one and the total by its price |
| CartPanel.Summary | src/components/CartPanel.tsx:91-98 | Subtotal and Total both show the cart's total |
| CartPanel.LineFigure | src/components/CartPanel.tsx:58 | each line shows price times quantity, its contribution to the total |
| CyclicIndex.NextIndex | src/components/ImageCarousel.tsx:51 | `(i + 1) % n` stays in range, steps by one and wraps from the last index to 0 |
| CyclicIndex.PrevIndex | src/components/ImageCarousel.tsx:45 | `(i - 1 + n) % n` stays in range, steps back by one and wraps from 0 to the last index |
| CyclicIndex.PrevUndoesNext | src/components/ImageCarousel.tsx:45-51 | back after forward, and forward after back, return to the start |
| CyclicIndex.AdvanceWithoutWrap | src/components/ImageCarousel.tsx:16 | k forward steps short of the end move the index by k |
| CyclicIndex.AdvanceSplit | src/components/ImageCarousel.tsx:16 | a + b forward steps are a steps followed by b steps |
| CyclicIndex.FullCycle | src/components/ImageCarousel.tsx:15-17 | n forward steps return to the starting index |
| JsMath.JsRem | src/components/ImageCarousel.tsx:16 | JavaScript's `%` gives a remainder in range with the dividend's sign: the Euclidean remainder for a non-negative dividend, the negated remainder of the negated dividend otherwise |
| ImageCarousel.Carousel.constructor | src/components/ImageCarousel.tsx:9-10 | the index starts at 0 |
| ImageCarousel.Carousel.Next | src/components/ImageCarousel.tsx:51 | the right arrow moves to the next index, in range |
| ImageCarousel.Carousel.Prev | src/components/ImageCarousel.tsx:45 | the left arrow moves to the previous index, in range |
| ImageCarousel.Carousel.GoTo | src/components/ImageCarousel.tsx:59-63 | a dot sets the index to its position |
| ImageCarousel.Carousel.Tick | src/components/ImageCarousel.tsx:12-17 | a timer tick, which exists only with auto-play on and images present, moves to the next index |
| ImageCarousel.Carousel.Opaque | src/components/ImageCarousel.tsx:32-39 | an image is drawn opaque iff it is at the current index |
| ImageCarousel.Carousel.ExactlyCurrentVisible | src/components/ImageCarousel.tsx:37-39 | exactly one image, the current one, is visible |
| ProductCard.HandleCardClick | src/components/ProductCard.tsx:9-14 | an out-of-stock card opens nothing; an in-stock one opens the enquiry naming the product alone |
| App.AppState.constructor | src/App.tsx:14-16 | category 'all', hero shown, empty query |
| App.IsSpecificCategory | src/App.tsx:32 | true exactly for 'men', 'women' and 'unisex', never for 'all' |
| App.AppState.ShowsHomeSections | src/App.tsx:42-56 | the home sections show only for category 'all', so never together with a category hero |
| App.AppState.ShowsCategoryHero | src/App.tsx:50 | the category hero shows exactly for a specific category with an empty query, so never for 'all' |
| App.AppState.HandleCategoryChange | src/App.tsx:18-23 | sets the category, clears the query, shows the hero iff 'all'; the home sections show iff 'all', the category banner iff men, women or unisex |
| App.AppState.HandleSearch | src/App.tsx:25-30 | sets the query; a non-blank query hides the hero, home sections and banner; a blank one leaves the hero as it was |
| App.AppState.GridProps | src/App.tsx:54 | the grid always receives the current category and query |
| App.BlankQueryGridShowsAll | src/App.tsx:54 | with a blank query, as after a category change, the grid applies no text filter and at 'all' shows every fetched product |
| App.GridSearchesQuery | src/App.tsx:54 | with a non-blank query, the grid shows exactly the products of the selected subcategory matching the lower-cased query |
| App.WhitespaceSearchExample | src/App.tsx:25-52 | a whitespace-only search keeps the home sections yet hides a category's banner, since the non-empty query is truthy |

## Left out

- Cart persistence: loading the cart from and saving it to `localStorage` with `JSON.parse`/`JSON.stringify` (src/context/CartContext.tsx:28-41) is browser I/O, not modelled.
- The `useCart` check that throws outside the provider (src/context/CartContext.tsx:125-131) is framework plumbing.
- The Supabase client and `fetchProducts` (src/lib/supabase.ts, src/components/ProductGrid.tsx:16-52) are network I/O. The fetched product list is an input; the loading flag is not modelled.
- `Catalog.Product` omits `created_at` and `updated_at`, which no modelled rule reads. It adds the optional `images` list that the detail view reads although the `Product` interface does not declare it.
- `encodeURIComponent` and the configured WhatsApp number are parameters (`encode`, `number`), left uninterpreted.
- `generateWhatsAppCartCheckout` is not part of this model. The cart panel takes it as a parameter `checkoutLink`, and its message is not described.
- The wishlist store is not part of this model. `ToggleWishlist` states which call is issued; the membership flip is proved only under a set reading of those calls.
- There is no price-range stage in the product grid, and nothing consumes the pairs the price panel reports; the model records them in `reported`.
- `alert`, `window.open`, `window.scrollTo`, closing panels and `onClose` callbacks are side effects. The model returns the link a click would open, and `closed` for the cart panel.
- `Number()` parsing of input text (including `NaN`) and `toLocaleString` formatting are left out. Prices, bounds and quantities are unbounded integers, so JavaScript's floating-point numbers are not modelled.
- `Strings.ToLower`: lower-cases ASCII letters only, because full Unicode case mapping is not modelled.
- The interval timer of the carousel is one `Tick` step; its period and its clean-up on unmount are not modelled. The carousel's images are fixed for its lifetime.
- The reviews ticker, the header's open/closed toggles and all pure markup components (footer, hero, category banner, brand story, collections, newsletter, call to action, floating button) are left out. Only the link that the floating button and the call-to-action section both open is modelled, as `WhatsApp.FloatingLink`.
