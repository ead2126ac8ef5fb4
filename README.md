# StyleAura storefront, modelled in Dafny

StyleAura is a React storefront for Indian ethnic wear. This project models its
client-side logic:

- **Stores.** The auth store decides who is signed in. Login does not check
  credentials: one fixed pair yields the administrator, and any other pair
  yields a customer made up from the e-mail address. The cart store keeps the
  signed-in user's cart lines and their totals, and keeps a copy of them in
  browser storage under a per-user key.
- **Shopper pages.**
  - The product card and the product page add to the cart, with a size
    dialog or size buttons.
  - The category listing filters and sorts.
  - The navigation bar gives search suggestions.
  - The cart page and the two-step checkout end by emptying the cart.
  - The payment panel runs its field checks.
- **Administrator pages.**
  - The product table (add, edit, delete, search).
  - The announcements board.
  - The order list (search, status filter, newest first, status change).
  - The dashboard figures.
  - The password form.
  - The header's quick search and notification bell.

Values become datatypes and pure functions. Each component or store whose
state the source updates becomes a class. Its fields are the component's state
variables, and its methods are the handlers, each specified against those
functions. The JavaScript built-ins the code relies on are written out on
sequences, with their JavaScript meaning:

- `filter`, `map`, `slice`, `find`, `findIndex`, `reduce`;
- `Array.from(new Set(..))`;
- `toLowerCase().includes(..)` and `trim`;
- number-to-string conversion;
- truthiness, and `??` as distinct from `||`.

The source's in-place `sort` is an insertion sort on an array. Both callers
sort by a numeric key.

Files:

- `seqs.dfy`, `text.dfy`: the built-ins.
- `catalog.dfy`: the product and order records and the two price readings.
- `sorting.dfy`: the array sort.
- `cart_store.dfy`, `auth_store.dfy`: the two stores.
- One file per page or component: `cart_page.dfy`, `checkout.dfy`,
  `payment_methods.dfy`, `product_card.dfy`, `product_detail.dfy`,
  `product_category.dfy`, `navbar.dfy`, `admin_products.dfy`,
  `admin_announcements.dfy`, `admin_orders.dfy`, `admin_dashboard.dfy`,
  `admin_settings.dfy`, `admin_header.dfy`.

Some behaviours of the source that the model makes explicit and proves:

- Product ids count the table rather than the ids already handed out. After a
  delete, the next add can reuse a live id (`AdminProducts.AddAfterDeleteReusesId`).
- "Clear All Filters" sets the price range to 0–10000. The page opens with
  0–50000, so clearing hides products that were shown
  (`ProductCategory.ClearingHidesDearProducts`).
- A sold-out product (stock 0) is not counted as low on stock
  (`AdminDashboard.SoldOutIsNotLowStock`).
- The cart page's quantity stepper acts on every size of a product
  (`CartPage.StepperActsOnEverySize`).
- The cart charges `salePrice ?? price` while the pages show `salePrice || price`.
  The two differ exactly for a sale price of 0 (`Catalog.PriceReadingsDiffer`).
- The navbar's Wishlist link opens `/wishlist`, which mounts the category page
  without a category id. The page's wishlist branch is therefore never taken,
  and the category filter matches no product, so the page is empty
  (`ProductCategory.UnmatchedCategoryListsNothing`).
- The product page keeps its quantity, size and heart when a link leads to
  another product, so Add to Cart can then add more than the new product's
  stock (`ProductDetail.SwitchThenAdd`).

## Model

| member | source | states |
|---|---|---|
| Seqs.Filter | src/components/Navbar.tsx:60-65 | `filter`: exactly the elements the predicate accepts, each as often as it occurs; never longer than the input (the order is stated by `Seqs.FilterAppend`) |
| Seqs.FilterAppend | src/pages/admin/AdminProducts.tsx:175 | filtering a concatenation is concatenating the filtered parts |
| Seqs.FilterIdempotent | src/contexts/CartContext.tsx:98-100 | filtering again by the same predicate changes nothing |
| Seqs.FilterKeepsAll | src/pages/admin/AdminOrders.tsx:49-58 | a filter every element passes returns its input |
| Seqs.FilterPreservesNoDup | src/pages/ProductCategory.tsx:139-145 | a filtered duplicate-free list stays duplicate-free |
| Seqs.MapWhere | src/contexts/CartContext.tsx:103-114 | a conditional `map`: same length, the selected elements transformed, the others untouched |
| Seqs.Map | src/components/admin/AdminHeader.tsx:70-75 | `map`: same length, each element transformed in place |
| Seqs.Take | src/components/Navbar.tsx:66 | `slice(0, n)`: a prefix of length min(n, length) |
| Seqs.SumOfAppend | src/pages/admin/AdminDashboard.tsx:49 | a `reduce` sum over a concatenation is the sum of the two sums |
| Seqs.SumOfUpdate | src/contexts/CartContext.tsx:82-89 | replacing one element changes the sum by the difference of its terms |
| Seqs.SumOfMapWhere | src/pages/admin/AdminOrders.tsx:72-85 | an update that preserves each element's measure preserves the sum |
| Seqs.Dedup | src/pages/ProductCategory.tsx:55-58 | `Array.from(new Set(..))`: no duplicates, the same members, never longer |
| Text.Lower | src/components/Navbar.tsx:62 | `toLowerCase`: same length, each character lowered |
| Text.Contains | src/components/Navbar.tsx:62 | `includes`: true exactly when the needle occurs at some position |
| Text.TrimStart | src/components/Navbar.tsx:58 | a suffix of the input whose removed characters are all white space and that does not start with white space |
| Text.TrimEnd | src/components/Navbar.tsx:58 | a prefix of the input whose removed characters are all white space and that does not end with white space |
| Text.Trim | src/components/Navbar.tsx:58 | `trim`: empty exactly when the input is all white space; otherwise neither end is white space |
| Text.NatToString | src/pages/admin/AdminProducts.tsx:114 | decimal digits only, at least one, no leading zero |
| Text.DigitsValueOfNatToString | src/pages/admin/AdminProducts.tsx:114 | reading the digits back gives the number (round trip) |
| Text.NatToStringInjective | src/pages/admin/AdminAnnouncements.tsx:104 | distinct numbers give distinct strings |
| Catalog.PriceReadingsDiffer | src/contexts/CartContext.tsx:35 | the cart's `salePrice ?? price` and the pages' `salePrice \|\| price` differ exactly when the sale price is 0 and the price is not |
| Catalog.FindById | src/pages/ProductDetail.tsx:30 | `find`: none exactly when no product has the id; otherwise the first product with the id |
| Sorting.SortBy | src/pages/ProductCategory.tsx:119-133 | sorts the array in place into non-decreasing key order and keeps its elements (multiset) |
| Sorting.Sorted | src/pages/admin/AdminOrders.tsx:61-63 | `[...s].sort(..)`: a copy in non-decreasing key order with the same elements |
| Sorting.Insert | src/pages/ProductCategory.tsx:119-133 | one insertion step: extends the sorted prefix by one and keeps the elements |
| Sorting.SwapDown | src/pages/ProductCategory.tsx:119-133 | exchanges two neighbours, nothing else changes |
| CartStore.TotalsOfEmptyAndNonNegative | src/contexts/CartContext.tsx:32-36 | both totals of an empty cart are 0; the item count is non-negative when the quantities are |
| CartStore.SameSizeIsKeyEquality | src/contexts/CartContext.tsx:77-80 | the size test (`!a && !b \|\| a === b`) is equality of a normalised size, so an equivalence |
| CartStore.FindLine | src/contexts/CartContext.tsx:77-80 | `findIndex`: -1 exactly when no line has the identity; otherwise the first such line |
| CartStore.Added | src/contexts/CartContext.tsx:71-95 | adding grows the cart by at most one line, leaves a line with the identity, adds the quantity to the item count, and keeps identities unique |
| CartStore.Removed | src/contexts/CartContext.tsx:98-100 | no line of the product is left; every other line keeps its multiplicity; identities stay unique |
| CartStore.RemovedKeepsOrder | src/contexts/CartContext.tsx:98-100 | removal acts line by line and keeps the order: it distributes over concatenation and keeps or drops a single line by its product id |
| CartStore.Updated | src/contexts/CartContext.tsx:103-114 | a quantity of 0 or less removes the product; otherwise every line of the product, whatever its size, takes the quantity and the rest stays |
| CartStore.FilterPreservesUnique | src/contexts/CartContext.tsx:98-100 | a filter keeps line identities unique |
| CartStore.SplitUnique | src/contexts/CartContext.tsx:98-100 | the tail of a cart with unique identities is unique and shares no identity with the head |
| CartStore.ConsUnique | src/contexts/CartContext.tsx:98-100 | a line placed in front of a unique cart lacking its identity keeps it unique |
| CartStore.AddToExistingLine | src/contexts/CartContext.tsx:82-89 | with a matching line, only the first one gains the quantity |
| CartStore.AddNewLine | src/contexts/CartContext.tsx:90-93 | without a matching line, exactly one line is appended |
| CartStore.AddedByIdentity | src/contexts/CartContext.tsx:71-95 | an add raises its identity's quantity by q and files at most one line under it; other identities are untouched |
| CartStore.RepeatedAddsMerge | src/contexts/CartContext.tsx:71-95 | any run of adds of one identity leaves one line holding the sum of the quantities |
| CartStore.RepeatedAddsStay | src/contexts/CartContext.tsx:71-95 | further adds to an identity with one line keep one line and accumulate the quantity |
| CartStore.RemoveThenAdd | src/contexts/CartContext.tsx:98-100 | re-adding a removed product appends a single fresh line |
| CartStore.RemoveIdempotent | src/contexts/CartContext.tsx:98-100 | removing twice is removing once |
| CartStore.Cart.constructor | src/contexts/CartContext.tsx:28 | starts empty with nobody signed in |
| CartStore.Cart.Save | src/contexts/CartContext.tsx:62-68 | the signed-in user's record becomes the cart; nobody signed in writes nothing |
| CartStore.Cart.SwitchUser | src/contexts/CartContext.tsx:39-60 | adopts the new user's stored cart when it parses, otherwise empty, and storage echoes it |
| CartStore.Cart.AddToCart | src/contexts/CartContext.tsx:71-95 | nobody signed in: nothing changes; otherwise the cart becomes `Added(..)` and is saved |
| CartStore.Cart.RemoveFromCart | src/contexts/CartContext.tsx:98-100 | the cart becomes `Removed(..)` and is saved |
| CartStore.Cart.UpdateQuantity | src/contexts/CartContext.tsx:103-114 | the cart becomes `Updated(..)` and is saved |
| CartStore.Cart.ClearCart | src/contexts/CartContext.tsx:117-119 | the cart becomes empty and is saved |
| CartStore.SwitchAwayAndBack | src/contexts/CartContext.tsx:39-68 | a user's saved cart survives another user's session |
| AuthStore.CustomerId | src/contexts/AuthContext.tsx:66 | `user-` followed by the decimal digits of the draw, which read back as the draw; never the administrator's id |
| AuthStore.LocalPart | src/contexts/AuthContext.tsx:67 | `split('@')[0]`: a prefix without `@`, followed by `@` when shorter than the address |
| AuthStore.LocalPartIsPrefixBeforeAt | src/contexts/AuthContext.tsx:67 | the local part is exactly the text before the first `@` |
| AuthStore.LoginUser | src/contexts/AuthContext.tsx:46-79 | administrator exactly for the fixed e-mail and password pair; otherwise a customer named by the local part, with the drawn id |
| AuthStore.WrongAdminPasswordGivesCustomer | src/contexts/AuthContext.tsx:55-71 | the administrator e-mail with another password signs in a customer named "admin" |
| AuthStore.RegisteredUser | src/contexts/AuthContext.tsx:94-101 | always a customer, with the given details and the drawn id |
| AuthStore.Merged | src/contexts/AuthContext.tsx:112-129 | `{...user, ...data}`: each field present in the patch overwrites, each absent one is kept |
| AuthStore.MergeLaws | src/contexts/AuthContext.tsx:112-129 | the empty patch is the identity; merging a patch twice is merging it once |
| AuthStore.Auth.constructor | src/contexts/AuthContext.tsx:26-27 | nobody signed in, loading |
| AuthStore.Auth.Restore | src/contexts/AuthContext.tsx:30-43 | a stored user is adopted, a corrupt record is dropped, and loading stops |
| AuthStore.Auth.Login | src/contexts/AuthContext.tsx:46-79 | the produced user is signed in and stored; loading stops |
| AuthStore.Auth.Register | src/contexts/AuthContext.tsx:82-109 | the new customer is signed in and stored |
| AuthStore.Auth.UpdateProfile | src/contexts/AuthContext.tsx:112-129 | error when nobody is signed in; otherwise the merged user is signed in, stored and returned |
| AuthStore.Auth.UpdatePassword | src/contexts/AuthContext.tsx:132-141 | always succeeds, and loading stops |
| AuthStore.Auth.Logout | src/contexts/AuthContext.tsx:144-147 | nobody signed in and nothing stored |
| Checkout.ShippingCost | src/pages/Checkout.tsx:114 | free exactly from 999 on; otherwise 99 |
| Checkout.FinalTotal | src/pages/Checkout.tsx:115 | the total plus the 99 shipping fee below 999; the total unchanged from 999 on |
| Checkout.FreeShippingBoundary | src/pages/Checkout.tsx:114-115 | 998 pays 1097 while 999 pays 999 |
| Checkout.EntryGate | src/pages/Checkout.tsx:104-112 | to login exactly without a user; to the cart exactly with a user and no lines; otherwise the form |
| Checkout.Flow.constructor | src/pages/Checkout.tsx:75-77 | step 1, no card form, not processing |
| Checkout.Flow.Submit | src/pages/Checkout.tsx:117-124 | only from the form, which is drawn at step 1 alone (src/pages/Checkout.tsx:151): card moves to step 2 with the card form; other methods start processing; nothing while processing or on another step |
| Checkout.Flow.PaymentSubmit | src/pages/Checkout.tsx:126-128 | at step 2 and not processing, starts processing; otherwise nothing |
| Checkout.Flow.StartPayment | src/pages/Checkout.tsx:130-131 | processing starts |
| Checkout.Flow.Back | src/pages/Checkout.tsx:485-492 | back to step 1 without the card form, unless processing |
| Checkout.Flow.FinishPayment | src/pages/Checkout.tsx:134-142 | processing stops, the cart is emptied and saved, the page goes home |
| CartPage.PageView | src/pages/Cart.tsx:16-54 | login prompt exactly without a user; empty state exactly for a user with no lines |
| CartPage.RowSubtotal | src/pages/Cart.tsx:158 | price × quantity when the sale price is 0, and the cart store's line charge in every other case |
| CartPage.ShowsFreeShipping | src/pages/Cart.tsx:194 | "Free" exactly when checkout charges no shipping |
| CartPage.SummaryTotal | src/pages/Cart.tsx:202 | the cart page's total equals the checkout's final total |
| CartPage.ProceedTarget | src/pages/Cart.tsx:205-217 | "/checkout" exactly when signed in, otherwise "/login?redirect=/checkout" |
| CartPage.DecrementRow | src/pages/Cart.tsx:131-133 | disabled at quantity 1 or less, changing nothing; otherwise the product's quantity becomes one less and the user's saved record becomes the new cart and every other record is kept |
| CartPage.IncrementRow | src/pages/Cart.tsx:150 | the product's quantity becomes one more and the user's saved record becomes the new cart and every other record is kept |
| CartPage.TypeQuantity | src/pages/Cart.tsx:142-147 | only a parsed positive number is forwarded, otherwise nothing changes; when forwarded it becomes the quantity and the user's saved record becomes the new cart and every other record is kept |
| CartPage.RemoveRow | src/pages/Cart.tsx:56-57 | removes the product, every size of it, and the user's saved record becomes the new cart and every other record is kept |
| CartPage.StepperActsOnEverySize | src/pages/Cart.tsx:131-133 | lowering one size's quantity sets the other size's too |
| PaymentMethods.Validate | src/components/PaymentMethods.tsx:25-75 | accepted exactly when no check fails; a rejection names a failing check with no earlier check failing |
| PaymentMethods.CashOnDeliveryAlwaysAccepted | src/components/PaymentMethods.tsx:73-75 | cash on delivery passes whatever the fields hold |
| PaymentMethods.ExpiryHasNoMonthRange | src/components/PaymentMethods.tsx:56 | the expiry check accepts month 13 |
| PaymentMethods.Panel.constructor | src/components/PaymentMethods.tsx:16-22 | UPI selected, empty fields, not processing |
| PaymentMethods.Panel.Edit | src/components/PaymentMethods.tsx:95 | the inputs set the fields |
| PaymentMethods.Panel.Submit | src/components/PaymentMethods.tsx:25-90 | nothing while processing; otherwise the checks' verdict, and processing starts exactly on acceptance |
| PaymentMethods.Panel.Complete | src/components/PaymentMethods.tsx:78-90 | processing stops |
| ProductCard.Card.constructor | src/components/ProductCard.tsx:26-28 | not wishlisted, dialog closed, no size |
| ProductCard.Card.ToggleWishlist | src/components/ProductCard.tsx:31-48 | flips only for a signed-in user |
| ProductCard.Card.HandleAddToCart | src/components/ProductCard.tsx:73-94 | nothing without a user, storage included; a product needing a size opens the dialog and leaves the cart alone; any other adds one unit without a size and the user's saved record becomes the new cart and every other record is kept |
| ProductCard.Card.SelectSize | src/components/ProductCard.tsx:193 | the size is chosen |
| ProductCard.Card.CloseDialog | src/components/ProductCard.tsx:200 | the dialog closes |
| ProductCard.Card.ConfirmAddToCart | src/components/ProductCard.tsx:96-112 | without a size nothing changes; with one, one unit of that size is added, the user's saved record becomes the new cart and every other record is kept, and the dialog resets |
| ProductCard.AddSizedProduct | src/components/ProductCard.tsx:73-112 | open, choose, confirm: exactly one unit of that size is in the cart and the dialog is reset |
| ProductCard.ToggleTwice | src/components/ProductCard.tsx:31-48 | two toggles restore the heart |
| ProductDetail.ResolveProduct | src/pages/ProductDetail.tsx:30-47 | the first catalog product with the id, as `find` returns it, when there is one; otherwise the fallback saree |
| ProductDetail.UnknownIdShowsFallback | src/pages/ProductDetail.tsx:30-47 | an unknown id shows product "1", a saree |
| ProductDetail.Page.constructor | src/pages/ProductDetail.tsx:21-23 | quantity 1, no size, within the stock |
| ProductDetail.Page.ChangeProduct | src/pages/ProductDetail.tsx:19-30 | a new id in the route re-resolves the product and resets nothing else |
| ProductDetail.Page.Decrement | src/pages/ProductDetail.tsx:197 | one less only above 1; never below 1, and within the stock when it was |
| ProductDetail.Page.Increment | src/pages/ProductDetail.tsx:216 | one more only below a truthy stock figure; within the stock when it was |
| ProductDetail.Page.TypeQuantity | src/pages/ProductDetail.tsx:208-213 | a positive value within the stock is taken; anything else is ignored; within the stock when it was |
| ProductDetail.Page.SelectSize | src/pages/ProductDetail.tsx:183 | the size is chosen |
| ProductDetail.Page.ToggleWishlist | src/pages/ProductDetail.tsx:49-66 | flips only for a signed-in user |
| ProductDetail.Page.AddToCart | src/pages/ProductDetail.tsx:91-116 | disabled when unavailable; refused without a user or with a missing size, changing nothing; otherwise adds the quantity with the chosen size and the user's saved record becomes the new cart and every other record is kept |
| ProductDetail.SwitchThenAdd | src/pages/ProductDetail.tsx:19-30 | after a change of product the add carries the old quantity and size, which may exceed the new stock |
| ProductDetail.CardAndPageAddsShareALine | src/pages/ProductDetail.tsx:110 | the page's empty size and the card's missing size share one cart line holding both quantities |
| ProductCategory.BaseProducts | src/pages/ProductCategory.tsx:66-88 | per category id: the curated lists, the wishlist stand-in, everything, or the discounted products and the products of that category each with their multiplicities in the main list |
| ProductCategory.UnmatchedCategoryListsNothing | src/pages/ProductCategory.tsx:66-88 | an id that is neither a list id nor any product's category selects nothing, as for the category-less `/wishlist` route |
| ProductCategory.Refined | src/pages/ProductCategory.tsx:91-115 | each product is kept, as often as it occurs, exactly when it passes the search, size and price filters |
| ProductCategory.EmptyQueryMatchesAll | src/pages/ProductCategory.tsx:93-101 | the empty query matches every product |
| ProductCategory.GuardsChangeNothing | src/pages/ProductCategory.tsx:91-101 | the empty-selection and empty-query guards do not change the outcome |
| ProductCategory.Listing | src/pages/ProductCategory.tsx:119-133 | a permutation of the refined products: ascending or descending by shown price for the two price orders, unchanged otherwise |
| ProductCategory.Toggled | src/pages/ProductCategory.tsx:139-145 | the size's membership flips, other sizes stay, no duplicates appear |
| ProductCategory.ToggleOnThenOff | src/pages/ProductCategory.tsx:139-145 | ticking then unticking restores the list |
| ProductCategory.FlatSizes | src/pages/ProductCategory.tsx:55-58 | exactly the sizes some product offers |
| ProductCategory.AllSizes | src/pages/ProductCategory.tsx:55-58 | each size a non-saree product offers, once |
| ProductCategory.FilterPanel.constructor | src/pages/ProductCategory.tsx:47-49 | "featured", range 0 to 50000, no sizes |
| ProductCategory.FilterPanel.SetSort | src/pages/ProductCategory.tsx:348 | the sort is chosen |
| ProductCategory.FilterPanel.ToggleSize | src/pages/ProductCategory.tsx:139-145 | toggles the size; no duplicates |
| ProductCategory.FilterPanel.ChangePrice | src/pages/ProductCategory.tsx:147-149 | the bounds as given |
| ProductCategory.FilterPanel.ClearFilters | src/pages/ProductCategory.tsx:243-246 | no sizes, range 0 to 10000; the sort is kept |
| ProductCategory.ClearingHidesDearProducts | src/pages/ProductCategory.tsx:243-246 | a product above 10000 and up to 50000 is shown before clearing and hidden after |
| Navbar.Suggestions | src/components/Navbar.tsx:54-74 | nothing for a short trimmed query; otherwise a prefix of the matching catalog products in order, of exactly five when there are at least five and all of them when there are at most five |
| Navbar.SuggestionsAreSearchHits | src/components/Navbar.tsx:60-65 | every suggestion is also a hit on the full search page |
| Navbar.PaddedShortQuerySuggestsNothing | src/components/Navbar.tsx:58 | white space around two letters does not reach the threshold |
| Navbar.LeadingSpacesTrimmed | src/components/Navbar.tsx:58 | leading spaces are trimmed |
| Navbar.TrailingSpacesTrimmed | src/components/Navbar.tsx:58 | trailing spaces are trimmed |
| Navbar.SearchBox.constructor | src/components/Navbar.tsx:22-24 | empty query, no results, closed |
| Navbar.SearchBox.Input | src/components/Navbar.tsx:54-74 | the box holds the text; the drop-down is open exactly for a long query and lists its suggestions |
| Navbar.SearchBox.Submit | src/components/Navbar.tsx:44-52 | an all-white-space query does nothing; any other opens the search for the text and clears the box |
| Navbar.SearchBox.Pick | src/components/Navbar.tsx:135-138 | goes to the picked product and clears the box |
| Navbar.SearchBox.ClickOutside | src/components/Navbar.tsx:31-36 | the drop-down closes |
| Navbar.VisibleSuggestionsMatch | src/components/Navbar.tsx:54-74 | whatever the open drop-down shows is a catalog product matching the text |
| AdminProducts.SalePriceFor | src/pages/admin/AdminProducts.tsx:115-117 | none exactly when price or discount is 0; otherwise the discounted price rounded to the nearest unit |
| AdminProducts.SalePriceWithinPrice | src/pages/admin/AdminProducts.tsx:115-117 | a discount of at most 100% gives a sale price between 0 and the price |
| AdminProducts.NewProduct | src/pages/admin/AdminProducts.tsx:108-127 | numbered from the table length, the form's fields, no tags, the sale price derived from price and discount |
| AdminProducts.WithSalePrice | src/pages/admin/AdminProducts.tsx:150-154 | the sale price is recomputed; every other field is as revised |
| AdminProducts.Edited | src/pages/admin/AdminProducts.tsx:142-168 | every product with the id becomes the revision; the others and all ids stay |
| AdminProducts.Deleted | src/pages/admin/AdminProducts.tsx:171-187 | exactly the products without the id remain, with their multiplicities |
| AdminProducts.DeletedKeepsOrder | src/pages/admin/AdminProducts.tsx:175 | deletion acts product by product and keeps the order: it distributes over concatenation and keeps or drops a single product by its id |
| AdminProducts.EditIdempotent | src/pages/admin/AdminProducts.tsx:142-168 | applying the same edit twice is applying it once |
| AdminProducts.DeleteUndoesAdd | src/pages/admin/AdminProducts.tsx:171-187 | deleting a freshly added product restores the table, as long as its id was unused |
| AdminProducts.AddAfterDeleteReusesId | src/pages/admin/AdminProducts.tsx:114 | add, add, delete the first, add: two products share "product-2" |
| AdminProducts.ProductIdsDiffer | src/pages/admin/AdminProducts.tsx:114 | tables of different sizes hand out different ids |
| AdminProducts.FilteredProducts | src/pages/admin/AdminProducts.tsx:66-69 | exactly the products whose name or category contains the term, ignoring case, each with its multiplicity |
| AdminProducts.Table.constructor | src/pages/admin/AdminProducts.tsx:45-63 | the catalog, a blank form, nothing selected, no term |
| AdminProducts.Table.Search | src/pages/admin/AdminProducts.tsx:356 | the term is set |
| AdminProducts.Table.EditDraft | src/pages/admin/AdminProducts.tsx:84-91 | the form is set |
| AdminProducts.Table.AddSubmit | src/pages/admin/AdminProducts.tsx:108-139 | the new product is appended and the form reset |
| AdminProducts.Table.Select | src/pages/admin/AdminProducts.tsx:72-81 | the row's product is selected |
| AdminProducts.Table.EditSubmit | src/pages/admin/AdminProducts.tsx:142-168 | nothing without a selection; otherwise the table is edited and the selection cleared |
| AdminProducts.Table.DeleteSubmit | src/pages/admin/AdminProducts.tsx:171-187 | nothing without a selection; otherwise the selected id is deleted and the selection cleared |
| AdminAnnouncements.AnnouncementIdsDiffer | src/pages/admin/AdminAnnouncements.tsx:104 | creations at different instants get different ids |
| AdminAnnouncements.Created | src/pages/admin/AdminAnnouncements.tsx:103-121 | the form's fields under the time-stamped id |
| AdminAnnouncements.Toggled | src/pages/admin/AdminAnnouncements.tsx:143-152 | every announcement with the id flips its state; the others stay |
| AdminAnnouncements.ToggleTwice | src/pages/admin/AdminAnnouncements.tsx:143-152 | switching twice restores the list |
| AdminAnnouncements.Updated | src/pages/admin/AdminAnnouncements.tsx:123-134 | every announcement with the edited id becomes the edited one; the others stay |
| AdminAnnouncements.Deleted | src/pages/admin/AdminAnnouncements.tsx:136-141 | exactly the announcements without the id remain, each with its multiplicity |
| AdminAnnouncements.ActiveAfter | src/pages/admin/AdminAnnouncements.tsx:143-152 | "activated" exactly when the first announcement with the id is active |
| AdminAnnouncements.Board.constructor | src/pages/admin/AdminAnnouncements.tsx:91-101 | the initial list, a blank form running a month, nothing being edited |
| AdminAnnouncements.Board.EditDraft | src/pages/admin/AdminAnnouncements.tsx:179 | the form is set |
| AdminAnnouncements.Board.Create | src/pages/admin/AdminAnnouncements.tsx:103-121 | disabled for an empty message; otherwise appends and resets the form |
| AdminAnnouncements.Board.SetEditing | src/pages/admin/AdminAnnouncements.tsx:312 | the edited announcement is set |
| AdminAnnouncements.Board.SaveEdit | src/pages/admin/AdminAnnouncements.tsx:123-134 | nothing without an edit or with an empty message; otherwise updates and closes the edit |
| AdminAnnouncements.Board.Delete | src/pages/admin/AdminAnnouncements.tsx:136-141 | the list becomes `Deleted(..)` |
| AdminAnnouncements.Board.Toggle | src/pages/admin/AdminAnnouncements.tsx:143-152 | switches the id and reports the new state of its first announcement |
| AdminDashboard.RevenueAdds | src/pages/admin/AdminDashboard.tsx:49 | revenue is additive over any split of the orders |
| AdminDashboard.RevenueNonNegative | src/pages/admin/AdminDashboard.tsx:49 | no negative order totals, no negative revenue |
| AdminDashboard.Overview | src/pages/admin/AdminDashboard.tsx:49-52 | the four figures; the low-stock count is the number of products whose stock is truthy and below 10, so at most the product count and 0 exactly when no product is low |
| AdminDashboard.SoldOutIsNotLowStock | src/pages/admin/AdminDashboard.tsx:52 | stock 0 does not count as low |
| AdminOrders.FilteredOrders | src/pages/admin/AdminOrders.tsx:49-58 | each order is kept, as often as it occurs, exactly when it matches the term and the status |
| AdminOrders.NoFilterShowsAll | src/pages/admin/AdminOrders.tsx:49-58 | the empty term with "all" shows every order in order |
| AdminOrders.SortedOrders | src/pages/admin/AdminOrders.tsx:61-63 | a permutation of the filtered orders, newest first |
| AdminOrders.StatusChanged | src/pages/admin/AdminOrders.tsx:72-85 | every order with the id takes the status; the others stay |
| AdminOrders.StatusChangeKeepsRevenue | src/pages/admin/AdminOrders.tsx:72-85 | a status change leaves the total revenue unchanged |
| AdminOrders.LastStatusWins | src/pages/admin/AdminOrders.tsx:72-85 | of two changes to one order, the later wins |
| AdminOrders.OrdersPage.constructor | src/pages/admin/AdminOrders.tsx:41-45 | the initial orders, no term, "all", nothing viewed |
| AdminOrders.OrdersPage.Search | src/pages/admin/AdminOrders.tsx:111 | the term is set |
| AdminOrders.OrdersPage.FilterStatus | src/pages/admin/AdminOrders.tsx:116 | the status filter is set |
| AdminOrders.OrdersPage.View | src/pages/admin/AdminOrders.tsx:66-69 | the order is shown |
| AdminOrders.OrdersPage.ChangeStatus | src/pages/admin/AdminOrders.tsx:72-85 | the list becomes `StatusChanged(..)` |
| AdminSettings.CheckPasswords | src/pages/admin/AdminSettings.tsx:71-118 | changed exactly when no check fails; a refusal names a failing check with no earlier check failing |
| AdminSettings.AnyCurrentPasswordWorks | src/pages/admin/AdminSettings.tsx:71-118 | any non-empty current password is accepted |
| AdminSettings.PasswordForm.constructor | src/pages/admin/AdminSettings.tsx:43-45 | empty fields |
| AdminSettings.PasswordForm.Edit | src/pages/admin/AdminSettings.tsx:43-45 | the fields are set |
| AdminSettings.PasswordForm.Submit | src/pages/admin/AdminSettings.tsx:71-118 | the checks' verdict; the fields are cleared exactly on a change |
| AdminHeader.ProductHits | src/components/admin/AdminHeader.tsx:65-75 | entry `i` is a product entry with the id and name of the `i`-th matching product and a link to its admin page |
| AdminHeader.OrderHits | src/components/admin/AdminHeader.tsx:78-88 | entry `i` is an order entry for the `i`-th matching order, named `Order #<id>`, linking to its admin page |
| AdminHeader.HeaderResults | src/components/admin/AdminHeader.tsx:59-96 | nothing for a short query; otherwise a prefix of the product entries followed by the order entries, of exactly five when there are at least five and all of them when there are at most five; never an order before a product |
| AdminHeader.ProductHitsAreEntries | src/components/admin/AdminHeader.tsx:65-75 | every product entry is of a listed product matching the query |
| AdminHeader.OrderHitsAreEntries | src/components/admin/AdminHeader.tsx:78-88 | every order entry is of a listed order matching the query |
| AdminHeader.HeaderHitsAreMatches | src/components/admin/AdminHeader.tsx:65-90 | every product entry shown carries the id and admin link of a listed product matching the query, and every order entry those of a matching order |
| AdminHeader.ProductsCrowdOutOrders | src/components/admin/AdminHeader.tsx:90 | five matching products leave no room for orders |
| AdminHeader.AllRead | src/components/admin/AdminHeader.tsx:98-104 | every notification is read and nothing else changes |
| AdminHeader.Header.constructor | src/components/admin/AdminHeader.tsx:30-42 | empty search and the four initial notifications |
| AdminHeader.Header.Input | src/components/admin/AdminHeader.tsx:59-96 | the drop-down is open exactly for a long query and lists its entries |
| AdminHeader.Header.NavigateToSearch | src/components/admin/AdminHeader.tsx:106-112 | an all-white-space query does nothing; any other opens the search and clears the box |
| AdminHeader.Header.Clear | src/components/admin/AdminHeader.tsx:152-160 | the X button empties the text and the entries and closes the drop-down |
| AdminHeader.Header.Pick | src/components/admin/AdminHeader.tsx:164-175 | a click on an open entry follows its link and clears and closes the box |
| AdminHeader.Header.ClickOutside | src/components/admin/AdminHeader.tsx:44-57 | a press outside the search area closes the drop-down |
| AdminHeader.Header.MarkAllAsRead | src/components/admin/AdminHeader.tsx:98-104 | no unread notification remains |
| AdminHeader.InitiallyUnread | src/components/admin/AdminHeader.tsx:37-42 | the bell starts with its red dot |

## Left out

- Asynchronous delays are not modelled. The auth store's simulated latency and
  the payment timers are treated as if they ran at once. The timer's callback
  is its own method (`Checkout.Flow.FinishPayment`, `PaymentMethods.Panel.Complete`).
- Browser storage is not modelled as text. It is a map from user to a record
  that either parses or is corrupt. JSON encoding is not modelled.
- `Math.random` and `Date.now` become parameters: the random draw and the
  time stamp.
- Dates are integer time stamps. Date parsing and formatting are left out.
- Text is handled in a simplified way:
  - `toLowerCase` lowers the ASCII letters only;
  - `trim` strips the white space of `String.prototype.trim` as far as single
    characters go (no surrogate pairs arise);
  - lengths count characters, not UTF-16 code units;
  - `encodeURIComponent` is left out, so navigation targets carry the raw text.
- `Math.round` on floating point is modelled as exact rounding half up of the
  rational value.
- Sorting.SortBy: stability is not stated. `Array.prototype.sort` is stable, but
  only the order by key and the permutation are proved.
- Sorting.Sorted: stability is not stated, for the same reason as `Sorting.SortBy`.
- ProductCategory.Listing: the relative order of products with equal shown
  price is not stated; only the price order and the permutation are.
- AdminOrders.SortedOrders: the relative order of orders with the same date is
  not stated; only newest-first and the permutation are.
- ProductCategory.AllSizes: the order of the size checkboxes (first
  occurrences first) is not stated, as for `Seqs.Dedup`.
- Seqs.Dedup: the order of the result (first occurrences first) is not stated;
  only the members and the absence of duplicates are.
- The display-only product fields `imageUrl` and `colors` are left out.
- Left out of the pages: toasts, routing (kept only as returned targets), share
  dialogs, and the rendering.
- The form schemas (zod) of the checkout and login forms are left out. Checkout
  receives an already-validated payment method.
- React effect ordering is not modelled. The save effect runs with the user it
  was scheduled for, and each cart mutation saves at once.
- The AdminProducts field handlers are not modelled field by field. They
  include the `Number(..)` conversion of numeric inputs. The model takes a whole
  form value (`Table.EditDraft`) and a whole revised product (`Table.Select`).
- Left out of the announcements: the date pickers and the URL field's handling.
  They are parts of the form value.
- The settings page's general, payment and shipping tabs only save local text
  fields and are left out. So is AdminProfile.
- Listener registration for the click-outside handlers is left out. Only their
  effect is modelled (`Navbar.SearchBox.ClickOutside`,
  `AdminHeader.Header.ClickOutside`).
- The product card and product page take "signed in" to mean that the cart store
  has a user. Both stores follow the same auth state in the application.
- `getProductById` (src/pages/admin/AdminOrders.tsx:88-90) is the same lookup as
  `Catalog.FindById`.
- Strings that name categories and statuses are compared as in the source: as
  raw text, or lowered where the source lowers them.
