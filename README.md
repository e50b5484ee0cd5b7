# Laptop storefront: cart, admin store and catalogue queries in Dafny

This project models the logic of a client-side laptop shop written in React.
The shop has a cart store, with its reducer and totals. It has an admin
store over the catalogue, users and orders, with its reducer and
provider. It has these catalogue queries:

- the storefront filter, with its toggles and active-filter counter;
- the option lists built from the catalogue;
- the admin product and order tables.

It also has some small component helpers:

- the cart line's quantity guard;
- the product form's normaliser and feature parser;
- the image gallery's circular index;
- the admin navbar's active-link test.

The seed catalogue, users and orders, and the dashboard figures, are
modelled too. Each Dafny module follows one source file:

| module | source |
|---|---|
| `Types` | `src/types/index.ts`, plus the `User` and `Order` records |
| `Laptops` | `src/data/laptops.ts` |
| `AdminData` | `src/data/adminData.ts` |
| `CartContext` | `src/context/CartContext.tsx` |
| `AdminContext` | `src/context/AdminContext.tsx` |
| `ProductListing` | `src/pages/ProductListing.tsx` |
| `AdminOrders` | `src/pages/Admin/AdminOrders.tsx` |
| `AdminProducts` | `src/pages/Admin/AdminProducts.tsx` |
| `CartItemView` | `src/components/Cart/CartItem.tsx` |
| `ProductModal` | `src/components/Admin/ProductModal.tsx` |
| `ImageGallery` | `src/components/Product/ImageGallery.tsx` |
| `AdminNavbar` | `src/components/Admin/AdminNavbar.tsx` |

Two further modules give the JavaScript operations their meaning:

- `Seqs`: `filter`, `map`, and `[...new Set(xs)]`, which keeps the first-seen order.
- `Text`: `toLowerCase`, `includes`, `startsWith`, `trim()` as a truth value, `split('\n')` and `join('\n')`.

The pure parts are functions with lemmas: reducers, filters, totals,
normalisers and index arithmetic. The parts that hold state are
classes whose methods apply those functions:

- the two providers (`CartStore`, `AdminStore`);
- the listing page's filter state (`ListingPage`);
- the product form (`ProductForm`);
- the gallery index (`Gallery`).

Prices, quantities and review counts are integers. Every seed price is
integral. Ratings are exact reals.

Callers pass in what the browser supplies:

- the timestamp that `Date.now()` gives for a new product id (`now`);
- the answer to `window.confirm` (`confirmed`);
- the current path name (`pathname`);
- the value a numeric input parses to (`ParsedNumber`).

## Model

| member | source | states |
|---|---|---|
| CartContext.AddToCartSpec | src/context/CartContext.tsx:15-22 | For a laptop already in a cart with unique ids, ADD_TO_CART adds 1 to that line's quantity. Every other line, the order and the length stay unchanged. |
| CartContext.AddNewToCart | src/context/CartContext.tsx:23 | For a laptop not in the cart, whatever the cart holds, ADD_TO_CART appends a line of quantity 1 after the unchanged existing lines. |
| CartContext.AddExistingTotals | src/context/CartContext.tsx:15-22 | Adding to an existing line raises the unit total by 1 and the price total by that line's laptop price. |
| CartContext.AddToCartTotals | src/context/CartContext.tsx:14-23 | ADD_TO_CART raises the unit total by exactly 1. It raises the price total by the price of the laptop on the matching line, or by the new laptop's price. |
| CartContext.RemoveFromCartSpec | src/context/CartContext.tsx:25-26 | REMOVE_FROM_CART keeps exactly the lines of other laptops, with their order and multiplicity. No line for the id is left. An absent id is a no-op, and removing twice is removing once. |
| CartContext.UpdateQuantitySpec | src/context/CartContext.tsx:28-36 | A quantity of 0 or less is REMOVE_FROM_CART. A positive quantity becomes the matching lines' quantity; positions, laptops, length and other quantities are unchanged. An absent id is a no-op. |
| CartContext.ClearCartEmpties | src/context/CartContext.tsx:38-39 | CLEAR_CART yields the empty cart, whose two totals are 0. |
| CartContext.ReducerKeepsWellFormed | src/context/CartContext.tsx:14-39 | Every action keeps at most one line per laptop id, and keeps every quantity at 1 or more. |
| CartContext.RunKeepsWellFormed | src/context/CartContext.tsx:47 | Any sequence of actions from a well-formed cart keeps it well formed. This includes the empty cart the provider starts with. |
| CartContext.WithoutLaptopWellFormed | src/context/CartContext.tsx:26 | Filtering out a laptop keeps a cart well formed. |
| CartContext.SubsequenceKeepsUnique | src/context/CartContext.tsx:26 | Order-keeping deletion cannot introduce a repeated laptop id. |
| CartContext.UniqueIndex | src/context/CartContext.tsx:15 | In a cart with unique ids, the line that `find` locates is the only one with that id. |
| CartContext.SumSnoc | src/context/CartContext.tsx:65-71 | The `reduce` sum of a list that gains one line grows by that line's weight. |
| CartContext.SumUpdate | src/context/CartContext.tsx:65-71 | Replacing one line changes the sum by the difference of the two weights. |
| CartContext.TotalPriceNonNegative | src/context/CartContext.tsx:69-71 | With prices of 0 or more and positive quantities, `getTotalPrice` is not negative. |
| CartContext.TotalItemsAtLeastLines | src/context/CartContext.tsx:65-67 | With positive quantities, `getTotalItems` is at least the number of lines. |
| CartContext.AddAddThenZero | src/context/CartContext.tsx:14-36 | From the empty cart: one add gives quantity 1 and one unit, a second add gives quantity 2, and setting the quantity to 0 empties the cart. |
| CartContext.CartStore.constructor | src/context/CartContext.tsx:47 | The provider starts with an empty, well-formed cart. |
| CartContext.CartStore.AddToCart | src/context/CartContext.tsx:49-51 | The held items become the reducer's ADD_TO_CART result, and the invariant is kept. |
| CartContext.CartStore.RemoveFromCart | src/context/CartContext.tsx:53-55 | The held items become the REMOVE_FROM_CART result, and the invariant is kept. |
| CartContext.CartStore.UpdateQuantity | src/context/CartContext.tsx:57-59 | The held items become the UPDATE_QUANTITY result, and the invariant is kept. |
| CartContext.CartStore.ClearCart | src/context/CartContext.tsx:61-63 | The held items become empty. |
| CartContext.CartStore.GetTotalItems | src/context/CartContext.tsx:65-67 | The provider's unit total is at least the number of lines, and is 0 exactly when the cart is empty. |
| CartContext.CartStore.GetTotalPrice | src/context/CartContext.tsx:69-71 | The provider's price total is 0 for the empty cart and never negative when no laptop has a negative price. |
| AdminContext.OnlyOwnCollection | src/context/AdminContext.tsx:31-78 | Catalogue actions leave users and orders identical. User actions leave the catalogue and orders identical. The order action leaves the catalogue and users identical. |
| AdminContext.AddLaptopSpec | src/context/AdminContext.tsx:33-37 | ADD_LAPTOP appends the laptop at the end. There is no uniqueness check: an id already present ends up on two entries. |
| AdminContext.UpdateLaptopSpec | src/context/AdminContext.tsx:39-45 | UPDATE_LAPTOP puts the record at every position whose id matches. Other positions and the length are unchanged, and an absent id is a no-op. |
| AdminContext.DeleteLaptopSpec | src/context/AdminContext.tsx:47-51 | DELETE_LAPTOP keeps, in order, exactly the laptops with another id, each as often as before, so repeated records survive. It is idempotent, and an absent id is a no-op. |
| AdminContext.UpdateUserStatusSpec | src/context/AdminContext.tsx:53-59 | Matching users get the new status and differ from before in nothing else. Other users are unchanged, and the length is kept. |
| AdminContext.DeleteUserSpec | src/context/AdminContext.tsx:61-65 | DELETE_USER keeps exactly the other users, in order, each as often as before. It is idempotent, and an absent id is a no-op. |
| AdminContext.UpdateOrderStatusSpec | src/context/AdminContext.tsx:67-73 | Matching orders get the new status whatever status they had, and only their status changes. Other orders are unchanged. |
| AdminContext.NoTransitionRule | src/context/AdminContext.tsx:67-73 | Any order can be set to any status, for example cancelled back to pending. |
| AdminContext.ShipFixtureOrder | src/context/AdminContext.tsx:81-85 | From the fixture state, shipping ORD-004 changes that order's status and nothing else. |
| AdminContext.AdminStore.constructor | src/context/AdminContext.tsx:80-85 | The provider starts from the catalogue, user and order fixtures. |
| AdminContext.AdminStore.Dispatch | src/context/AdminContext.tsx:81 | The held state becomes the reducer's result for the action. |
| AdminContext.AdminStore.AddLaptop | src/context/AdminContext.tsx:87-89 | The held state becomes the ADD_LAPTOP result. |
| AdminContext.AdminStore.UpdateLaptop | src/context/AdminContext.tsx:91-93 | The held state becomes the UPDATE_LAPTOP result. |
| AdminContext.AdminStore.DeleteLaptop | src/context/AdminContext.tsx:95-97 | The held state becomes the DELETE_LAPTOP result. |
| AdminContext.AdminStore.UpdateUserStatus | src/context/AdminContext.tsx:99-101 | The held state becomes the UPDATE_USER_STATUS result. |
| AdminContext.AdminStore.DeleteUser | src/context/AdminContext.tsx:103-105 | The held state becomes the DELETE_USER result. |
| AdminContext.AdminStore.UpdateOrderStatus | src/context/AdminContext.tsx:107-109 | The held state becomes the UPDATE_ORDER_STATUS result. |
| Seqs.Filter | src/context/CartContext.tsx:26 | `filter` keeps exactly the elements passing the test, with their multiplicity and in order (a subsequence), and is no longer than its input. |
| Seqs.FilterAll | src/context/AdminContext.tsx:50 | A filter that every element passes returns its input. |
| Seqs.FilterIdempotent | src/context/AdminContext.tsx:50 | Filtering twice with the same test is filtering once. |
| Seqs.FilterAppend | src/pages/ProductListing.tsx:36 | Filtering distributes over concatenation. |
| Seqs.Map | src/context/CartContext.tsx:17-21 | `map` keeps the length and applies the function at every position. |
| Seqs.Dedup | src/data/laptops.ts:181-183 | `[...new Set(s)]` is duplicate-free and holds exactly the values of `s`, in order of first appearance. |
| Seqs.DedupNoDuplicates | src/data/laptops.ts:181-183 | A duplicate-free list comes out of the `Set` unchanged. |
| Seqs.NoDuplicatesSubsequence | src/pages/ProductListing.tsx:36 | Order-keeping deletion keeps a list duplicate-free. |
| Laptops.DistinctValues | src/data/laptops.ts:181-183 | An option list is duplicate-free. A value is in it iff some laptop carries it in that field. It is in first-seen order and no longer than the catalogue. |
| Laptops.SeedFilterOptions | src/data/laptops.ts:180-185 | `getFilterOptions` gives the six brands, the two RAM sizes ["32GB", "16GB"] and the six processors, in catalogue order. |
| Laptops.TwoDistinctValues | src/data/laptops.ts:182 | The option-list contract alone gives [a, b] for a column reading a, a, b, a, b, b. |
| Laptops.SeedIdsDistinct | src/data/laptops.ts:5-150 | The seed ids '1' to '6' are pairwise distinct. |
| Laptops.SeedSavingsPositive | src/data/laptops.ts:13-159 | Every seed laptop has an original price above its price. |
| AdminData.StatsFigures | src/data/adminData.ts:139-144 | The product count is 6. The user count is 4, because only customers are counted. The order count equals the number of fixture orders, and the recent orders are the first three. |
| AdminData.CustomerCount | src/data/adminData.ts:143 | Filtering the users by role 'customer' leaves four. |
| AdminData.RecentOrderIds | src/data/adminData.ts:144 | The recent orders are ORD-001, ORD-002 and ORD-003. |
| AdminData.OrderTotalsMatchLines | src/data/adminData.ts:52-137 | Each fixture order's total is the sum of price × quantity over its lines. |
| AdminData.UsersDistinct | src/data/adminData.ts:4-50 | Fixture user ids are pairwise distinct. |
| AdminData.OrdersWellFormed | src/data/adminData.ts:52-137 | Fixture order ids are pairwise distinct, and each order's lines form a well-formed cart. |
| AdminData.OrdersBelongToCustomers | src/data/adminData.ts:52-137 | Every order names a customer of the user fixture, with that customer's name and e-mail. |
| ProductListing.FilteredLaptops | src/pages/ProductListing.tsx:17-31 | The result is a subsequence of the catalogue. A laptop is in it iff the search, brand, RAM, processor and inclusive price conditions all hold, and matching laptops keep their multiplicity. |
| ProductListing.EmptySearchMatches | src/pages/ProductListing.tsx:19-21 | The empty search term matches every laptop. |
| ProductListing.SearchIgnoresCase | src/pages/ProductListing.tsx:19-21 | A term and its lower-cased form match the same laptops. |
| ProductListing.DefaultsKeepAll | src/pages/ProductListing.tsx:8-12 | The initial criteria list every laptop priced within [0, 5000]. |
| ProductListing.SeedDefaultsListAll | src/pages/ProductListing.tsx:8-31 | On first render the whole seed catalogue is listed. |
| ProductListing.AppleCheckboxMatches | src/pages/ProductListing.tsx:25-26 | The hard-coded "Apple M" check box selects an "Apple M3 Max" laptop by case-sensitive substring. |
| ProductListing.AppleCheckboxNotAnOption | src/pages/ProductListing.tsx:204 | "Apple M" is not one of the processor option values. |
| ProductListing.ToggleSpec | src/pages/ProductListing.tsx:33-39 | Toggling a selected value removes every copy of it and keeps the rest in order. Toggling an unselected value appends it. |
| ProductListing.ToggleTwiceAbsent | src/pages/ProductListing.tsx:33-39 | Toggling an unselected value twice restores the exact list. |
| ProductListing.ToggleTwicePresent | src/pages/ProductListing.tsx:33-39 | Toggling a selected value twice leaves it selected again, at the end. |
| ProductListing.ToggleKeepsNoDuplicates | src/pages/ProductListing.tsx:33-55 | A toggle never creates a duplicate. |
| ProductListing.ToggleLength | src/pages/ProductListing.tsx:33-55 | On a duplicate-free list a toggle changes the length by exactly one. |
| ProductListing.RemoveSingle | src/pages/ProductListing.tsx:36 | Removing a value that occurs once shortens a list by one. |
| ProductListing.ActiveFiltersZero | src/pages/ProductListing.tsx:65-66 | The counter is 0 iff no brand, RAM or processor is selected and the range is not narrowed at either end. |
| ProductListing.ClearedCountsZero | src/pages/ProductListing.tsx:57-66 | After `clearFilters` the counter is 0. |
| ProductListing.ReachableCounter | src/pages/ProductListing.tsx:65-66 | In reachable states the range adds 1 exactly when the slider is below 5000, and a brand toggle moves the counter by exactly one. |
| ProductListing.ListingPage.constructor | src/pages/ProductListing.tsx:8-12 | The page starts with the initial criteria. |
| ProductListing.ListingPage.SetSearchTerm | src/pages/ProductListing.tsx:101 | Only the search term changes. |
| ProductListing.ListingPage.HandleBrandChange | src/pages/ProductListing.tsx:33-39 | The brand selection is toggled, and nothing else changes. |
| ProductListing.ListingPage.HandleRamChange | src/pages/ProductListing.tsx:41-47 | The RAM selection is toggled, and nothing else changes. |
| ProductListing.ListingPage.HandleProcessorChange | src/pages/ProductListing.tsx:49-55 | The processor selection is toggled, and nothing else changes. |
| ProductListing.ListingPage.SetMaxPrice | src/pages/ProductListing.tsx:222-227 | The slider sets the upper bound and keeps the lower one. |
| ProductListing.ListingPage.ClearFilters | src/pages/ProductListing.tsx:57-63 | Every filter returns to its initial value, the counter is 0, and the whole catalogue is listed. |
| AdminOrders.FilteredOrders | src/pages/Admin/AdminOrders.tsx:14-20 | The result is a subsequence of the orders. An order is in it iff the lower-cased term occurs in its lower-cased id, name or e-mail, and the status filter is "All" or equals its status. |
| AdminOrders.EmptyFiltersKeepAll | src/pages/Admin/AdminOrders.tsx:10-20 | An empty search with "All Status" lists every order. |
| AdminOrders.StatusFilterSelects | src/pages/Admin/AdminOrders.tsx:18 | Choosing a status with no search lists exactly the orders in that status. |
| AdminOrders.UnitsAtLeastLines | src/pages/Admin/AdminOrders.tsx:182 | With positive quantities an order's units are at least its number of lines. |
| AdminOrders.SingleLineUnits | src/pages/Admin/AdminOrders.tsx:182 | A one-line order's units are that line's quantity. |
| AdminOrders.StatusOptionsComplete | src/pages/Admin/AdminOrders.tsx:61 | The status options list every status exactly once. |
| AdminOrders.HandleStatusChange | src/pages/Admin/AdminOrders.tsx:56-59 | The store receives UPDATE_ORDER_STATUS with the same id and status. |
| AdminProducts.FilteredProducts | src/pages/Admin/AdminProducts.tsx:18-23 | The result is a subsequence of the catalogue. A laptop is in it iff the term occurs, ignoring case, in its name or brand, and the brand select is empty or equals its brand exactly. |
| AdminProducts.Brands | src/pages/Admin/AdminProducts.tsx:25 | The brand list is duplicate-free, holds exactly the brands present, and is in first-seen order. |
| AdminProducts.OfferedBrandNonEmpty | src/pages/Admin/AdminProducts.tsx:18-25 | Every offered brand lists at least one laptop. A non-empty brand lists only laptops of that brand. |
| AdminProducts.ProcessorNotSearched | src/pages/Admin/AdminProducts.tsx:19-20 | A term found only in the processor is a storefront hit and an admin miss. |
| AdminProducts.HandleSaveProduct | src/pages/Admin/AdminProducts.tsx:46-65 | Add mode applies ADD_LAPTOP to the store. Edit mode applies UPDATE_LAPTOP. |
| AdminProducts.HandleDeleteProduct | src/pages/Admin/AdminProducts.tsx:39-44 | With confirmation the store applies DELETE_LAPTOP; without it the store is unchanged. |
| CartItemView.QuantityChange | src/components/Cart/CartItem.tsx:15-18 | Below 1 nothing is dispatched. Otherwise UPDATE_QUANTITY is dispatched for this line's laptop with exactly that quantity. |
| CartItemView.MinusKeepsLine | src/components/Cart/CartItem.tsx:69 | The minus button never takes a line out. At quantity 1 the cart is unchanged. Above 1 it lowers this line by one and keeps every line in place and the cart well formed. |
| CartItemView.PlusAddsOne | src/components/Cart/CartItem.tsx:80 | The plus button adds one to this line only, and one to the unit total. |
| CartItemView.HandleRemove | src/components/Cart/CartItem.tsx:20-21 | The store receives REMOVE_FROM_CART for this line's laptop. |
| CartItemView.HandleQuantityChange | src/components/Cart/CartItem.tsx:15-18 | The store changes only through the action `QuantityChange` yields. |
| CartItemView.UnitPriceShownWhenTotalDiffers | src/components/Cart/CartItem.tsx:93 | For a priced laptop the "each" line shows exactly when the line total differs from the unit price, that is, when the quantity is above 1. |
| ProductModal.SubmitDefaults | src/components/Admin/ProductModal.tsx:63-83 | For any form, the submitted id is the edited laptop's id when it is non-empty, and `now` otherwise. A rating of 0 becomes 4.5, and any other rating is kept. An empty image becomes the default image. A price that is NaN or 0 becomes 0, and any other price is kept. Missing gallery images become `[image]`, and missing features become `[]`; defined lists are kept. The original price, the text fields and the review count are passed through. |
| ProductModal.SubmitInitialForm | src/components/Admin/ProductModal.tsx:21-37 | Submitting the untouched add form gives the id `now`, the default image, no gallery images (the empty array is kept), rating 4.5, original price 0 and price 0. |
| ProductModal.SubmitNeverBlank | src/components/Admin/ProductModal.tsx:67-79 | A submitted record never has an empty id, an empty image or a zero rating. |
| ProductModal.EditRoundTrip | src/components/Admin/ProductModal.tsx:39-87 | Editing a laptop and submitting it unchanged gives back the same laptop iff its id and image are non-empty and its rating is not 0. |
| ProductModal.ParseFeatures | src/components/Admin/ProductModal.tsx:93-96 | The result is the non-blank lines of the text, unmodified, in order and as often as they occur, and none holds a newline. |
| ProductModal.FeaturesRoundTrip | src/components/Admin/ProductModal.tsx:311 | Joining a feature list with newlines and parsing it back gives the same list when no feature is blank or holds a newline. This includes the empty list. |
| ProductModal.FormFeaturesRoundTrip | src/components/Admin/ProductModal.tsx:311 | The text area of a form holding a feature list reads back, through `handleFeaturesChange`, as that list when no feature is blank or holds a newline. |
| ProductModal.TrailingNewlineDropped | src/components/Admin/ProductModal.tsx:93-96 | Typing "a" and a newline stores ["a"], and the text area then shows "a": a newline at the end is lost, so a new feature line cannot be started there. |
| ProductModal.ParseFeaturesStable | src/components/Admin/ProductModal.tsx:93-96 | Showing a parsed list and parsing it again changes nothing. |
| ProductModal.TextInputChangesOnlyItsField | src/components/Admin/ProductModal.tsx:89-91 | A text input sets its own field to the value and leaves every other field unchanged. |
| ProductModal.PriceInputs | src/components/Admin/ProductModal.tsx:177-189 | The price inputs touch only their own field. An original price of NaN or 0 clears that field. |
| ProductModal.UnparsedPriceSubmitsZero | src/components/Admin/ProductModal.tsx:75 | A price that did not parse is submitted as 0. |
| ProductModal.ProductForm.constructor | src/components/Admin/ProductModal.tsx:21-37 | The form starts empty. |
| ProductModal.ProductForm.Reset | src/components/Admin/ProductModal.tsx:39-61 | The form holds the laptop in edit mode, and the empty form otherwise. |
| ProductModal.ProductForm.HandleInputChange | src/components/Admin/ProductModal.tsx:89-91 | The form becomes the result of applying the input. |
| ProductModal.ProductForm.HandleFeaturesChange | src/components/Admin/ProductModal.tsx:93-96 | Only the features change, to the parsed lines, none of which is blank. |
| Text.Lower | src/pages/ProductListing.tsx:19 | Lower-casing keeps the length and maps each character. |
| Text.SplitLines | src/components/Admin/ProductModal.tsx:94 | `split('\n')` gives at least one piece, and no piece holds a newline. |
| Text.SplitJoin | src/components/Admin/ProductModal.tsx:94 | Splitting a join of newline-free pieces gives back the pieces. |
| Text.JoinSplit | src/components/Admin/ProductModal.tsx:311 | Joining the pieces of a split gives back the text. |
| ImageGallery.NextImage | src/components/Product/ImageGallery.tsx:14-16 | The next index stays in [0, n), and wraps from n−1 to 0. |
| ImageGallery.PrevImage | src/components/Product/ImageGallery.tsx:18-20 | The previous index stays in [0, n), and wraps from 0 to n−1. |
| ImageGallery.NextPrevInverse | src/components/Product/ImageGallery.tsx:14-20 | Previous after next, and next after previous, return to the starting index. |
| ImageGallery.NextTimesIsRotation | src/components/Product/ImageGallery.tsx:15 | Up to n presses of next move k places on, wrapping past the end. |
| ImageGallery.FullCycle | src/components/Product/ImageGallery.tsx:15 | n presses of next return to the starting index. |
| ImageGallery.Gallery.constructor | src/components/Product/ImageGallery.tsx:11 | The gallery starts at image 0. |
| ImageGallery.Gallery.Next | src/components/Product/ImageGallery.tsx:14-16 | The index becomes the next one and stays in range. |
| ImageGallery.Gallery.Prev | src/components/Product/ImageGallery.tsx:18-20 | The index becomes the previous one and stays in range. |
| ImageGallery.Gallery.Select | src/components/Product/ImageGallery.tsx:71 | A thumbnail click selects that index. |
| AdminNavbar.OnlyDashboardAtAdmin | src/components/Admin/AdminNavbar.tsx:10-22 | At '/admin' the dashboard is the only active item. |
| AdminNavbar.ProductsUnderPrefix | src/components/Admin/AdminNavbar.tsx:12-22 | At any path under '/admin/products', Products is active and no other item is. |
| AdminNavbar.NoSegmentBoundary | src/components/Admin/AdminNavbar.tsx:17-22 | '/admin/productsX' activates Products, and '/admin/' does not activate the dashboard. |
| AdminNavbar.ActiveShape | src/components/Admin/AdminNavbar.tsx:17-22 | An active dashboard means the path has the length of '/admin'. Any other active item fixes the path's eighth character to the one after '/admin/' in its own path. |
| AdminNavbar.AtMostOneActive | src/components/Admin/AdminNavbar.tsx:10-22 | For any path at most one menu item is active. |

## Left out

- Rendering, animation, toasts, layout and routing are not modelled.
- `src/types/api.ts` is not part of this model. The remote `adminApi.addLaptop` call after a local add is therefore not modelled. The local store is updated before that call whatever its outcome, which `AdminProducts.HandleSaveProduct` captures.
- The browser supplies several values, which become parameters:
  - `window.confirm` is the `confirmed` argument.
  - `Date.now()` is the `now` argument. Its string form is assumed non-empty, and `EditRoundTrip` and `SubmitNeverBlank` require this.
  - `useLocation().pathname` is the `pathname` argument.
- Floating point is not modelled:
  - Only integral values of `parseFloat`/`parseInt` are kept (`ParsedNumber`).
  - NaN ratings are not modelled.
  - Tax, `toFixed`, `toLocaleString` and the dashboard growth percentages are not modelled.
- `Text.Lower` maps only ASCII letters, and `Text.IsBlank` treats only ASCII white space as blank. The full Unicode semantics of `toLowerCase` and `trim` are not modelled.
- The `default: return state` branches of both reducers cannot be reached with the closed action datatypes.
- The hard-coded `dashboardStats.totalSales` (16093) is kept as a literal. No relation to the order totals is stated.
- The storefront's processor check boxes are the hard-coded `'Intel'`, `'AMD'` and `'Apple M'`, not `getFilterOptions().processors`. The filter is modelled over arbitrary selections. Only `AppleCheckboxMatches` and `AppleCheckboxNotAnOption` relate the two.
- `src/types/index.ts` does not define `User` or `Order`, although other files import them. `Types.User` and `Types.Order` take their shape from the fixture literals in `src/data/adminData.ts`.
- ProductModal.FormData: the string fields are always defined. The initial form, every laptop and every text input give strings, so `x || ''` is the identity on them and is modelled as such. Likewise `reviews || 0` is the identity on integers.
- ProductListing.ListingPage.SetMaxPrice: requires the value to be in [0, 5000], which the range input guarantees. `parseInt` of the slider value is taken to be that integer.
- ImageGallery.Gallery.Next: requires more than one image, because the arrow buttons are only rendered then. `Prev` and `Select` have the same requirement, and the thumbnails render under the same condition. With no images, JavaScript's `% 0` would give NaN.
- ImageGallery.NextTimesIsRotation: states the rotation only for up to n presses. That covers the full cycle.
- AdminOrders.FilteredOrders: the status select's '' ("All Status") is `None`. The select offers only '' and the five statuses.
