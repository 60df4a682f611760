# NextJS e-commerce storefront and admin — a Dafny model of the client logic

This project models the client-side logic of a Next.js shop. The shop has a customer storefront and an admin back office.

- **Cart.** The Redux cart reducer keeps `{product, quantity}` line items. Adding merges by product id. A quantity update is capped at stock and removes the item at zero. There is single and multiple removal, and clear.
- **Breadcrumb.** The breadcrumb reducer holds the current trail.
- **Helpers.** The string and number helpers are capitalisation, avatar initials, thousands separators, `m:ss` time, the Cloudinary resize rewrite, and the pre-order category flattener with depth levels.
- **Admin order table.** This covers:
  - the page window with gap markers, and page and page-size navigation;
  - status updates applied to one order;
  - the re-fetch;
  - the status menu;
  - the detail dialog, including its discount derivation.
- **Admin category card.** Level styles with fallbacks, the thumbnail check and the badges.
- **Customer product grid.** Paging, the sort select's value encoding and the quick-add button.
- **Search sheet.** Its debounced search is a single pending query.
- **Profile editor.** The edit, cancel and save decisions.
- **Order service.** How it classifies the server's reply. The reply's status and payload are inputs.
- **HTTP wrapper.** URL joining, the `get` query expansion, headers and error mapping.
- **Route guard.** The middleware's redirect decision.
- **Display tables.** The constant tables for statuses, delivery methods and payment methods.
- **Validation schemas.** The zod schemas for registration, login, password reset, billing, order bodies and product bodies, modelled as issue lists with their acceptance conditions.

One Dafny module corresponds to each source file. Classes hold the state that the source's reducers and React state update. Everything the source receives from outside is a parameter: server replies, cookies, the environment variable, and library tests such as e-mail syntax.

Shared modules:
- `Wrappers`: `Option` and `Result`.
- `JsStrings`: the JavaScript string built-ins the helpers use.
- `PageWindow`: the page-window algorithm that both lists share.
- `Zod`: issue kinds, field combinators and the rule that refinements run only after continuable issues.

Paths below are relative to the repository root.

## Model

| member | source | states |
|---|---|---|
| CartSlice.FindIndex | src/store/features/cartSlice.ts:19 | the position `find` stops at is the first item with the id; none exactly when no item has it |
| CartSlice.CartState.constructor | src/store/features/cartSlice.ts:9-11 | the initial cart has no items |
| CartSlice.CartState.Find | src/store/features/cartSlice.ts:19 | the search loop returns the first matching position, as `FindIndex` |
| CartSlice.CartState.AddToCart | src/store/features/cartSlice.ts:17-25 | the items become `Added(old items, product, quantity)` |
| CartSlice.CartState.UpdateCartItemQuantity | src/store/features/cartSlice.ts:26-39 | the items become `QuantityUpdated(old items, id, quantity)` |
| CartSlice.CartState.RemoveFromCart | src/store/features/cartSlice.ts:40-43 | the items become the old items without the id, in order |
| CartSlice.CartState.RemoveMultipleFromCart | src/store/features/cartSlice.ts:44-47 | the items become the old items without any listed id, in order |
| CartSlice.CartState.ClearCart | src/store/features/cartSlice.ts:48-50 | no items remain |
| CartSlice.KeepUntargeted | src/store/features/cartSlice.ts:42-46 | the filter loop keeps exactly `WithoutIds(items, ids)` |
| CartSlice.FirstMatchIsFound | src/store/features/cartSlice.ts:19 | a match with no earlier match is what `find` returns |
| CartSlice.FindDistinct | src/store/features/cartSlice.ts:19 | with distinct ids, `find` returns the one item carrying the id |
| CartSlice.AbsentIsNone | src/store/features/cartSlice.ts:19-23 | an id not in the cart is not found, so the add appends |
| CartSlice.NoMatchIsNone | src/store/features/cartSlice.ts:19 | when no item matches, `find` gives nothing |
| CartSlice.WithoutIdsIgnoresQuantity | src/store/features/cartSlice.ts:36-38 | the removal after an update to zero does not depend on the quantity written first |
| CartSlice.AddExisting | src/store/features/cartSlice.ts:19-21 | adding a present id adds the quantity to that item; the length and all other items are unchanged |
| CartSlice.AddNew | src/store/features/cartSlice.ts:22-24 | adding a new id appends exactly one `{product, quantity}` at the end |
| CartSlice.AddKeepsIdsDistinct | src/store/features/cartSlice.ts:17-25 | distinct product ids stay distinct after an add |
| CartSlice.AddTwiceAccumulates | src/store/features/cartSlice.ts:17-25 | two adds of a new product give one item with the summed quantity |
| CartSlice.AddCanExceedStock | src/store/features/cartSlice.ts:22-24 | an add is not capped at stock: 5 units of a product with stock 3 go in |
| CartSlice.WithoutIdsMembers | src/store/features/cartSlice.ts:42-46 | an item is kept iff it was in the cart and its id is not targeted |
| CartSlice.WithoutIdsAppend | src/store/features/cartSlice.ts:42-46 | filtering distributes over concatenation, so relative order is kept |
| CartSlice.WithoutAbsentIds | src/store/features/cartSlice.ts:40-43 | removing ids that are not in the cart changes nothing |
| CartSlice.WithoutIdsIdempotent | src/store/features/cartSlice.ts:40-47 | removing twice equals removing once |
| CartSlice.WithoutIdsKeepsDistinct | src/store/features/cartSlice.ts:40-47 | removal keeps ids distinct |
| CartSlice.UpdateKeepsIdsDistinct | src/store/features/cartSlice.ts:26-39 | a quantity update keeps ids distinct |
| CartSlice.UpdateUnknownId | src/store/features/cartSlice.ts:26-39 | updating an id that is not in the cart leaves it unchanged |
| CartSlice.UpdateSetsClampedQuantity | src/store/features/cartSlice.ts:28-35 | a positive capped update sets that item to min(quantity, stock) and keeps every other item |
| CartSlice.UpdateToZeroRemoves | src/store/features/cartSlice.ts:36-38 | an update whose capped quantity is at most 0 removes the product and keeps the rest in order |
| CartSlice.UpdateKeepsQuantitiesInStock | src/store/features/cartSlice.ts:26-39 | if every quantity lies in [1, stock], it still does after an update |
| CartSlice.RemoveKeepsQuantitiesInStock | src/store/features/cartSlice.ts:40-47 | removal keeps every quantity within [1, stock] |
| BreadcrumbSlice.BreadcrumbState.constructor | src/store/features/breadcrumbSlice.ts:8-10 | the initial trail is empty |
| BreadcrumbSlice.BreadcrumbState.SetBreadcrumb | src/store/features/breadcrumbSlice.ts:16-18 | the payload replaces the trail exactly |
| BreadcrumbSlice.LastWriteWins | src/store/features/breadcrumbSlice.ts:16-18 | set(a) then set(b) equals set(b) alone; the same payload twice equals once |
| General.CapitalizeFirstLetter | src/helper/general.ts:3-6 | same length; the first character upper-cased and the rest unchanged; "" stays "" |
| General.CapitalizeIdempotent | src/helper/general.ts:3-6 | capitalising an already capitalised text changes nothing |
| General.SplitOnSpaceRunsJoinsBack | src/helper/general.ts:43 | the separators between the pieces are non-empty whitespace runs, and the pieces interleaved with them give back the text |
| General.SplitPiecesHaveNoSpace | src/helper/general.ts:43 | no piece of the split contains a whitespace character |
| General.SplitLastPiece | src/helper/general.ts:43-47 | the last piece is the text after the last whitespace character; there are two or more pieces iff the text contains whitespace |
| General.FirstPieceStarts | src/helper/general.ts:43-46 | for a trimmed non-empty name, the first word is non-empty and starts with the name's first character |
| General.LastPieceNonEmpty | src/helper/general.ts:43-47 | for a trimmed non-empty name, the last word is non-empty |
| General.AvatarOfNonBlankName | src/helper/general.ts:40-50 | the result has 1 or 2 characters; the first is the upper-cased first letter; 2 iff the trimmed name contains whitespace, and then the second is the upper-cased first letter of the last word |
| General.GetAvatarFallback | src/helper/general.ts:40-50 | "" for the empty name; failure (the `words[0][0]` TypeError) for a non-empty blank name; otherwise at most two characters |
| General.AvatarOfBlankName | src/helper/general.ts:40-50 | "" gives ""; a whitespace-only name fails on `words[0][0]` |
| General.ReversedWithoutCommasAppend | src/helper/general.ts:55 | reversing and dropping commas distributes over concatenation, the second part first |
| General.ReversedWithoutCommasOfDigits | src/helper/general.ts:55 | a plain digit string, reversed with commas dropped, is just its reversal |
| General.ReverseAppend | src/helper/general.ts:55 | reversal of a concatenation |
| General.GroupedKeepsDigits | src/helper/general.ts:55 | removing the commas from the grouped text gives back the digits |
| General.GroupedIsWellGrouped | src/helper/general.ts:55 | the first group has 1–3 digits and every later group exactly 3 |
| General.FormatNumberWithDots | src/helper/general.ts:53-56 | the text of a natural is well grouped: 1–3 leading digits, then comma-separated groups of 3 |
| General.FormatNumberRoundTrip | src/helper/general.ts:53-56 | for a natural n, the output is well grouped and its digits without commas denote n |
| General.ReverseTwice | src/helper/general.ts:55 | reversing twice is the identity |
| General.JsRemainder | src/helper/general.ts:30 | JavaScript's `%`: the result has the sign of the dividend and a magnitude below the divisor, and is what is left after subtracting the divisor times the quotient truncated toward zero |
| General.DigitsHaveNoColon | src/helper/general.ts:31 | decimal digits contain no ':' |
| General.SecondsField | src/helper/general.ts:30-31 | seconds below 60, padded to 2 digits, read back as themselves |
| General.FormatTimeMinute | src/helper/general.ts:27-32 | the text contains a ":"; for t ≥ 0 it is followed by exactly two characters |
| General.TimeRoundTrip | src/helper/general.ts:27-32 | for t ≥ 0 the text is minutes ':' two-digit seconds, with seconds < 60 and minutes·60 + seconds = t |
| General.FirstOccurrence | src/helper/general.ts:35 | the first index at or after `from` where the pattern occurs, or none |
| General.ReplaceFirst | src/helper/general.ts:35 | no occurrence keeps the text; otherwise the text before the first occurrence and after it are kept and the replacement sits in between |
| General.ResizeImage | src/helper/general.ts:34-36 | the URL is unchanged, or longer by exactly the inserted transformation segment |
| General.ResizesFirstUpload | src/helper/general.ts:34-36 | only the first "upload/" becomes "upload/c_limit,w_<width>/f_auto/", and the text before and after it is kept |
| General.NoUploadUnchanged | src/helper/general.ts:34-36 | a URL without "upload/" is returned unchanged |
| General.Flattened | src/helper/general.ts:58-82 | at least one entry per top-level category; empty iff there are no categories |
| General.FlattenCategories | src/helper/general.ts:58-82 | the loop-and-recursion result equals the pre-order `Flattened(categories, level)` |
| General.FlattenedAppend | src/helper/general.ts:64-79 | flattening siblings concatenates their flattenings, in input order |
| General.NodeCountAppend | src/helper/general.ts:64-79 | node counts add over concatenation |
| General.FlattenedLength | src/helper/general.ts:58-82 | the output length is the number of nodes in the forest |
| General.FlattenedPreOrder | src/helper/general.ts:64-79 | each category sits at its pre-order position, followed immediately by its flattened subcategories |
| General.FlattenedLevelsFrom | src/helper/general.ts:71-77 | every level in the output is at least the starting level, which is 0 without a parent |
| PageWindow.TotalPages | src/components/admin/orders-data.tsx:103 | `ceil(count / pageSize)`: (pages−1)·size < count ≤ pages·size |
| PageWindow.TotalPagesOfNonNegative | src/components/customer/productList.tsx:80 | no pages exactly when there are no records |
| PageWindow.Run | src/components/admin/orders-data.tsx:109-112 | the run lo..hi of page numbers |
| PageWindow.Window | src/components/admin/orders-data.tsx:105-138 | up to 5 pages: one entry per page; more: 6 or 7 entries, from page 1 to the last page |
| PageWindow.GetPageNumbers | src/components/admin/orders-data.tsx:105-138 | the push loops build exactly `Window(page, totalPages, marker)` |
| PageWindow.RunShape | src/components/admin/orders-data.tsx:109-112 | with at most 5 pages, the window is well shaped |
| PageWindow.FirstPagesShape | src/components/admin/orders-data.tsx:114-120 | page ≤ 3 gives `[1,2,3,4,gap,total]`, well shaped |
| PageWindow.LastPagesShape | src/components/admin/orders-data.tsx:121-127 | page ≥ total−2 gives `[1,gap,total−3..total]`, well shaped |
| PageWindow.MiddlePagesShape | src/components/admin/orders-data.tsx:128-134 | otherwise `[1,gap,page−1,page,page+1,gap,total]`, well shaped |
| PageWindow.WindowShape | src/components/customer/productList.tsx:99-132 | every window has at most 7 entries with increasing numbers in [1, total]; each gap hides a page; it starts at 1, ends at total and shows the current page |
| PageWindow.SmallWindowIsAllPages | src/components/admin/orders-data.tsx:109-112 | with at most 5 pages the window is exactly 1..totalPages |
| PageWindow.RangeWithinTotal | src/components/customer/productList.tsx:139 | on a real page, `(page−1)·size+1 .. min(page·size, total)` is non-empty, within 1..total and at most one page long |
| PageWindow.RangesAreAdjacent | src/components/admin/orders-data.tsx:397 | the next page's range starts right after this one's ends |
| DataConfig.StatusFromKey | src/helper/dataConfig.ts:3-44 | a status key looked up gives a status whose key it is |
| DataConfig.DeliveryFromKey | src/helper/dataConfig.ts:46-68 | the same for delivery keys |
| DataConfig.PaymentFromKey | src/helper/dataConfig.ts:70-92 | the same for payment keys |
| DataConfig.StatusKeysRoundTrip | src/helper/dataConfig.ts:3-44 | the status table is keyed by exactly the five statuses |
| DataConfig.DeliveryKeysRoundTrip | src/helper/dataConfig.ts:46-68 | the delivery table is keyed by exactly standard, express and free |
| DataConfig.PaymentKeysRoundTrip | src/helper/dataConfig.ts:70-92 | the payment table is keyed by exactly cash, paypal and card |
| DataConfig.StatusVariants | src/helper/dataConfig.ts:3-44 | only "cancelled" is destructive and only "pending" is secondary |
| DataConfig.StatusLabelsDistinct | src/helper/dataConfig.ts:3-44 | the five status labels are pairwise different |
| DataConfig.DeliveryOptionsAgree | src/helper/dataConfig.ts:94-98 | the options list free, standard and express; id equals value; name, price and description match the config |
| DataConfig.DeliveryPrices | src/helper/dataConfig.ts:46-68 | free "$0", standard "$10", express "$20" |
| DataConfig.PaymentOptionsAgree | src/helper/dataConfig.ts:100-104 | the options list cash, paypal and card, with names and descriptions matching the config |
| Http.BaseUrl | src/lib/htpp.ts:8 | the environment value when it is set and non-empty, else "http://localhost:3000/api/v1" |
| Http.FullUrl | src/lib/htpp.ts:9 | the base, one "/", then the url without its leading "/" |
| Http.FullUrlJoinsWithOneSlash | src/lib/htpp.ts:9 | base + url when url starts with "/", else base + "/" + url |
| Http.Headers | src/lib/htpp.ts:6 | no headers for FormData; JSON Content-Type otherwise |
| Http.WireFor | src/lib/htpp.ts:15 | FormData is sent as is; a record is sent as its `JSON.stringify` text; no body sends no payload |
| Http.Prepare | src/lib/htpp.ts:1-16 | the request keeps its method, goes to a URL under the base URL and "/", and has no headers iff its body is FormData |
| Http.JsonHeaderIffJsonBody | src/lib/htpp.ts:6-15 | the JSON header is sent iff the body is not FormData |
| Http.Settle | src/lib/htpp.ts:11-31 | a reply keeps its status and payload; a throw becomes 500 with "An unknow error" |
| Http.PairsOf | src/lib/htpp.ts:43 | an array value gives one pair per element, in order |
| Http.QueryPairs | src/lib/htpp.ts:41-47 | when the query can be built, it has one pair per scalar and one per array element |
| Http.BuildQuery | src/lib/htpp.ts:41-47 | the `forEach` loop builds exactly `QueryPairs(params)` |
| Http.AppendEach | src/lib/htpp.ts:43 | the inner loop appends one pair per array element |
| Http.QueryPairsCons | src/lib/htpp.ts:41-47 | the pairs of a list are the first parameter's pairs followed by the rest's |
| Http.PrefixedTwice | src/lib/htpp.ts:41-47 | prefixing twice is prefixing with the concatenation |
| Http.QueryFailsIffNullish | src/lib/htpp.ts:40-47 | the query throws iff some value is `undefined` or `null` |
| Http.QueryPairsAppend | src/lib/htpp.ts:41-47 | parameters contribute their pairs in entry order |
| Http.QueryPairsOfOne | src/lib/htpp.ts:42-46 | a single parameter gives its own pairs |
| Http.GetUrl | src/lib/htpp.ts:39-48 | fails iff some parameter is `undefined` or `null`; otherwise url + "?" + the encoded pairs of the parameters, in order; no parameters give url + "?" + the empty encoding |
| Http.DeleteUrl | src/lib/htpp.ts:72 | url followed directly by the id, with no separator |
| Http.DeleteUrlAppendsDigits | src/lib/htpp.ts:72 | for a natural id the suffix is its digits and reads back as the id |
| OrderService.CreateOrder | src/service/order.ts:75-88 | success iff status 201 with an order, carrying its id and "Order made successfully"; otherwise the message, or "Failed to make order" |
| OrderService.GetOrderById | src/service/order.ts:90-103 | the order iff status 200 and the cookie customer's id equals the order's customer id |
| OrderService.NoCookieNoOrder | src/service/order.ts:91-96 | without a cookie the result is null |
| OrderService.CustomerOrdersPath | src/service/order.ts:105-111 | a request path exists iff there is a customer cookie |
| OrderService.GetOrdersByCustomer | src/service/order.ts:105-117 | the list iff there is a cookie and the reply is 200 with data |
| OrderService.GetOrders | src/service/order.ts:119-125 | the whole payload iff status 200 with data, else null |
| OrderService.UpdateOrderStatus | src/service/order.ts:127-138 | success iff status 200 with a message; the message is passed through either way |
| OrderService.ThrownRequestFails | src/service/order.ts:75-138 | when the request throws, every call fails and the order calls report "An unknow error" |
| OrdersData.WithStatus | src/components/admin/orders-data.tsx:49-55 | the mapped list has the same length |
| OrdersData.WithStatusChangesOnlyStatus | src/components/admin/orders-data.tsx:49-55 | only the status of orders with that id changes; every other order and field stays, in order |
| OrdersData.WithStatusIdempotent | src/components/admin/orders-data.tsx:49-55 | applying the same update twice equals applying it once |
| OrdersData.StatusMenu | src/components/admin/orders-data.tsx:229-305 | no entry for a completed or cancelled order, otherwise four distinct entries |
| OrdersData.StatusMenuOffers | src/components/admin/orders-data.tsx:229-305 | a menu exists iff the order is neither completed nor cancelled; it offers every status except the current one |
| OrdersData.OrderQuery | src/components/admin/orders-data.tsx:70-76 | four scalar parameters, plus the status when a single status is shown |
| OrdersData.OrderQueryPairs | src/components/admin/orders-data.tsx:70-76 | the fetch query is page, pageSize, newest first, plus status iff a single status is shown |
| OrdersData.OrdersTable.constructor | src/components/admin/orders-data.tsx:34-41 | the state is seeded from the server's page; nothing is selected, updating or loading |
| OrdersData.OrdersTable.MapStatus | src/components/admin/orders-data.tsx:49-55 | the map loop computes `WithStatus` |
| OrdersData.OrdersTable.HandleStatusUpdate | src/components/admin/orders-data.tsx:45-61 | on success only that order's status changes, on failure nothing; `updatingStatus` ends null, so no order's menu stays disabled |
| OrdersData.OrdersTable.FetchOrders | src/components/admin/orders-data.tsx:63-88 | a list reply replaces the orders and count, anything else keeps them; the raised flag is lowered |
| OrdersData.OrdersTable.ChangePageSize | src/components/admin/orders-data.tsx:330-333 | the chosen size, back to page 1; the selection, the updating order and the loading flags are unchanged |
| OrdersData.OrdersTable.PreviousPage | src/components/admin/orders-data.tsx:355 | one page back unless on page 1; stays within [1, totalPages]; every other field unchanged |
| OrdersData.OrdersTable.NextPage | src/components/admin/orders-data.tsx:385 | one page on unless on the last; stays within [1, totalPages]; every other field unchanged |
| OrdersData.OrdersTable.SelectPage | src/components/admin/orders-data.tsx:369-371 | a numbered link of the window leads to a real page; every other field unchanged |
| OrdersData.OrdersTable.SelectOrder | src/components/admin/orders-data.tsx:208 | clicking a row selects that order; every other field unchanged |
| OrdersData.OrdersTable.CloseDetail | src/components/admin/order-detail.tsx:26 | closing the dialog clears the selection; every other field unchanged |
| OrdersData.OrdersTable.MenuDisabled | src/components/admin/orders-data.tsx:247 | comparing the nullable `updatingStatus` with the order id disables the entries iff that order's own update is in flight; nothing is disabled while no update runs |
| OrdersData.OrdersTable.OnlyPendingOrderDisabled | src/components/admin/orders-data.tsx:247 | while one order's update is in flight, an order's menu is disabled iff it is that order |
| OrderDetail.Discount | src/components/admin/order-detail.tsx:23 | grandTotal = subTotal + shipping − discount; the discount is positive iff the grand total is below subtotal + shipping |
| OrderDetail.DiscountIsUnique | src/components/admin/order-detail.tsx:23 | the discount is the only value that makes the grand total add up |
| OrderDetail.ItemWord | src/components/admin/order-detail.tsx:109 | "item" iff exactly one product, else "items" |
| OrderDetail.Detail | src/components/admin/order-detail.tsx:15-26 | nothing for no order; otherwise the order's status, delivery and payment entries, the item badge, and a discount row iff the discount is positive |
| OrderDetail.NoDiscountWithoutReduction | src/components/admin/order-detail.tsx:148 | an order with grand total = subtotal + shipping shows no discount row |
| CategoryCard.LevelVariant | src/components/admin/category-card.tsx:32-44 | level 0 is "default", 1 "secondary", and every other level "outline" |
| CategoryCard.LevelColors | src/components/admin/category-card.tsx:38-45 | levels 0–2 have their own colours; every other level uses level 2's |
| CategoryCard.LevelColorsDistinct | src/components/admin/category-card.tsx:38-42 | the three styled levels' colours differ |
| CategoryCard.HasValidThumbnail | src/components/admin/category-card.tsx:48-50 | valid iff the thumbnail is present and not blank |
| CategoryCard.Thumbnail | src/components/admin/category-card.tsx:62-84 | an image element exists iff the thumbnail is valid, with that URL; it is shown iff it is valid and has not failed to load; "No Image" shows otherwise |
| CategoryCard.ThumbnailShowsOne | src/components/admin/category-card.tsx:62-84 | exactly one of the image and the "No Image" fallback is visible |
| CategoryCard.LevelLabel | src/components/admin/category-card.tsx:95 | the badge reads "Level " followed by the number |
| CategoryCard.LevelLabelCountsFromOne | src/components/admin/category-card.tsx:95 | the number shown is level + 1 |
| CategoryCard.SubCountBadge | src/components/admin/category-card.tsx:98-102 | shown iff the sub-list is present and non-empty, with its length |
| CategoryCard.EditHref | src/components/admin/category-card.tsx:124 | "/admin/category/edit/" followed by the id's decimal digits (after a "-" for a negative id), which read back as the id |
| CategoryCard.DeleteCall | src/components/admin/category-card.tsx:134-137 | the callback, if given, receives this category's id |
| ProductList.FieldFromKey | src/components/customer/productList.tsx:32 | a known field name reads back as the field it names |
| ProductList.OrderFromKey | src/components/customer/productList.tsx:33 | a known order name reads back as the order it names |
| ProductList.NoHyphenInKeys | src/components/customer/productList.tsx:32-33 | no field or order name contains "-" |
| ProductList.EncodeSort | src/components/customer/productList.tsx:162 | the select value split on "-" gives exactly the field name and the order name |
| ProductList.DecodeSort | src/components/customer/productList.tsx:163-168 | a decoded sort names the first two "-"-separated parts of the value |
| ProductList.SortRoundTrip | src/components/customer/productList.tsx:162-168 | splitting `field-order` on "-" gives back the field and the order |
| ProductList.PageSizeTextsArePositive | src/components/customer/productList.tsx:148-153 | every page-size option parses to a positive number |
| ProductList.ParsePageSize | src/components/customer/productList.tsx:91 | `parseInt` of an offered size is positive |
| ProductList.ProductGrid.constructor | src/components/customer/productList.tsx:39-47 | the server's page, sorted newest first, not loading |
| ProductList.ProductGrid.HandlePageChange | src/components/customer/productList.tsx:83-87 | moves only to a different page within [1, totalPages]; otherwise nothing changes |
| ProductList.ProductGrid.HandlePageSizeChange | src/components/customer/productList.tsx:90-96 | a different size is taken and the page resets to 1; the same size changes nothing |
| ProductList.ProductGrid.HandleSortChange | src/components/customer/productList.tsx:161-168 | the sort read back from the select value encodes to that value |
| ProductList.ProductGrid.FetchProducts | src/components/customer/productList.tsx:56-72 | a page replaces products, page, size and total, its page size stored unchecked; none keeps them; loading ends false; the grid stays valid iff the stored size is positive |
| ProductList.ProductGrid.PageLinks | src/components/customer/productList.tsx:99-132 | the links are the shared window with the "ellipsis" marker |
| ProductList.QuickAdd | src/components/customer/productList.tsx:240 | QUICK ADD puts one unit of the product in the cart |
| SearchProduct.SearchBox.constructor | src/components/customer/searchProduct.tsx:16-21 | empty query and results; nothing open, loading or pending |
| SearchProduct.SearchBox.HandleInputChange | src/components/customer/searchProduct.tsx:44-61 | stores the text, loading on, dropdown open iff non-empty; schedules a search iff not blank, else clears the results |
| SearchProduct.SearchBox.SearchProducts | src/components/customer/searchProduct.tsx:23-42 | a blank query only clears results; otherwise results are the data (or none) and loading ends |
| SearchProduct.SearchBox.FirePending | src/components/customer/searchProduct.tsx:55-57 | the timer runs the pending search, leaving nothing pending |
| SearchProduct.SearchBox.HandleSearchSubmit | src/components/customer/searchProduct.tsx:63-71 | a blank query changes nothing; otherwise it navigates to the encoded trimmed keyword and closes the sheet and dropdown, keeping the results |
| SearchProduct.SearchBox.HandleSheetOpenChange | src/components/customer/searchProduct.tsx:81-91 | opening only opens; closing clears the query, results and dropdown and cancels the pending search |
| SearchProduct.SearchBox.HandleFocus | src/components/customer/searchProduct.tsx:111 | focus reopens the dropdown only when there is text |
| SearchProduct.SearchBox.HandleResultClick | src/components/customer/searchProduct.tsx:130-134 | following a result closes the dropdown and sheet and empties the input |
| SearchProduct.SearchBox.View | src/components/customer/searchProduct.tsx:117-170 | hidden iff the dropdown is closed; "searching" iff open and loading; the results iff open, idle and there are some; otherwise "No products found" iff the query is not blank |
| SearchProduct.TypeAndWait | src/components/customer/searchProduct.tsx:44-61 | typing a non-blank query and waiting shows the reply's products, or "No products found" |
| ProfileForm.WithFieldSetsOnlyThatField | src/components/customer/ProfileForm.tsx:28-33 | editing a field sets it to the value and leaves every other field, the id and the avatar unchanged |
| ProfileForm.AvatarToSend | src/components/customer/ProfileForm.tsx:52-61 | the first uploaded URL when a file was chosen and the list is non-empty, else the customer's avatar |
| ProfileForm.ProfileEditor.constructor | src/components/customer/ProfileForm.tsx:21-25 | not editing or loading; the form shows the customer; no avatar file or preview |
| ProfileForm.ProfileEditor.StartEditing | src/components/customer/ProfileForm.tsx:96-98 | enters edit mode and changes nothing else |
| ProfileForm.ProfileEditor.HandleInputChange | src/components/customer/ProfileForm.tsx:28-33 | the form data gets that one field set |
| ProfileForm.ProfileEditor.HandleAvatarChange | src/components/customer/ProfileForm.tsx:35-45 | a chosen file is kept; no file changes nothing |
| ProfileForm.ProfileEditor.PreviewLoaded | src/components/customer/ProfileForm.tsx:39-42 | the reader's data URL becomes the preview |
| ProfileForm.ProfileEditor.HandleCancel | src/components/customer/ProfileForm.tsx:83-88 | restores the customer's data, leaves edit mode, clears the file and preview |
| ProfileForm.ProfileEditor.HandleSave | src/components/customer/ProfileForm.tsx:47-81 | no id or id 0: nothing at all; otherwise the form data with only the avatar replaced is sent (unless the upload threw), the toast reports the outcome, and loading ends false |
| ProfileForm.ProfileEditor.AvatarSrc | src/components/customer/ProfileForm.tsx:113 | the preview if non-empty, else the customer's avatar, else "" |
| Middleware.Decide | src/middleware.ts:9-19 | redirect to "/admin/login" iff an admin path other than the login page has no admin cookie; else to "/login" iff a "/me" path has no customer cookie; else pass |
| Middleware.LoginPagePasses | src/middleware.ts:11 | "/admin/login" is never redirected by the admin rule; a visitor with both cookies always passes |
| Middleware.RedirectTargets | src/middleware.ts:11-17 | the only redirect targets are the two login pages |
| Middleware.PrefixesAreRaw | src/middleware.ts:11-15 | the decision function itself redirects "/administrator" without the admin cookie and "/messages" without the customer cookie |
| Middleware.AreasDisjoint | src/middleware.ts:11-17 | no path is in both guarded areas |
| Zod.KeyIssues | src/schemaValidation/auth.schema.ts:18 | strict objects report unknown keys in one issue; stripping objects report none |
| Zod.Required | src/schemaValidation/order.shema.ts:4-8 | an absent required field is one "missing" issue; a present one gets its checks' issues |
| Zod.Optional | src/schemaValidation/product.schema.ts:30 | an absent optional field has no issue |
| Zod.Check | src/schemaValidation/order.shema.ts:5-6 | a failed check is one issue with its message at its field |
| Zod.OneOf | src/schemaValidation/order.shema.ts:7-8 | an enum accepts exactly its listed keys |
| Zod.RequiredContinuable | src/schemaValidation/auth.schema.ts:19-22 | a required field with only check rules stops refinements iff it is missing |
| Zod.ContinuableAppend | src/schemaValidation/auth.schema.ts:19-22 | two issue lists let refinements run iff each does |
| AuthSchema.Any | src/schemaValidation/auth.schema.ts:6-9 | a regex character-class test finds a matching character iff one exists |
| AuthSchema.PasswordMessages | src/schemaValidation/auth.schema.ts:3-9 | each rule's message appears iff that rule fails; no message iff the password is strong |
| AuthSchema.PasswordField | src/schemaValidation/auth.schema.ts:15 | one issue at the password field per failed rule, in declaration order |
| AuthSchema.EmailField | src/schemaValidation/auth.schema.ts:14 | no issue iff the e-mail is present and an address; a present value fails only with "Invalid email address"; an absent one is missing and stops refinements |
| AuthSchema.NonEmptyField | src/schemaValidation/auth.schema.ts:13 | no issue iff the text is present and non-empty; a present value fails only with the field's message; an absent one stops refinements |
| AuthSchema.StrongPasswordField | src/schemaValidation/auth.schema.ts:15 | no issue iff the password is present and strong; its rule issues are check issues at the field |
| AuthSchema.OtpField | src/schemaValidation/auth.schema.ts:43 | no issue iff the code is present with exactly 6 characters; otherwise "OTP must be 6 digits" |
| AuthSchema.PresentField | src/schemaValidation/auth.schema.ts:45 | a plain string field fails only when absent |
| AuthSchema.PasswordFieldContinuable | src/schemaValidation/auth.schema.ts:3-9 | password issues never stop refinements |
| AuthSchema.StrongExample | src/schemaValidation/auth.schema.ts:3-9 | "Passw0rd!" passes every rule |
| AuthSchema.RegisterShapeContinuable | src/schemaValidation/auth.schema.ts:11-18 | the refinement runs iff every field is present and there is no unknown key |
| AuthSchema.RegisterAcceptedIff | src/schemaValidation/auth.schema.ts:11-22 | accepted iff all fields are present, the name and confirmation are non-empty, the e-mail is valid, the password is strong, there are no unknown keys and the passwords are equal |
| AuthSchema.RegisterMismatch | src/schemaValidation/auth.schema.ts:19-22 | with all fields and no unknown key, different passwords give "Passwords do not match" on confirmPassword; an unknown key suppresses it |
| AuthSchema.PasswordsDifferNotInShape | src/schemaValidation/auth.schema.ts:13-18 | no field rule or key check of the shape produces the mismatch issue |
| AuthSchema.ParseRegister | src/schemaValidation/auth.schema.ts:11-22 | accepted input yields its four fields, with equal passwords and a strong password |
| AuthSchema.ParseLogin | src/schemaValidation/auth.schema.ts:25-30 | accepted iff the e-mail is valid and the password is non-empty; no strength rule |
| AuthSchema.LoginIgnoresExtraKeys | src/schemaValidation/auth.schema.ts:30 | unknown keys do not change the login result |
| AuthSchema.LoginHasNoStrengthRule | src/schemaValidation/auth.schema.ts:28 | the one-character password "a" logs in although it is not strong |
| AuthSchema.ParseForgotPassword | src/schemaValidation/auth.schema.ts:33-37 | accepted iff the e-mail is valid and there is no other key |
| AuthSchema.ResetShapeContinuable | src/schemaValidation/auth.schema.ts:40-47 | the equality check runs iff every field is present and there is no unknown key |
| AuthSchema.ResetAcceptedIff | src/schemaValidation/auth.schema.ts:40-56 | accepted iff all fields are present, the e-mail is valid, the OTP has exactly 6 characters of any kind, the new password is strong, there are no unknown keys and the passwords are equal |
| AuthSchema.ResetMismatch | src/schemaValidation/auth.schema.ts:48-56 | different passwords end the issue list with "Password does not match" at the root path |
| AuthSchema.ParseResetPassword | src/schemaValidation/auth.schema.ts:40-56 | accepted input yields its fields with a 6-character OTP and equal passwords |
| OrderSchema.DeliveryKeysAreTheMethods | src/schemaValidation/order.shema.ts:7 | the delivery enum is exactly the delivery table's keys |
| OrderSchema.PaymentKeysAreTheMethods | src/schemaValidation/order.shema.ts:8 | the payment enum is exactly the payment table's keys |
| OrderSchema.WithDefault | src/schemaValidation/order.shema.ts:7-8 | an absent key takes the default |
| OrderSchema.ParseBilling | src/schemaValidation/order.shema.ts:3-9 | accepted iff the phone has ≥ 10 characters, the address ≥ 1, and the customer id is present and the methods valid; methods default to free and cash |
| OrderSchema.BillingExample | src/schemaValidation/order.shema.ts:5 | ten letters pass as a phone number; the defaults are free delivery and cash |
| OrderSchema.LinesAcceptedIff | src/schemaValidation/order.shema.ts:21-24 | product lines are accepted iff each has both numbers; no range check |
| OrderSchema.MissingQuantityReported | src/schemaValidation/order.shema.ts:21-24 | a missing quantity is reported at its own line's index |
| OrderSchema.ParseOrderBody | src/schemaValidation/order.shema.ts:12-25 | accepted iff all nine fields are present, the methods are valid and every line is complete; every field carries over, the method keys as the methods they name, and the lines one for one |
| ProductSchema.FileIssues | src/schemaValidation/product.schema.ts:26 | no issue iff the value is a file |
| ProductSchema.ImagesAcceptedIff | src/schemaValidation/product.schema.ts:32 | the image list is accepted iff every element is a file |
| ProductSchema.BadImageReported | src/schemaValidation/product.schema.ts:32 | each non-file image is reported at its own index |
| ProductSchema.DiscountIssues | src/schemaValidation/product.schema.ts:31 | no issue iff 0 ≤ discount ≤ 100 |
| ProductSchema.NonEmptyIssues | src/schemaValidation/product.schema.ts:25-27 | no issue iff the text is present and non-empty |
| ProductSchema.AtLeastOneIssues | src/schemaValidation/product.schema.ts:28-29 | no issue iff the number is present and ≥ 1, with no integer check |
| ProductSchema.ThumbnailIssues | src/schemaValidation/product.schema.ts:40 | the thumbnail must be a file; only the edit body lets it be absent |
| ProductSchema.ImageListIssues | src/schemaValidation/product.schema.ts:46 | the images must be files; only the edit body lets the list be absent |
| ProductSchema.DiscountFieldIssues | src/schemaValidation/product.schema.ts:31 | the discount is required and within [0, 100] |
| ProductSchema.ProductIssues | src/schemaValidation/product.schema.ts:24-35 | no issue iff the body meets every field rule |
| ProductSchema.ParseProduct | src/schemaValidation/product.schema.ts:38-49 | accepted iff the field rules hold; the fields carry over, the thumbnail and each image as the given file; the create body always has a thumbnail and images |
| ProductSchema.EditAcceptsCreate | src/schemaValidation/product.schema.ts:24-49 | the edit body accepts whatever the create body accepts, with the same result, and differs only when the thumbnail or images are absent |
| ProductSchema.SortFieldKeysAreTheFields | src/schemaValidation/product.schema.ts:77 | the sortField enum is exactly the product list's sort fields |
| ProductSchema.SortByKeysAreTheOrders | src/schemaValidation/product.schema.ts:78 | the sortBy enum is exactly asc and desc |
| ProductSchema.ParseProductParams | src/schemaValidation/product.schema.ts:72-81 | every parameter is optional; a present sort field or direction must be an enum key and reads back as it |
| ProductSchema.EmptyParamsAccepted | src/schemaValidation/product.schema.ts:72-81 | a query with no parameters is accepted |

## Left out

- Network and server I/O are not modelled: `fetch`, `res.json()`, cookies, `redirect`, `router.push`, `window.location.reload`, the upload service and the customer update service. Their results are parameters, and the services the components call are represented only by their replies.
- Toast display is not modelled. Only the toast's kind and text are returned, by `ProfileForm.ProfileEditor.HandleSave`.
- Timing is reduced to events. The 800 ms debounce is a single pending query, and `FirePending` is the timer going off. React effects, first-render refs, the unmount cleanup that clears the timer, and out-of-order replies are not modelled.
- The `FileReader` preview is not modelled as a process. It is the separate `PreviewLoaded` event.
- Floating-point money formatting is not modelled: `Intl.NumberFormat`, `toFixed`, `formatNumberWithDots` on non-integers, and the NaN branches of `formatTimeMinute` and `formatNumberWithDots`. Prices and totals are exact reals.
- Dates and locale formatting (`formatDate`, `formatDateToString`) are not part of this model.
- `General.FormatNumberWithDots` covers naturals only, as unbounded integers.
- FormatNumberRoundTrip, FormatNumberWithDots, FormatTimeMinute, DeleteUrl, LevelLabel and IntToString treat numbers as unbounded integers. A JavaScript number is a double: from 10^21 on, `toString` gives the exponent form (`1e+21`, which the grouping regex leaves without commas), and integers above 2^53 are not exact. The grouping and round-trip results hold only below those bounds in the source.
- `General.TimeRoundTrip` states the layout for non-negative times. Negative times are still modelled through `JsRemainder`.
- Library tests are parameters: e-mail syntax (`isEmail`), `encodeURIComponent`, and the `URLSearchParams` serialisation (`encode`).
- `toUpperCase` is modelled for ASCII only. Strings are sequences of characters, not UTF-16 code units. `IsSpace` is the whole whitespace set of JavaScript's `\s` and `trim`.
- Zod messages are abbreviated. Issues the library words itself are issue kinds without text: a missing field, an enum mismatch, and unrecognised keys.
- Zod type mismatches are not modelled. Present fields are assumed to have their declared type, since every input is typed. This also covers NaN numbers.
- `Zod.Required` and the schema inputs model a key that is absent. An explicit `null` is not distinguished from an absent key.
- The `Customer`, `Admin`, `ProductSchema`, `ProductResponse` and login-reply schemas describe server replies, and the model takes those replies as typed values.
- `ProfileForm.ProfileEditor.HandleInputChange` covers the four fields the form's inputs edit. Editing `id` or `avatar` through it is not modelled.
- `OrdersData.OrdersTable.FetchOrders` requires that a reply with `data` also carries `totalCount`, as the reply type declares.
- `OrdersData.OrderQuery` leaves the status key out for the "all" variant. The source passes `status: undefined` to the server action, whose argument encoding drops undefined keys. `Http.QueryPairs` makes an `undefined` or `null` value an error, as `toString()` on either would throw.
- QueryPairs: an array value holds strings, so an `undefined` or `null` element inside an array, on which `v.toString()` would throw, is not modelled.
- The request parameters of the product list's fetch and of the search (`getProducts`) are not modelled. The product service is a one-condition wrapper over an unseen backend.
- The page sizes offered by the selects are preconditions: `ChangePageSize` requires one of 5, 10, 20, 30, 40 and 50, and `HandlePageSizeChange` requires one of the product list's option texts. The class constructors require a positive page size.
- FetchProducts accepts any page size in the reply and stores it, as the source does. After a reply with a size of 0 or less the grid is no longer `Valid()`, and the page count and page links, which divide by the size (`Math.ceil(total / 0)` is `Infinity` in the source), are not modelled for that state.
- The store does not register the cart reducer, so this model covers the reducer on its own.
- The middleware's `catch` branch and its route matcher are not modelled. The decision is a pure function of the path and the two cookies.
- PrefixesAreRaw states what the `middleware` function decides. The route matcher `['/admin/:path*', '/me/:path*']` (src/middleware.ts:27) never runs it on "/administrator" or "/messages", so in the deployed program those paths pass without cookies.
- The total item count per order row and the order table's refresh button are not modelled. They are presentation only.
