# MedStore storefront: the order and prescription workflow

MedStore is a React + Supabase pharmacy storefront. This Dafny project models the part of it
that can be stated exactly:

- **Cart store** (`cart_context.dfy`). The signed-in user's `cart_items` rows and the local
  `cartItems` list that mirrors them:
  - add-or-increment keyed by product;
  - quantity updates below 1 ignored;
  - single-row and whole-cart deletion;
  - the `totalPrice` and `requiresPrescription` folds.
- **Checkout** (`checkout.dfy`):
  - prescription-file validation;
  - the address and prescription guards;
  - the optional prescription row and its storage path;
  - the order row and one price-snapshot item per cart line;
  - clearing the cart for cash on delivery, or in the payment-success callback.
- **Pharmacist dashboard** (`pharmacist_dashboard.dfy`):
  - the pending queue, the non-delivered order list and the weekly metrics;
  - the review action, with its conditionally attached note, its notification request and the cleanup of the draft maps;
  - the order-status overwrite;
  - the stock update.
- **Order timeline** (`order_timeline.dfy`). The mapping from an order status to the current
  step and to the completed, current and connector flags of the five steps, or to the
  cancelled banner.
- **Catalogue filter** (`products.dfy`). The conjunctive search/category/brand/price
  predicate, and the de-duplicated category and brand lists.
- **Notification function** (`notify_prescription_update.dfy`):
  - the status text and colour;
  - the greeting;
  - the e-mail body assembled by appends;
  - the subject;
  - the 200/500 responses of the `notify-prescription-update` edge function.

The tables live in one in-memory `Store.Database` object:

- `products`, `orders` and `prescriptions` are maps from id to row;
- `cart_items` and `order_items` are sequences of rows;
- a counter hands out fresh ids.

`Database.Valid` states that ids are unique and that every cart row names an existing product.
It also states that a user has at most one cart row per product. Every cart operation preserves
`Valid`.

Each remote call the source awaits becomes a boolean parameter, true when the call returned no
error; examples are `writeOk` and `CheckoutCalls`. Each handler is a method whose postcondition
states the whole new state for every combination of outcomes. Timestamps (`Date.now()`, the
review time, the start of the metrics week) are parameters.

`seqs.dfy` and `text.dfy` model the JavaScript library calls the code relies on:
`filter`, `indexOf`, `Array.from(new Set(...))`, `trim`, `toLowerCase`, `includes` and
`split('.').pop()`.

## Model

| member | source | states |
|---|---|---|
| Seqs.Filter | src/pages/Products.tsx:73 | `filter` returns a value iff the input holds it and it satisfies the predicate, and never lengthens the list |
| Seqs.FilterCounts | src/pages/Products.tsx:73 | `filter` keeps every occurrence of each satisfying value and no occurrence of the others (multiplicities, not just membership) |
| Seqs.FilterIsSubsequence | src/pages/Products.tsx:73 | the filtered list is an order-preserving subsequence of the input |
| Seqs.FilterKeepsPairwise | src/contexts/CartContext.tsx:107-112 | a property of every ordered pair of rows survives deleting rows by a filter |
| Seqs.IndexOf | src/components/OrderTimeline.tsx:17 | `indexOf` is -1 exactly when the value is absent, and otherwise the first position holding it |
| Seqs.Dedup | src/pages/Products.tsx:70-71 | `Array.from(new Set(xs))` has no duplicates and holds exactly the values of `xs` |
| Seqs.DedupKeepsFirstOccurrenceOrder | src/pages/Products.tsx:70-71 | the de-duplicated values come out in the order of their first occurrence |
| Seqs.IndexOfAppend | src/pages/Products.tsx:70-71 | appending a value does not move the first occurrence of one already present |
| Text.TrimStart | src/pages/Checkout.tsx:45 | the result is the input minus a blank prefix and does not start with whitespace |
| Text.TrimEnd | src/pages/Checkout.tsx:45 | the result is the input minus a blank suffix and does not end with whitespace |
| Text.TrimIsEmptyIffBlank | src/pages/Checkout.tsx:45 | `!address.trim()` holds exactly when the address is all whitespace (or empty) |
| Text.Lower | src/pages/Products.tsx:75-77 | lower-casing keeps the length |
| Text.Contains | src/pages/Products.tsx:75-77 | `includes` holds iff the needle occurs at some position of the string |
| Text.EmptyIsContained | src/pages/Products.tsx:75-77 | the empty string occurs in every string |
| Text.ContainsAfterPrefix | supabase/functions/notify-prescription-update/index.ts:70-86 | text found in a string is still found after something is put in front of it |
| Text.ContainsInLonger | supabase/functions/notify-prescription-update/index.ts:70-92 | text found in a prefix is found in the whole string |
| Text.AfterLastDotShape | src/pages/Checkout.tsx:61 | `split('.').pop()` is a dot-free suffix preceded by a '.', and is the whole name exactly when the name has no '.' |
| Store.SetQuantity | src/contexts/CartContext.tsx:127-130 | the update by id changes the quantity of the rows with that id and leaves every other row as it was |
| Store.WithoutId | src/contexts/CartContext.tsx:109-112 | the delete by id removes exactly the rows with that id |
| Store.WithoutUser | src/contexts/CartContext.tsx:144-147 | the delete by user removes exactly that user's rows |
| Store.WithoutIdKeepsDistinct | src/contexts/CartContext.tsx:107-112 | deleting by id keeps rows distinct and the survivors in order |
| Store.WithoutUserKeepsDistinct | src/contexts/CartContext.tsx:140-150 | deleting a user's rows keeps rows distinct and the survivors in order |
| Store.Database.InsertPrescription | src/pages/Checkout.tsx:70-80 | `insert().select().single()` adds exactly one prescription row under a fresh id |
| Store.Database.InsertOrder | src/pages/Checkout.tsx:84-98 | `insert().select().single()` adds exactly one order row under a fresh id |
| CartContext.TotalPrice | src/contexts/CartContext.tsx:157-160 | the empty cart totals 0 and a one-line cart totals price × quantity |
| CartContext.TotalPriceConcat | src/contexts/CartContext.tsx:157-160 | the total of two carts laid end to end is the sum of their totals (with `TotalPrice([]) == 0`, the fold is the sum of price × quantity) |
| CartContext.TotalPriceNonNegative | src/contexts/CartContext.tsx:157-160 | with no negative price or quantity the total is never negative |
| CartContext.RequiresPrescription | src/contexts/CartContext.tsx:162-164 | true iff some line's product requires a prescription |
| CartContext.FindByProduct | src/contexts/CartContext.tsx:84 | `find` returns the first line for the product, or nothing iff no line has it |
| CartContext.UserLinesMembership | src/contexts/CartContext.tsx:46-67 | the fetched cart holds a line exactly for each of the user's rows, joined with its product |
| CartContext.UserLinesOfAbsentUser | src/contexts/CartContext.tsx:140-150 | a user with no rows has an empty cart |
| CartContext.Cart.constructor | src/contexts/CartContext.tsx:34-44 | the local cart starts as the user's rows, or empty without a user |
| CartContext.Cart.FetchCart | src/contexts/CartContext.tsx:46-74 | after a fetch the local cart mirrors the user's rows |
| CartContext.Cart.AddToCart | src/contexts/CartContext.tsx:76-105 | no user: nothing changes. A product already in the cart: that row's quantity becomes old + `quantity` and no row is inserted. Otherwise: exactly one row (user, product, `quantity`) is appended. One row per product is kept |
| CartContext.Cart.InsertRow | src/contexts/CartContext.tsx:88-99 | a successful insert of a known product appends one row with a fresh id and keeps at most one row per product and user; otherwise the rows are unchanged |
| CartContext.Cart.UpdateQuantity | src/contexts/CartContext.tsx:123-138 | a quantity below 1 changes nothing; otherwise a successful write sets the quantity of exactly the rows with that id |
| CartContext.Cart.RemoveFromCart | src/contexts/CartContext.tsx:107-121 | a successful delete removes exactly the rows with that id; only `cart_items` changes |
| CartContext.Cart.ClearCart | src/contexts/CartContext.tsx:140-155 | no user: nothing changes; a successful delete removes all the user's rows and empties the local cart |
| Checkout.CheckFileAccepts | src/pages/Checkout.tsx:28-42 | a file is accepted iff it is PDF, JPEG or PNG and at most 5 MiB; exactly 5 MiB is accepted, one byte more is not |
| Checkout.PrescriptionPathShape | src/pages/Checkout.tsx:61-62 | the storage path starts with the user id and "/" and ends with "." and the file name's extension |
| Checkout.JoinedPathShape | src/pages/Checkout.tsx:62 | the template `${user}/${stamp}.${ext}` starts with the user prefix and ends with "." + ext |
| Checkout.ExtensionSplitsName | src/pages/Checkout.tsx:61 | a name with a '.' is its stem, a '.', and the extension |
| Checkout.OrderItemsFor | src/pages/Checkout.tsx:101-106 | one order item per cart line, with that line's product, quantity and current price |
| Checkout.OrderTotalMatchesItems | src/pages/Checkout.tsx:84-106 | the order's `total_amount` equals the sum of price × quantity over its items |
| Checkout.CheckoutPage.constructor | src/pages/Checkout.tsx:22-26 | empty address, no file, payment method "cod", no order id |
| Checkout.CheckoutPage.HandleFileChange | src/pages/Checkout.tsx:28-42 | a selected file replaces the current one only if it passes both checks; a rejected file leaves the previous one |
| Checkout.CheckoutPage.HandleCheckout | src/pages/Checkout.tsx:44-130 | nothing is written without a user, with a blank address, or when a needed prescription is missing. The prescription row is created only with a file and carries the derived path. The order row has status and payment pending, the cart total and that prescription's id. One item is inserted per line. `orderId` is set once the items are inserted, and the cart is cleared only for "cod". A failed step leaves earlier rows in place |
| Checkout.CheckoutPage.CreateOrder | src/pages/Checkout.tsx:83-122 | the order row, then its items, then the cart clear for "cod"; a failed items insert leaves the order and no `orderId` |
| Checkout.CheckoutPage.HandlePaymentSuccess | src/pages/Checkout.tsx:132-152 | with no stored order id nothing changes; otherwise the order is marked paid with both gateway ids (no already-paid check) and the cart is cleared |
| Checkout.CheckoutPage.HandlePaymentError | src/pages/Checkout.tsx:154-157 | the order and the cart are left untouched |
| PharmacistDashboard.PendingQueue | src/pages/PharmacistDashboard.tsx:54-58 | the review queue holds exactly the pending prescriptions, unchanged (the query without the `!inner` join; see Findings) |
| PharmacistDashboard.QueueAsWrittenWithinQueue | src/pages/PharmacistDashboard.tsx:54-58 | the queue as the query is written is part of the intended queue, and equals it iff every pending prescription names a reviewer with a profile |
| PharmacistDashboard.OpenOrders | src/pages/PharmacistDashboard.tsx:59-63 | the order list holds exactly the orders whose status is not delivered, unchanged |
| PharmacistDashboard.ReviewedSince | src/pages/PharmacistDashboard.tsx:68-84 | exactly the prescriptions with the given status reviewed at or after the week's start |
| PharmacistDashboard.ApplyPatch | src/pages/PharmacistDashboard.tsx:106-123 | the update sets status, reviewer and review time, overwrites reason and comments only when the patch holds them, and keeps owner and file |
| PharmacistDashboard.PharmacistName | src/pages/PharmacistDashboard.tsx:128-140 | the pharmacist's full name when it is non-empty, otherwise "Pharmacist" |
| PharmacistDashboard.ReviewMovesOneToProcessed | src/pages/PharmacistDashboard.tsx:83-91 | reviewing a pending prescription inside the week lowers the pending count by one and raises the processed total by one |
| PharmacistDashboard.NewPrescriptionHiddenAsWritten | src/pages/PharmacistDashboard.tsx:54-58 | with the `!inner` join on the reviewer's profile, a pending prescription fresh from checkout is not in the queue |
| PharmacistDashboard.NewPrescriptionJoinsQueue | src/pages/PharmacistDashboard.tsx:54-58 | without that join, a prescription fresh from checkout is in the review queue |
| PharmacistDashboard.ReviewedLeavesQueue | src/pages/PharmacistDashboard.tsx:54-58 | a reviewed prescription leaves the pending queue and no other entry changes |
| PharmacistDashboard.StatusUpdateAndOrderList | src/pages/PharmacistDashboard.tsx:59-63 | an order leaves the order list exactly when its status is set to delivered; the others are unaffected |
| PharmacistDashboard.Dashboard.constructor | src/pages/PharmacistDashboard.tsx:19-32 | empty lists and drafts, no product being edited, all metrics 0 |
| PharmacistDashboard.Dashboard.FetchData | src/pages/PharmacistDashboard.tsx:48-99 | on success the queue holds exactly the pending prescriptions and the order list exactly the non-delivered orders. `pendingCount` is the queue size and `totalProcessed` is approved + rejected. A failed metrics query counts as 0; a failed list query changes nothing |
| PharmacistDashboard.Dashboard.HandlePrescriptionAction | src/pages/PharmacistDashboard.tsx:101-166 | a failed update changes nothing. Otherwise only that row changes: status, reviewer and review time are set, and the reason or comments only for the matching action with a non-empty draft. The notification request goes out whether or not it fails, and exactly that prescription's drafts are removed |
| PharmacistDashboard.Dashboard.HandleOrderStatusUpdate | src/pages/PharmacistDashboard.tsx:168-183 | only the named order's status changes, to any status, with no transition check |
| PharmacistDashboard.Dashboard.HandleStockUpdate | src/pages/PharmacistDashboard.tsx:185-207 | a missing or negative draft writes nothing; otherwise the stock becomes exactly that value and editing ends on success |
| OrderTimeline.CancelledShowsBanner | src/components/OrderTimeline.tsx:19-25 | the banner is shown exactly for a cancelled order |
| OrderTimeline.StepsFollowStatusOrder | src/components/OrderTimeline.tsx:8-16 | the five step keys are the status order, which holds every status but cancelled, once |
| OrderTimeline.IndexOfAt | src/components/OrderTimeline.tsx:16-17 | a status at position i of the status order is found by `indexOf` at i |
| OrderTimeline.CurrentIndexIsIndexOf | src/components/OrderTimeline.tsx:16-17 | the step-position table equals `statusOrder.indexOf(status)` for every status |
| OrderTimeline.CurrentIndexIsPosition | src/components/OrderTimeline.tsx:16-17 | the current index is -1 iff the order is cancelled, and otherwise the unique position of the status |
| OrderTimeline.StepFlags | src/components/OrderTimeline.tsx:30-32 | step i is completed iff i ≤ the current index and current iff its key is the status; completed steps form a prefix |
| OrderTimeline.ExactlyOneCurrent | src/components/OrderTimeline.tsx:31-32 | exactly one step is current for a non-cancelled order |
| OrderTimeline.DeliveredCompletesAll | src/components/OrderTimeline.tsx:31 | a delivered order has all five steps completed |
| OrderTimeline.ConnectorsAgree | src/components/OrderTimeline.tsx:38-58 | the connector after step i is highlighted iff i is before the current step; the first step has no left connector and the last no right one, and neighbouring halves agree |
| OrderTimeline.ProgressKeepsCompleted | src/components/OrderTimeline.tsx:31 | a later status never un-completes a step |
| Products.FilteredProducts | src/pages/Products.tsx:73-84 | a product is shown iff it matches search, category, brand and the inclusive price range; the result keeps catalogue order |
| Products.EmptySearchMatchesAll | src/pages/Products.tsx:74-77 | an empty search matches every product |
| Products.SearchIgnoresQueryCase | src/pages/Products.tsx:74-77 | lower-casing the query first does not change the match |
| Products.InitialFiltersKeepPriceRange | src/pages/Products.tsx:35-38 | with the initial filters a product is shown iff its price is within 0 to 10000 rupees (0 to 1000000 paise) |
| Products.Categories | src/pages/Products.tsx:70 | no duplicates, and exactly the categories some product has |
| Products.BrandColumn | src/pages/Products.tsx:71 | `filter(Boolean)` keeps exactly the non-null, non-empty brands |
| Products.Brands | src/pages/Products.tsx:71 | no duplicates, and exactly the non-empty brands some product has |
| PrescriptionEmail.OccursInside | supabase/functions/notify-prescription-update/index.ts:71-85 | a string occurs in any string built around it |
| PrescriptionEmail.OccursBeforeThree | supabase/functions/notify-prescription-update/index.ts:71-85 | a string occurs in any string that continues it with three pieces |
| PrescriptionEmail.BlockShowsTitle | supabase/functions/notify-prescription-update/index.ts:71-85 | a highlighted box contains its title |
| PrescriptionEmail.BlockShowsText | supabase/functions/notify-prescription-update/index.ts:71-85 | a highlighted box contains its text |
| PrescriptionEmail.AssembleLayout | supabase/functions/notify-prescription-update/index.ts:63-92 | the body opens with the header and always ends with the closing text (dashboard line and sign-off); a shown box follows the header directly; with no box the body is header + footer |
| PrescriptionEmail.ShownCommentsInBody | supabase/functions/notify-prescription-update/index.ts:70-77 | when the comments box is shown, the comments appear in the body |
| PrescriptionEmail.ShownReasonInBody | supabase/functions/notify-prescription-update/index.ts:79-86 | when only the rejection box is shown, the reason appears in the body |
| PrescriptionEmail.AppendComments | supabase/functions/notify-prescription-update/index.ts:70-77 | the comments box is appended only when it is shown |
| PrescriptionEmail.AppendRejection | supabase/functions/notify-prescription-update/index.ts:79-86 | the rejection box is appended only when it is shown |
| PrescriptionEmail.AppendBlocks | supabase/functions/notify-prescription-update/index.ts:70-92 | the appends produce the assembled body for the given header |
| PrescriptionEmail.ComposeBody | supabase/functions/notify-prescription-update/index.ts:63-92 | `emailBody` is the letter's header, its shown boxes and the closing text |
| NotifyPrescriptionUpdate.StatusText | supabase/functions/notify-prescription-update/index.ts:60 | "Approved" iff the status is "approved", else "Rejected" |
| NotifyPrescriptionUpdate.StatusColor | supabase/functions/notify-prescription-update/index.ts:61 | green iff the status is "approved", else red |
| NotifyPrescriptionUpdate.Greeting | supabase/functions/notify-prescription-update/index.ts:66 | the profile's full name when it is non-empty, otherwise "User" |
| NotifyPrescriptionUpdate.Subject | supabase/functions/notify-prescription-update/index.ts:97 | the subject is "Prescription ", then the status text, then " - MedStore" |
| NotifyPrescriptionUpdate.ComposedLetter | supabase/functions/notify-prescription-update/index.ts:60-86 | the comments box is shown iff approved with non-empty comments. The rejection box is shown iff rejected with a non-empty reason, so never both. Shown boxes carry the request's text, and the header's text, colour and greeting follow the status and the profile |
| NotifyPrescriptionUpdate.ApprovalCommentsReachBody | supabase/functions/notify-prescription-update/index.ts:70-77 | for an approval with comments, the comments appear in the e-mail body |
| NotifyPrescriptionUpdate.RejectionReasonReachesBody | supabase/functions/notify-prescription-update/index.ts:79-86 | for a rejection with a reason, the reason appears in the e-mail body |
| NotifyPrescriptionUpdate.HandleRequest | supabase/functions/notify-prescription-update/index.ts:20-118 | OPTIONS gets 200 with no body. A missing prescription, or an owner unknown or without e-mail, gets 500 with the message and no e-mail. An error thrown by the send gets 500 with its message; an error the provider reports in its result is not inspected and is answered 200. Otherwise 200 and one e-mail to the owner from the fixed sender, with subject "Prescription {Approved or Rejected} - MedStore" and the composed letter |

## Left out

- Network, storage and authentication. The Supabase client, storage uploads, signed URLs, `auth.admin` and the Resend client are not modelled. Each call is a boolean outcome parameter; the owner's e-mail and a thrown send error are parameters of `HandleRequest`. The result of `resend.emails.send` is never inspected by the source, so an error reported in it leads to the 200 response, as in the model.
- React machinery. Hooks, effects, the 10-second polling, loading flags, navigation, toasts and console logging are not modelled. The `fetchCart`/`fetchData` calls after each write are separate methods.
- Query failures. A failed `fetchCart` read is not modelled: `FetchCart` always succeeds. Likewise the error of the unchecked profile lookups (a missing profile gives the fallback name), and a malformed JSON request body to the edge function.
- List order. The dashboard's lists are maps keyed by id, so the `order("created_at")` and `order("name")` orderings are not modelled. The cart and catalogue keep table order.
- Dashboard joins. The nested `order_items` selection on orders is not modelled. The `!inner` profile join on the pending-prescription query is modelled only in `PendingQueueAsWritten` (see Findings); the rest of the model uses the queue of every pending prescription.
- PharmacistDashboard.Dashboard.FetchData: the queue and `pendingCount` are those of the intended query (`PendingQueue`), not of the `!inner`-joined query the code runs (`PendingQueueAsWritten`), which would leave out every prescription not yet reviewed; `QueueAsWrittenWithinQueue` states how the two differ.
- PharmacistDashboard.ReviewMovesOneToProcessed: the pending count it lowers is that of the intended queue (`PendingQueue`), not that of the `!inner`-joined query, for the same reason.
- Money is an integer in paise (`Records.PaisePerRupee`); the source's prices and its slider bounds are rupees, so the model's bounds are scaled by 100. Fractional paise, JavaScript numbers, `formatINR` and the float conversions are out.
- Text.Lower: lower-cases ASCII letters only, not the full Unicode mapping of `toLowerCase`.
- Wall-clock values. `Date.now()`, `new Date()` and the week start are parameters (`stamp`, `now`, `since`). Times are integers, not ISO strings.
- The payment gateway. `RazorpayButton`, the admin dashboard, the other pages, the seed scripts and the Products page's one-line `addToCart` wrapper (it calls `AddToCart` with quantity 1) are not part of this model.
- Supabase row ids are opaque strings; here they are `nat`s handed out by a counter. An order item's own id and the timestamp columns are not kept.
- The e-mail in a `Sent` response carries the `Letter` it is built from, and `ComposeBody` lays a letter out as HTML. The body is not embedded in the response value, which keeps the long literal text out of the handler's proofs.
- HTML escaping is absent from the source and from the model; `PrescriptionEmail.Block` interpolates the text as is.
- The dashboard's notification call. Its outcome (`notifyOk`) changes nothing: the source catches and ignores its failure. The function's response to that call is not fed back.

## Findings

| source | as written | input that shows it | evidently intended | confidence | as-written member | corrected member |
|---|---|---|---|---|---|---|
| src/pages/PharmacistDashboard.tsx:54-58 | the pending-prescription query embeds the reviewer's profile through `pharmacist_id` with `!inner`, which keeps only rows whose `pharmacist_id` matches a profile | a prescription just inserted at checkout (src/pages/Checkout.tsx:70-77): status pending, `pharmacist_id` null | the review queue lists every pending prescription | medium; not executed | PharmacistDashboard.NewPrescriptionHiddenAsWritten | PharmacistDashboard.NewPrescriptionJoinsQueue |
