# EA POS validation and decision rules

This project models the rules of the EA point-of-sale web application
(Next.js API routes and React dialogs). It covers:

- **Orders.** The guard chains of `POST /api/orders` and `POST /api/order_items`.
  The order details dialog: its status badge, the "Cancelled means total 0" patch
  body, the item-count fold and the pristine check on the status.
- **Inventory.** Item creation, in the create dialog and in `POST /api/inventory`.
  The restock dialog, which sends an absolute quantity only for a positive amount.
- **Contacts.** The customer and supplier create and edit dialogs. Each one builds
  an error map with at most one message per field: required fields, an e-mail
  pattern and an eleven-digit phone number. It submits only when the map is empty.
  The customer `POST` and the supplier `POST`, `PATCH` and `DELETE` handlers.
- **Categories.** The category create and edit dialogs.
- **Audit log.** The best-effort audit entry written after an insert. Its actor is
  the session user's name or `System`.
- **Middleware.** The decision to pass a request or send it to `/login`, and the
  matcher that keeps `/api`, `/_next/static`, `/_next/image` and the favicon away
  from it.

Every source file is modelled in its own form:
- Guard chains, mappings and folds are functions with lemmas.
- Each dialog is a class whose fields are the component's state. Its handlers are
  methods with `modifies this`.
- The PATCH query builder is a method that pushes clauses and parameters with a
  running placeholder index.

A request body is a JSON value (`Json.Value`). JavaScript truthiness is written
out (`Json.Truthy`). Amounts are integers.

## Model

| member | source | states |
|---|---|---|
| OrdersRoute.PostOrder | src/app/api/orders/route.ts:15-54 | 400 exactly when the request is not well formed: a missing field, a wrong type, an invalid date, a negative total or an unknown status. 201 exactly when it is well formed and the insert succeeds; the appended row is the customer id, admin name, date, status and total as sent, with `created_at == updated_at == now`. Any failure leaves the table unchanged. |
| OrdersRoute.RequiredCheckComesFirst | src/app/api/orders/route.ts:25-32 | A missing or falsy field yields "All fields are required", whatever the types of the other fields. |
| OrdersRoute.StringDateIsNeverMissing | src/app/api/orders/route.ts:20-32 | A string date becomes a Date object, which is truthy even when empty or invalid, so an invalid date string is reported as a type error, not as missing. |
| OrdersRoute.TotalMustBeNonNegative | src/app/api/orders/route.ts:34-36 | Otherwise valid requests with a negative total get the non-negative error; a zero total never does. |
| OrdersRoute.StatusCheckIgnoresCase | src/app/api/orders/route.ts:37-39 | A status is accepted iff its lower-cased form is, so any capitalisation of the five statuses passes. |
| OrdersRoute.StatusStoredAsGiven | src/app/api/orders/route.ts:37-48 | "Shipped" is accepted and the inserted row keeps "Shipped", not its lower-cased form. |
| OrderItemsRoute.PostOrderItem | src/app/api/order_items/route.ts:13-45 | Any undefined field gives 400 "All fields are required", then any non-number gives the type error. Numbers out of range (quantity <= 0, price < 0 or subtotal < 0) give 400 with the values error, and a failed insert gives 500 "Failed to create order item". Success holds iff all five are numbers in range and the insert succeeds. The row is the values as sent with `created_at == updated_at`; failures leave the table unchanged. |
| OrderItemsRoute.SubtotalIsNotRecomputed | src/app/api/order_items/route.ts:28-40 | Replacing a non-negative subtotal by any other non-negative one gives the same status, and a stored row keeps the new subtotal: the route never compares it with quantity times unit price. |
| OrderItemsRoute.ZeroBoundaries | src/app/api/order_items/route.ts:28-30 | Zero price and subtotal are accepted; zero quantity is rejected with the values error. |
| OrderView.BadgeIgnoresCase | src/components/order/view.tsx:103-118 | The badge variant depends only on the lower-cased status. |
| OrderView.BadgeMatchesRouteStatuses | src/components/order/view.tsx:103-118 | The badge is `outline` exactly for statuses the orders route would refuse, and `destructive` exactly for "cancelled" in any case. |
| OrderView.BuildUpdateData | src/components/order/view.tsx:128-134 | The PATCH body always carries the edited status; it carries total 0 iff the status is exactly "Cancelled", and no total otherwise. |
| OrderView.CancelCheckIsCaseSensitive | src/components/order/view.tsx:104-134 | "cancelled" gets the destructive badge and is a valid status, but does not zero the total; only "Cancelled" does. |
| OrderView.StatusOptionsAreRouteStatuses | src/components/order/view.tsx:52-58 | Each of the five selectable options is a status the route accepts with a non-outline badge, and only the fifth (Cancelled) zeroes the total. |
| OrderView.ReduceIsSum | src/components/order/view.tsx:255-260 | The `reduce` with a start value equals the start value plus the sum of the line quantities. |
| OrderView.TotalItems | src/components/order/view.tsx:255-260 | Total items is 0 when no items are loaded and the sum of line quantities otherwise. |
| OrderView.SumQuantitiesAppend | src/components/order/view.tsx:255-260 | Adding a line adds its quantity to the total. |
| OrderView.TotalItemsAtLeastLines | src/components/order/view.tsx:255-260 | With positive line quantities the total is at least the number of lines, and 0 for no lines. |
| OrderView.DisplayedSubtotalIgnoresStored | src/components/order/view.tsx:293 | The displayed line subtotal does not depend on the stored subtotal, and equals it exactly when the stored one is quantity times unit price. |
| OrderView.HasStatusChanged | src/components/order/view.tsx:158-160 | Before the order is loaded it reports a change; afterwards it reports one iff the edited status differs from the loaded one. |
| OrderView.OrderDetailsDialog.constructor | src/components/order/view.tsx:43-50 | Initial state: the edited status is the row's status, loading is on, no original order, no error, no PATCH sent. |
| OrderView.OrderDetailsDialog.DetailsLoaded | src/components/order/view.tsx:86-96 | Loading stores the order as the original, resets the edited status to it, and leaves Save disabled. |
| OrderView.OrderDetailsDialog.StartEditing | src/components/order/view.tsx:245 | Turns editing on and changes nothing else. |
| OrderView.OrderDetailsDialog.HandleStatusChange | src/components/order/view.tsx:120-122 | Sets the edited status; once loaded, Save is enabled iff it differs from the original status (line 226). |
| OrderView.OrderDetailsDialog.HandleUpdateStatus | src/components/order/view.tsx:124-156 | Sends exactly one PATCH, with the body that BuildUpdateData specifies. On success editing ends; on failure the server's message, or the fallback, becomes the error. Loading ends off either way. |
| InventoryQuantity.RestockPatch | src/components/inventory/quantity.tsx:38-50 | A request exists iff the amount is positive; it targets the item and its quantity exceeds the current one by exactly the amount. |
| InventoryQuantity.DisabledIffNoRequest | src/components/inventory/quantity.tsx:160-162 | The Add button is disabled exactly when pressing it would send nothing. |
| InventoryQuantity.AddQuantityDialog.constructor | src/components/inventory/quantity.tsx:29 | The amount starts at 0 and nothing has been sent. |
| InventoryQuantity.AddQuantityDialog.ViewOpenChanged | src/components/inventory/quantity.tsx:31-36 | Opening resets the amount to 0; closing keeps it. |
| InventoryQuantity.AddQuantityDialog.SetNewQuantity | src/components/inventory/quantity.tsx:145 | Stores the typed amount. |
| InventoryQuantity.AddQuantityDialog.HandleAddQuantity | src/components/inventory/quantity.tsx:38-70 | A positive amount appends the restock patch (current plus amount); otherwise nothing is sent. A request was sent iff the button was enabled. |
| InventoryCreate.PriceIsNotChecked | src/components/inventory/create.tsx:59-66 | Changing the price never changes whether the item is rejected. |
| InventoryCreate.GuardBoundaries | src/components/inventory/create.tsx:59-66 | With unit and description filled, zero quantity, threshold and category pass, and so does a NaN quantity; a negative quantity, threshold or category id is rejected. |
| InventoryCreate.ResetDraftIsRejected | src/components/inventory/create.tsx:78-85 | The emptied form is well shaped and would itself be rejected. |
| InventoryCreate.CreateItemDialog.constructor | src/components/inventory/create.tsx:31-42 | The form starts as the empty draft and nothing has been created. |
| InventoryCreate.CreateItemDialog.HandleInputChange | src/components/inventory/create.tsx:44-53 | Only quantity, reorder threshold and category id are coerced to numbers; other fields store the text. All other fields stay unchanged. |
| InventoryCreate.CreateItemDialog.HandleCreateItem | src/components/inventory/create.tsx:55-95 | A rejected draft is kept and nothing reaches `onCreate`. Otherwise the draft is handed on and the form resets to empty strings and zeros. |
| InventoryRoute.PostReply | src/app/api/inventory/route.ts:28-65 | A falsy unit, description or category name, or an undefined quantity, threshold, price or supplier, gives 400 required. Then an unparsable numeric field gives 400 numeric. 201 iff both guards pass and the insert succeeds. |
| InventoryRoute.ZeroQuantityIsPresent | src/app/api/inventory/route.ts:35-37 | Zero quantity and threshold do not make the request missing; only the other fields decide. |
| InventoryRoute.InventoryApi.Post | src/app/api/inventory/route.ts:28-65 | The reply is PostReply. The item is appended only on success. One audit entry by the session actor is appended only after a successful insert and a successful log write; a failed write leaves the 201 unchanged. |
| SystemLog.Actor | src/app/api/inventory/route.ts:29-30 | The actor is never empty: the session name when there is a non-empty one, "System" otherwise. |
| SystemLog.LogStore.CreateSystemLog | src/app/api/inventory/route.ts:16-26 | A successful write appends exactly one entry; a failed one is swallowed and leaves the log as it was. |
| SystemLog.CreatedText | src/app/api/inventory/route.ts:54-57 | The audit text starts with the route's prefix ("Item created: ", or "Customer created: " in the customer route), the subject follows it, and the id's digits stand right before the closing ")". |
| SystemLog.CreatedTextNamesId | src/app/api/inventory/route.ts:54-57 | The id can be read back as the decimal value of the digits before the closing parenthesis. |
| SystemLog.CreatedTextDistinguishesIds | src/app/api/customer/route.ts:46 | Two different ids give two different audit texts, even for the same subject. |
| ContactRules.IsValidEmailCorrect | src/components/customer/create.tsx:78 | The recognizer accepts a string iff it has the pattern's shape: local part, `@`, one or more labels each ending in `.`, then a 2 to 4 character tail. |
| ContactRules.MatchesDomainCorrect | src/components/customer/create.tsx:78 | The domain recognizer accepts exactly the `([\w-]+\.)+[\w-]{2,4}` shape. |
| ContactRules.ValidEmailHasOneAt | src/components/customer/create.tsx:78 | An accepted address contains exactly one `@`. |
| ContactRules.EmptyIsNotEmail | src/components/customer/create.tsx:78 | The empty string is not an address. |
| FormErrors.Record | src/components/customer/create.tsx:60-63 | One check of a validation block: a failed check records its message under its field, replacing any earlier one, and raises the flag; the flag stays exactly "the map is not empty". |
| CustomerForm.Set | src/components/customer/create.tsx:43-51 | Setting a field by input id changes that field and no other. |
| CustomerForm.CollectCustomerErrors | src/components/customer/create.tsx:58-87 | The map built step by step equals the per-field specification, and the flag is set iff the map is non-empty. |
| CustomerForm.ErrorsByField | src/components/customer/create.tsx:58-87 | A field has an entry iff its own rule fails, with that rule's message. Each field has at most one message. |
| CustomerForm.NoErrorsIff | src/components/customer/create.tsx:58-89 | No errors iff name and address are filled, the e-mail matches the pattern and the number is eleven digits. |
| CustomerForm.RequiredAndFormatExclusive | src/components/customer/create.tsx:58-87 | The required message appears iff the value is empty; the format message appears iff it is non-empty and malformed. |
| CustomerCreate.CreateCustomerDialog.constructor | src/components/customer/create.tsx:31-41 | The form starts empty with no errors and nothing created. |
| CustomerCreate.CreateCustomerDialog.HandleInputChange | src/components/customer/create.tsx:43-51 | Stores the value and hides only that field's message. |
| CustomerCreate.CreateCustomerDialog.HandleCreateCustomer | src/components/customer/create.tsx:53-117 | With errors, the map is shown and nothing is created. Without errors, the customer reaches `onCreate` once, the map is cleared and all four fields reset to `""`. |
| CustomerCreate.CreatedCustomersAreComplete | src/components/customer/create.tsx:89-107 | A created customer has name and address filled, an e-mail that matches the pattern and an eleven-digit number; the emptied form cannot be submitted. |
| CustomerEdit.EditCustomerDialog.constructor | src/components/customer/edit.tsx:29-32 | The copy equals the customer; the form is pristine, with no errors. |
| CustomerEdit.EditCustomerDialog.EditOpenChanged | src/components/customer/edit.tsx:34-41 | Opening restores the copy, sets pristine and clears errors, so Save is disabled; closing keeps the state. |
| CustomerEdit.EditCustomerDialog.HandleInputChange | src/components/customer/edit.tsx:43-51 | Updates one field, clears pristine and hides only that field's message; Save is enabled unless loading. |
| CustomerEdit.EditCustomerDialog.HandleEditCustomer | src/components/customer/edit.tsx:53-117 | With errors, the map is shown and no PATCH is sent. Without errors, exactly one PATCH of the copy goes to the original id. |
| CustomerEdit.SameRuleBothDialogs | src/components/customer/edit.tsx:53-91 | Create and edit accept exactly the same customers and flag the number in the same cases; only the message text differs. |
| CustomerRoute.PostReply | src/app/api/customer/route.ts:26-54 | 400 iff name, address or email is falsy. 201 iff they are present and the insert succeeds, returning the new row; otherwise 500. |
| CustomerRoute.NumberIsOptional | src/app/api/customer/route.ts:33-42 | The number never affects the status and is stored unchecked. |
| CustomerRoute.CustomerApi.Post | src/app/api/customer/route.ts:26-54 | The reply is PostReply. The row is appended only on success; a 400 writes nothing. The audit entry by the session actor comes only after the insert, and a failed write is swallowed. |
| SupplierForm.Set | src/components/supplier/create.tsx:44-52 | Setting a field by input id changes that field and no other. |
| SupplierForm.CollectSupplierErrors | src/components/supplier/create.tsx:54-88 | The map built step by step equals the per-field specification, and the flag is set iff the map is non-empty. |
| SupplierForm.ErrorsByField | src/components/supplier/create.tsx:61-83 | A field has an entry iff its own rule fails, with that rule's message. |
| SupplierForm.NoErrorsIff | src/components/supplier/create.tsx:61-85 | No errors iff name and address are filled, the e-mail matches the pattern, and the number is empty or eleven digits. |
| SupplierForm.ContactPersonUnchecked | src/components/supplier/create.tsx:61-83 | The contact person never gets a message and never affects the map. |
| SupplierCreate.CreateSupplierDialog.constructor | src/components/supplier/create.tsx:31-42 | The form starts empty with no errors and nothing created. |
| SupplierCreate.CreateSupplierDialog.HandleInputChange | src/components/supplier/create.tsx:44-52 | Stores the value and hides only that field's message. |
| SupplierCreate.CreateSupplierDialog.HandleCreateSupplier | src/components/supplier/create.tsx:54-110 | With errors, the map is shown and nothing is created. Without errors, the supplier reaches `onCreate` once and the five fields reset to `""`. |
| SupplierCreate.NumberMayBeLeftEmpty | src/components/supplier/create.tsx:80-94 | A supplier with no number passes the dialog; the emptied form does not. |
| SupplierEdit.EditSupplierDialog.constructor | src/components/supplier/edit.tsx:31-33 | The copy equals the supplier, with no errors and no PATCH sent. |
| SupplierEdit.EditSupplierDialog.EditOpenChanged | src/components/supplier/edit.tsx:35-40 | Opening restores the copy and clears errors; closing keeps both. |
| SupplierEdit.EditSupplierDialog.HandleInputChange | src/components/supplier/edit.tsx:42-49 | Updates only that field and hides only its message. |
| SupplierEdit.EditSupplierDialog.HandleEditSupplier | src/components/supplier/edit.tsx:51-113 | With errors, the map is shown, loading ends and no PATCH is sent. Without errors, exactly one PATCH of the copy goes to the original id. |
| SupplierRoute.PostReply | src/app/api/supplier/route.ts:13-36 | 400 iff name, address, email or number is falsy. 201 iff present and inserted, returning the row with the contact person as sent. |
| SupplierRoute.ContactPersonOptional | src/app/api/supplier/route.ts:17-19 | The contact person never changes the status of a POST. |
| SupplierRoute.FormAcceptsWhatPostRefuses | src/app/api/supplier/route.ts:17-19 | The create dialog accepts a supplier with no number, and the suppliers page (lines 40-47 of its `page.tsx`) posts it unchanged; POST answers 400 for it. |
| SupplierRoute.DeleteReply | src/app/api/supplier/route.ts:110-131 | A falsy id gives 400. No deleted row gives 404. Otherwise 200 with the deleted rows. |
| SupplierRoute.PresentExactlyTruthy | src/app/api/supplier/route.ts:64-84 | An assignment is kept iff it is a candidate with a truthy value. |
| SupplierRoute.PresentAppend | src/app/api/supplier/route.ts:64-84 | The kept assignments of two candidate lists in a row are those of the first followed by those of the second, so filtering keeps the candidates' order. |
| SupplierRoute.PresentInSourceOrder | src/app/api/supplier/route.ts:64-84 | The kept assignments of a request come in the order of its `if` blocks: name, contact person, address, email, number, each present iff its value is truthy. |
| SupplierRoute.ClauseAt | src/app/api/supplier/route.ts:60-84 | The k-th clause sets the k-th kept column to placeholder `$(start+k)`. |
| SupplierRoute.PushFields | src/app/api/supplier/route.ts:60-84 | After the five `if` blocks the clauses, parameters and running index are exactly those of the truthy fields, with the index one past the last placeholder. |
| SupplierRoute.PlaceholdersMatchParameters | src/app/api/supplier/route.ts:60-92 | Placeholders run from `$1` and each is bound to its column's value. The id is the last parameter, and there is one more parameter than clauses. |
| SupplierRoute.AsWrittenLacksCommas | src/app/api/supplier/route.ts:61-94 | The statement as written contains no comma, whatever the number of assignments. |
| SupplierRoute.AsWrittenRequestLacksCommas | src/app/api/supplier/route.ts:61-94 | The same for every request. |
| SupplierRoute.TwoFieldTexts | src/app/api/supplier/route.ts:61-94 | Two assignments are separated by a bare space as written, and by `, ` when corrected. |
| SupplierRoute.CorrectedSeparatesAssignments | src/app/api/supplier/route.ts:61-94 | The corrected statement has exactly one comma fewer than it has assignments. |
| SupplierRoute.CorrectedRequestSeparatesAssignments | src/app/api/supplier/route.ts:61-94 | The same for every request with at least one truthy field. |
| SupplierRoute.SingleFieldAgrees | src/app/api/supplier/route.ts:61-94 | With one assignment the as-written and corrected statements coincide. |
| SupplierRoute.Patch | src/app/api/supplier/route.ts:50-108 | A falsy id gives 400 and nothing is sent. No truthy field gives 400 "No fields to update". Otherwise the statement is sent with the present values and the id as parameters; no updated row gives 404, else 200 with the row. |
| CategoryForm.CategoryErrors | src/components/category/create.tsx:60-67 | The name has an entry iff it is empty, with "Please enter category name."; otherwise the map is empty. |
| CategoryForm.CollectCategoryErrors | src/components/category/edit.tsx:58-66 | The map built step by step is CategoryErrors, and the flag is set iff the name is empty. |
| CategoryCreate.CreateCategoryDialog.constructor | src/components/category/create.tsx:37-43 | The name starts empty with no errors and nothing created. |
| CategoryCreate.CreateCategoryDialog.HandleInputChange | src/components/category/create.tsx:45-52 | Stores the name and hides its message. |
| CategoryCreate.CreateCategoryDialog.HandleCreateCategory | src/components/category/create.tsx:54-88 | An empty name records the message and keeps the input. Otherwise errors are cleared, the entered name reaches `onCreate` once, and the name resets to `""`. Every created category has a name. |
| CategoryEdit.EditCategoryDialog.constructor | src/components/category/edit.tsx:29-32 | The copy equals the category; the form is pristine, with no errors. |
| CategoryEdit.EditCategoryDialog.EditOpenChanged | src/components/category/edit.tsx:34-40 | Opening restores the copy, sets pristine and clears errors, so Save is disabled (line 94). |
| CategoryEdit.EditCategoryDialog.HandleInputChange | src/components/category/edit.tsx:42-50 | Stores the name under the original id, clears pristine and hides the message. |
| CategoryEdit.EditCategoryDialog.HandleEditCategory | src/components/category/edit.tsx:52-92 | An empty name records the message and sends nothing. Otherwise one PATCH goes to the original category's id, and every PATCH has a non-empty name. |
| Middleware.Decide | src/app/middleware.tsx:5-19 | Redirect to `/login` iff the path is not `/login…`, `/auth…` or a static asset and there is no token. |
| Middleware.Gate | src/app/middleware.tsx:5-22 | Redirect iff the matcher selects the path, it is not public and there is no token. |
| Middleware.TokenAlwaysPasses | src/app/middleware.tsx:14-18 | With a token every request passes. |
| Middleware.PublicPathsPass | src/app/middleware.tsx:10-12 | Public paths pass whatever the token state. |
| Middleware.AssetSuffixMakesPublic | src/app/middleware.tsx:10 | Any path ending in one of the eight asset extensions is public. |
| Middleware.LoginPrefixIsPublic | src/app/middleware.tsx:10 | `/login` followed by anything is public. |
| Middleware.ApiPrefixIsUnmatched | src/app/middleware.tsx:22 | Every path starting `/api`, including `/apiary`, bypasses the middleware and passes without a token. |
| Middleware.FaviconDotIsWildcard | src/app/middleware.tsx:22 | The dot in `favicon.ico` matches any character, so `/faviconXico…` is skipped too. |
| Middleware.PagesAreGuarded | src/app/middleware.tsx:14-16 | `/orders` and any dot-free path below it redirect without a token. |

## Left out

- `fetch`, `alert`, `window.location.reload`, `console`, `onClose` and the `setTimeout` delays are left out. The outcome of a request, where it changes state, is a parameter (`responseOk`, `insertSucceeds`, `writeSucceeds`).
- The database is a sequence of rows per table. Generated ids, `NOW()` and the row counts are parameters. The SQL of the GET handlers is not modelled.
- The `next-auth` session and JWT are reduced to an optional user name and a "token found" flag.
- JavaScript `Number()`/`isNaN` on text and `new Date(text)` validity are parameters (`numericText`, `toNumber`, `validDate`). Floating-point prices and the currency and date formatting are not modelled. Amounts are integers.
- Order details fetching in the view dialog is modelled only by its result (`DetailsLoaded`). The error and loading handling of that fetch is not modelled.
- `src/components/inventory/edit.tsx` is not part of this model. It has no rule of its own.
- The supplier `PATCH` calls `request.json()` twice (src/app/api/supplier/route.ts:52-53). The second call rejects because the body has already been read, so as written every PATCH ends in the 500 `catch` before any query is built. The model starts from the already parsed id and fields, that is, from the handler with the double read fixed.
- The 500 replies of the `catch` blocks for unexpected exceptions are not modelled. Only an insert failure is.
- SupplierRoute.Patch: sends the corrected statement (see Findings). The as-written text is `AsWrittenQuery`.
- Middleware.Matched: models the matcher's negative lookahead as prefix tests on the text after the leading `/`. General regex semantics are not modelled.
- ContactRules.IsValidEmail: `\w` is taken as ASCII letters, digits and `_`, as JavaScript regexes without the `u` flag define it.

## Findings

| source | as written | input that shows it | evidently intended | confidence | as-written member | corrected member |
|---|---|---|---|---|---|---|
| src/app/api/supplier/route.ts:61-94 | `queryParts.join(' ')` puts only a space between the `SET` assignments. | Name and email both set: `UPDATE supplier SET supplier_name = $1 supplier_email = $2 WHERE supplier_id = $3 RETURNING *`, which is not valid SQL. The defect is latent: it shows only once the double `request.json()` at lines 52-53, which makes every PATCH fail first, is fixed. | The assignments are separated by commas, as in `src/app/api/supplier/[id]/route.ts:104-112`. | not executed | SupplierRoute.AsWrittenLacksCommas | SupplierRoute.CorrectedSeparatesAssignments |
