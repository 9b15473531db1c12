# Warehouse dashboard: store reducer, page filters and form logic in Dafny

This project models the logic core of a browser-based warehouse administration
dashboard written in React/TypeScript. Everything is pure functions over immutable
datatypes.

- **The global store** (`AppContext`). The state holds the logged-in user, the
  current page, the product list and the transaction log. Its reducer handles the
  eight actions:
  - `LOGIN`, `LOGOUT` and `SET_PAGE` change only the session.
  - `ADD_PRODUCT`, `UPDATE_PRODUCT` and `DELETE_PRODUCT` change the product list.
  - `ADD_TRANSACTION` adjusts the named product's stock, clamping at zero, and
    puts the entry at the head of the log.
  - `LOAD_INITIAL_DATA` installs the sample data.

  `getDashboardStats` derives four numbers from the state: the product count, the
  low-stock count, and today's 'in' and 'out' totals.
- **The role table** (`Types.RolePermissions`). It is the static map from ADMIN,
  STAFF and VIEWER to their permission flags.
- **The pages** (`Inventory`, `Warehouses`, `Products`, `Users`). They contribute
  the list filters, each form's initial state, its field-update handler and its
  submit validation.
- **The login page** (`Login`). It contributes the credential decision.

Supporting modules:
- `Util` covers the JavaScript semantics the code relies on:
  - truthiness of optional strings;
  - `String.prototype.includes`, proved equal to an offset-based definition;
  - `Array.prototype.filter`, proved to return an order-preserving subsequence
    that keeps exactly the matching elements with their multiplicity;
  - summation.
- `JsNumber` covers `Number(value)` on integer texts and the decimal text an
  input shows for a number. Reading back the shown text gives the number again.

Modelling conventions:
- A `Date` is the local calendar day it falls on, as an integer. "Today", "now"
  and the day the store module was loaded are parameters.
- `LOAD_INITIAL_DATA` carries that load day, because the sample transactions are
  stamped with `new Date()` when the module is evaluated.
- Generated identifiers (`Date.now().toString()`) are parameters.

The model follows the code where a stricter policy would differ:
- An oversized 'out' is clamped to zero stock, not rejected.
- An entry for an unknown product is still logged and changes no product.
- Deleting a product does not touch the log.
- A TRANSFER whose source and destination are the same warehouse passes the form.

Two behaviours of the code as written are stated in contracts and lemmas:
- **Absent names in the user search.** The user search renders an absent first or
  last name as the text `undefined`, so the term "undefined" finds such users
  (`Users.AbsentFirstNameMatchesUndefined`).
- **Login with a missing callback.** `App.tsx` renders the login page without an
  `onLogin` callback (src/App.tsx:14). The call therefore throws, and the page's
  `catch` shows its generic failure message. `Login.HandleLogin` covers this with
  `callbackThrows = true`.

## Model

| member | source | states |
|---|---|---|
| Types.RolePermissions | src/types/index.ts:67-92 | every role may view dashboard, products, transactions, inventory and reports; user-management rights, product delete, transaction edit, inventory update and report export belong to ADMIN alone; product create/edit and transaction create are denied exactly to VIEWER |
| Types.AdminHoldsEverything | src/types/index.ts:68-75 | ADMIN holds every one of the sixteen permission flags |
| Types.ViewerOnlyViews | src/types/index.ts:84-91 | VIEWER has no create, edit, delete, update or export right anywhere |
| Types.PermissionsMonotone | src/types/index.ts:67-92 | a role of higher seniority (VIEWER < STAFF < ADMIN) holds every flag a lower one holds |
| AppContext.Reduce | src/contexts/AppContext.tsx:88-136 | LOGIN sets the user and the dashboard page, LOGOUT clears the user and returns to the login page, SET_PAGE only moves the page; product and ledger actions never touch the session; only ADD_TRANSACTION and LOAD_INITIAL_DATA touch the log; ADD_PRODUCT appends the payload at the end; DELETE_PRODUCT keeps exactly the products with another id; ADD_TRANSACTION puts the entry first and grows the log by one; the sample data has three products of non-negative stock and two entries |
| AppContext.StockAfter | src/contexts/AppContext.tsx:112-117 | stock after one entry is never negative; an 'in' adds its quantity and an 'out' subtracts it when that stays non-negative, and an oversized 'out' yields 0 instead of failing |
| AppContext.ReplaceById | src/contexts/AppContext.tsx:98-104 | the update map keeps the length and puts the payload exactly at the positions whose id matches, leaving the others as they were |
| AppContext.ApplyEntry | src/contexts/AppContext.tsx:112-120 | the stock adjustment keeps the length, changes only `currentStock`, only on products whose id is the entry's `productId`, and sets it to the clamped new stock |
| AppContext.UpdateProductReplacesInPlace | src/contexts/AppContext.tsx:98-104 | UPDATE_PRODUCT keeps length, order and ids, replaces every product with the payload's id, is a no-op when that id is absent, and leaves the log alone |
| AppContext.DeleteProductRemovesExactly | src/contexts/AppContext.tsx:105-109 | DELETE_PRODUCT leaves an order-preserving subsequence with no product of that id, keeps every other product with its multiplicity, and leaves the transaction log unchanged (no cascade) |
| AppContext.AddTransactionTouchesOnlyStock | src/contexts/AppContext.tsx:110-120 | ADD_TRANSACTION keeps the product count and order, changes nothing but `currentStock`, changes nothing on products with another id, and leaves matched stock non-negative |
| AppContext.UnknownProductStillLogged | src/contexts/AppContext.tsx:110-126 | an entry whose `productId` matches no product leaves the product list identical and is still put at the head of the log |
| AppContext.InEntriesAddUp | src/contexts/AppContext.tsx:112-117 | a run of non-negative 'in' entries for one product raises its stock by exactly the sum of their quantities |
| AppContext.ReducePreservesNonNegativeStock | src/contexts/AppContext.tsx:88-136 | if every stock is non-negative, any action whose own product payload has non-negative stock keeps every stock non-negative |
| AppContext.DispatchPreservesNonNegativeStock | src/contexts/AppContext.tsx:88-136 | stocks stay non-negative along any run of such actions, however large each 'out' is |
| AppContext.LogIsNewestFirst | src/contexts/AppContext.tsx:122-126 | after a run of ADD_TRANSACTION actions the log is those entries newest first, followed by the earlier log; it grows by the run's length |
| AppContext.DashboardStatsOf | src/contexts/AppContext.tsx:147-173 | `totalProducts` is the product count; `lowStockProducts` lies between 0 and `totalProducts` and is 0 exactly when no product is at or below its minimum; `todayIn`/`todayOut` equal the one-pass sum of quantities of today's 'in'/'out' entries |
| AppContext.FilteredSumIsQuantityOn | src/contexts/AppContext.tsx:151-163 | filtering the log by day, then by type, then summing quantities equals the single-pass total of matching entries |
| AppContext.NoneLowIffEmpty | src/contexts/AppContext.tsx:165 | the low-stock count is zero exactly when no product has `currentStock <= minStock` |
| AppContext.DashboardAfterAddTransaction | src/contexts/AppContext.tsx:110-163 | recording an entry leaves the product count alone and raises exactly the matching today-total by its quantity when it is dated today, and neither otherwise |
| AppContext.DashboardAfterAddProduct | src/contexts/AppContext.tsx:96-97 | adding a product raises the product count by one and the low-stock count by one exactly when the new product is low, leaving the day totals alone |
| AppContext.DeleteShortensIffPresent | src/contexts/AppContext.tsx:105-109 | deleting by id shortens the product list exactly when some product carries that id |
| AppContext.DeleteKeepsLowStockBound | src/contexts/AppContext.tsx:105-109 | deleting never increases the number of low-stock products |
| AppContext.DashboardAfterDeleteProduct | src/contexts/AppContext.tsx:105-109 | after DELETE_PRODUCT the low-stock count does not rise, the product count falls exactly when the id was present, and the day totals stay |
| AppContext.SessionActionsKeepStats | src/contexts/AppContext.tsx:90-95 | LOGIN, LOGOUT and SET_PAGE leave every dashboard statistic unchanged |
| JsNumber.Number | src/pages/ProductManagementPage.tsx:309 | `Number` of an integer text: the empty text gives 0, unsigned digits a non-negative number, a leading minus a non-positive one |
| JsNumber.NumberOfShow | src/pages/WarehouseManagementPage.tsx:394 | converting the decimal text shown for any integer back with `Number` yields that integer |
| Inventory.FilterTransactions | src/pages/InventoryManagementPage.tsx:94-103 | the result is an order-preserving subsequence; with a type chosen every row has that type; with a term every row matches it in product name, supplier or customer (absent fields never match); every row meeting both conditions is kept, each copy of it; with neither set the whole list comes back |
| Inventory.NewDraft | src/pages/InventoryManagementPage.tsx:380-384 | a new form carries its kind, quantity 0 and the opening day, and no product, identifier or text field yet |
| Inventory.Change | src/pages/InventoryManagementPage.tsx:386-392 | the quantity input stores `Number(value)`; any other input stores its text; no other field changes |
| Inventory.FindName | src/pages/InventoryManagementPage.tsx:432 | a name is found exactly when some product has the id, and it is the name of the first such product |
| Inventory.SelectProduct | src/pages/InventoryManagementPage.tsx:431-437 | choosing a product sets `productId` and snapshots that product's name, absent exactly when no product has the id; nothing else changes |
| Inventory.Submit | src/pages/InventoryManagementPage.tsx:394-421 | an IN form is rejected iff the supplier is empty or absent; an OUT form iff both customer and department are; a TRANSFER form iff either warehouse id is; a WAREHOUSE form never; each rejection names its alert; an accepted record equals the form except for the new id and date |
| Inventory.SameWarehouseTransferAccepted | src/pages/InventoryManagementPage.tsx:408-411 | a transfer whose source and destination are the same non-empty warehouse is accepted |
| Inventory.FreshFormRejected | src/pages/InventoryManagementPage.tsx:394-411 | a freshly opened IN, OUT or TRANSFER form is rejected |
| Inventory.SupplierMakesInAcceptable | src/pages/InventoryManagementPage.tsx:398-401 | typing a non-empty supplier makes an IN form acceptable |
| Warehouses.FilterWarehouses | src/pages/WarehouseManagementPage.tsx:114-119 | the result is an order-preserving subsequence holding exactly the warehouses whose name or location contains the term, each matching one with all its copies; an empty term keeps all |
| Warehouses.InitialForm | src/pages/WarehouseManagementPage.tsx:360-373 | a new form has capacity 0, occupancy 0, status ACTIVE, no products, empty texts and manager, dated today; an edit form copies the warehouse, with an empty manager and today's date standing in for absent ones |
| Warehouses.Change | src/pages/WarehouseManagementPage.tsx:375-396 | a manager input changes only that manager sub-field; capacity and occupancy store `Number(value)`; name, location and status store their value; every other field stays |
| Warehouses.RetypingShownNumberKeepsIt | src/pages/WarehouseManagementPage.tsx:375-396 | entering the text shown for a number into the capacity or occupancy input stores that same number |
| Warehouses.Submit | src/pages/WarehouseManagementPage.tsx:398-414 | a form is accepted iff name and location are non-empty and occupancy does not exceed capacity (equal passes); the name/location alert wins when both checks fail; every accepted warehouse is well-formed and is the form's content |
| Warehouses.UntouchedEditRoundTrips | src/pages/WarehouseManagementPage.tsx:360-414 | saving an unchanged edit form of a well-formed warehouse with manager and inventory date hands back that very warehouse |
| Warehouses.BlankFormRejected | src/pages/WarehouseManagementPage.tsx:360-405 | a blank form is rejected with the name/location alert |
| Products.FilterProducts | src/pages/ProductManagementPage.tsx:75-84 | the result is an order-preserving subsequence; with a category every card has it; with a term every card matches it in name, code or category; every product meeting both is kept, each copy of it; with neither set all products come back in order |
| Products.Badge | src/pages/ProductManagementPage.tsx:196-199 | the shortage badge shows iff `currentStock <= minStock` |
| Products.ShortageBadgesAreLowStock | src/pages/ProductManagementPage.tsx:196-199 | from any list of products, the cards showing the shortage badge are exactly the products the store counts as low on stock, in the same order |
| Products.InitialForm | src/pages/ProductManagementPage.tsx:289-303 | a new form has stock, minimum and price 0 and empty texts; an edit form copies the product, with "" and 0 standing in for absent description, price and barcode |
| Products.Change | src/pages/ProductManagementPage.tsx:305-311 | stock, minimum and price store `Number(value)`, the other inputs their text, and no other field changes |
| Products.RetypingShownNumberKeepsIt | src/pages/ProductManagementPage.tsx:305-311 | entering the text shown for a number into a numeric input stores that same number |
| Products.Submit | src/pages/ProductManagementPage.tsx:313-316 | the form is handed on unchecked, every field carried over and description, price and barcode made present |
| Products.UntouchedEditRoundTrips | src/pages/ProductManagementPage.tsx:289-316 | saving an unchanged edit form hands back the product when its optional texts and price are present |
| Users.FilterUsers | src/pages/UserManagementPage.tsx:55-64 | the result is an order-preserving subsequence; with a role every row has it; with a term every row matches it in username, email or "first last"; every user meeting both is kept, each copy of it; with neither set all users come back |
| Users.AbsentFirstNameMatchesUndefined | src/pages/UserManagementPage.tsx:61 | a user without a first name is found by the term "undefined" |
| Users.InitialForm | src/pages/UserManagementPage.tsx:237-245 | a new form has role VIEWER and is active; an edit form keeps the user's activity, false included, and uses "" for absent names |
| Users.Change | src/pages/UserManagementPage.tsx:247-253 | the named input's value goes into that field (the role select into the role) and nothing else changes |
| Users.SelectActive | src/pages/UserManagementPage.tsx:330 | the status select makes the user active iff the chosen text is "true", changing nothing else |
| Users.ChoosingShownStatusKeepsForm | src/pages/UserManagementPage.tsx:327-330 | choosing the option the select currently shows leaves the form unchanged |
| Users.Submit | src/pages/UserManagementPage.tsx:255-258 | the form is handed on unchecked with its fields, present names and no last login |
| Users.UntouchedEditRoundTrips | src/pages/UserManagementPage.tsx:237-258 | saving an unchanged edit form hands back a user with both names and no last login |
| Login.HandleLogin | src/pages/LoginPage.tsx:12-35 | an empty username or password gives the missing-fields error; the credentials are handed on iff they are exactly admin/123456 and the callback does not throw; any other non-empty pair gives the invalid-credentials error; a successful attempt shows no error; a throwing callback gives the generic failure |
| Login.PreviousErrorIrrelevant | src/pages/LoginPage.tsx:14 | the error left by an earlier attempt has no influence on the next attempt's outcome |
| Login.RetryAfterFailureSucceeds | src/pages/LoginPage.tsx:14-31 | after a failed attempt, the right credentials log in and the old error is gone |

## Left out

- Rendering, hooks, context plumbing, modals, icons, styling, `Header.tsx`, `Sidebar.tsx`, `App.tsx` routing and the placeholder pages: presentation with no logic to state.
- The `default` branch of the reducer: the action type is a closed datatype here, so no other action exists.
- Local-timezone truncation with `setHours`: dates are already calendar days.
- Floating-point display arithmetic: occupancy bar widths, colour bands, currency and date formatting.
- The `FileReader` image upload, `window.confirm`/`console.log` delete and submit stubs, and the login's `setTimeout` delay: side effects with no state change in the modelled code.
- The hard-coded warehouse reports: they are constants, not derived from warehouses.
- Pagination, sorting, insufficient-stock rejection and moving stock between warehouses on TRANSFER: the code does not implement them.
- HTML constraint validation (`required`, `min`) that the browser may apply before `handleSubmit` runs: the model states what the handlers themselves do.
- JavaScript `number` values in the store and the forms (stock levels, quantities, prices, capacities, and the stock arithmetic at src/contexts/AppContext.tsx:114-117) are unbounded integers here: fractional quantities and double-precision rounding above 2^53 are not modelled.
- The product page's cards come from a sample list of its own, not from the store's products (src/pages/ProductManagementPage.tsx:35-84, 160). The filter and the badge are modelled over any list, and no count of cards is tied to the dashboard.
- Inputs not wired to the handlers (for example a product barcode or a transaction type): they cannot change through the forms.
- JsNumber.Number: only integer texts are converted; decimals, exponents, surrounding whitespace and `NaN` are not modelled.
- Inventory.Change: the quantity input is limited to integer texts, so a `NaN` quantity is not modelled.
- Warehouses.Change: capacity and occupancy are limited to integer texts, so the `NaN` case, which slips past the occupancy check, is not modelled; the status input is limited to the select's three options.
- Products.Change: stock, minimum and price are limited to integer texts, for the same reason.
- Users.Change: the role input is limited to the select's three options.
