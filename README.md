# PymePulse core, modelled in Dafny

PymePulse is a point-of-sale and inventory application for small businesses.
Each organization has users with a role: OWNER, ADMIN, STAFF or VIEWER.
It keeps a product catalog and records sales, stock movements and expenses.
It also raises alerts: LOW_STOCK after a sale, and CASH_RISK when the seven-day
forecast of expenses is above the forecast of sales.

This project models the server-side business rules of the route handlers as
methods over an in-memory store. It also models the pure decision and list logic
of the client screens. The modules are:

- `Domain`: the entities (organization, user, product, sale, sale item,
  inventory movement, alert, expense), the session, the failure kinds with their
  HTTP statuses, and the `Response` datatype.
- `Store`: a class holding one sequence per table, with the invariants every
  handler keeps (`Valid`) and the membership rules (`OwnersValid`).
- `Text`, `Seqs`: trimming, ASCII lower-casing and substring search; filter,
  take, stable descending sort and sum over sequences, with their lemmas.
- `Permissions`, `Middleware`, `Navbar`: the role predicates, the routing
  decision and the navigation bar.
- `SalesApi`, `InventoryMoveApi`, `CashRiskApi`, `AlertsApi`, `ProductsApi`,
  `ExpensesApi`, `UsersApi`, `RegisterApi`: one module per route handler.
  Each handler is a method that `modifies` the store. It returns `Ok(status, body)`
  or `Err(failure)`. Its contract covers four things:
  - the refusal it answers with, in the order the handler checks;
  - that a refusal writes nothing;
  - every table's new value on success;
  - that the store invariants are preserved.
- `PosCart`, `ProductsClient`, `Dashboard`, `AlertsClient`: the cart algebra and
  scanner of the POS screen, catalog search and pagination, the dashboard
  figures, and the alert tabs with the local close.

Conventions:

- Ids are natural numbers equal to the row's position in its table.
- Money (prices, totals, amounts) is an integer number of minor units.
- Quantities that the request schemas coerce from JSON numbers are `real`, so
  that the "must be an integer" checks can be stated.
- Timestamps are integers. The current time and the start of the 30-day window
  are inputs.
- The session is `Option<Session>`; `None` is an anonymous request (401).

## Model

| member | source | states |
|---|---|---|
| Permissions.CanManageCatalog | lib/permissions.ts:3-5 | OWNER or ADMIN; Permissions.ManageCatalogRoles states it per role |
| Permissions.CanSell | lib/permissions.ts:7-9 | OWNER, ADMIN or STAFF; Permissions.SellAndMoveAgree states it per role |
| Permissions.CanMoveInventory | lib/permissions.ts:11-13 | OWNER, ADMIN or STAFF; Permissions.SellAndMoveAgree states it per role |
| Permissions.CanView | lib/permissions.ts:15-17 | every role; Permissions.EveryoneViews |
| Permissions.CanCloseAlerts | lib/permissions.ts:19-21 | OWNER or ADMIN; Permissions.CloseAlertsIsManageCatalog |
| Permissions.ManageCatalogRoles | lib/permissions.ts:3-5 | catalog management is granted exactly to OWNER and ADMIN |
| Permissions.SellAndMoveAgree | lib/permissions.ts:7-13 | selling is granted exactly to OWNER, ADMIN and STAFF, and moving stock to the same roles |
| Permissions.EveryoneViews | lib/permissions.ts:15-17 | every role may view |
| Permissions.CloseAlertsIsManageCatalog | lib/permissions.ts:3-5 | closing alerts is granted to the same roles as catalog management (definition at lib/permissions.ts:19-21) |
| Permissions.PermissionsNested | lib/permissions.ts:3-21 | managing implies selling, selling implies viewing, and a role is VIEWER iff it may neither sell, move stock nor close alerts |
| Middleware.Route | middleware.ts:5-38 | a request passes iff its path is static, under /api/auth, exactly one of "/", "/login", "/register", or it carries a token; otherwise it is redirected to /login with the original path as `from` |
| Middleware.PublicPathsAreExact | middleware.ts:5-27 | public paths are matched exactly: "/login" passes without a token, "/login/x" and "/registerx" are redirected |
| Middleware.AuthApiBypasses | middleware.ts:20-22 | every path that starts with /api/auth passes, with or without a token |
| Navbar.VisibleLinks | app/components/Navbar.tsx:32-43 | Dashboard and Alerts always show; Products, Sales and Expenses show iff the role may operate; Users shows iff it may manage users |
| Navbar.ManageUsersImpliesOperate | app/components/Navbar.tsx:21-22 | managing users is exactly ADMIN or OWNER, operating exactly ADMIN, OWNER or STAFF, and the first implies the second |
| Navbar.NoRoleNoPermission | app/components/Navbar.tsx:19-22 | a session without a role gets neither permission and sees only Dashboard and Alerts |
| Navbar.ActiveNeedsSeparator | app/components/Navbar.tsx:9 | "/sales" is active on "/sales" and "/sales/new" but not on "/salesX" |
| Navbar.ActiveMeansUnder | app/components/Navbar.tsx:9 | a link is active iff the path equals its href or continues it with "/" |
| SalesApi.MayCreateSaleIsCanSell | app/api/sales/route.ts:33-35 | the sale handler's role check is the selling permission, which refuses exactly VIEWER |
| SalesApi.ToLines | app/api/sales/route.ts:9-20 | the accepted items become lines with the same product, price and a positive integer quantity |
| SalesApi.LineProblem | app/api/sales/route.ts:49-62 | a line passes iff its product is an active product of the caller's organization and the quantity does not exceed its stock |
| SalesApi.CheckLines | app/api/sales/route.ts:49-62 | no problem is reported iff every line passes; a problem is "invalid product" or "insufficient stock" |
| SalesApi.CheckLinesFirstProblem | app/api/sales/route.ts:49-62 | the reported problem is the one of the first failing line |
| SalesApi.CheckItems | app/api/sales/route.ts:49-62 | the loop over the items finds the same problem as CheckLines |
| SalesApi.Refusal | app/api/sales/route.ts:22-62 | no session gives 401, a role that may not sell gives 403, an invalid body gives 400, and no refusal iff the body is valid and every line passes |
| SalesApi.ItemsFor | app/api/sales/route.ts:69-85 | one sale item per line, in order, each with line total = quantity × client-supplied unit price |
| SalesApi.SaleTotal | app/api/sales/route.ts:65 | the reduce of quantity × unit price over the lines |
| SalesApi.SaleTotalIsSumOfItems | app/api/sales/route.ts:65 | the sale total (the reduce over the lines) equals the sum of its items' line totals |
| SalesApi.OutMovements | app/api/sales/route.ts:87-100 | exactly one OUT movement per line, with the line's product and quantity and the sale as reason |
| SalesApi.LastQuantity | app/api/sales/route.ts:102-107 | the quantity of the last line of a product, absent iff no line names it |
| SalesApi.WriteStocks | app/api/sales/route.ts:102-107 | the products after one stock write per line, each from the snapshot; the result has as many products as before |
| SalesApi.WriteStocksAt | app/api/sales/route.ts:102-107 | after the stock writes a product's stock is its snapshot stock minus the quantity of its last line, or unchanged if no line names it |
| SalesApi.WriteStocksNonNegative | app/api/sales/route.ts:59-107 | every stock written is non-negative, even when a product is repeated |
| SalesApi.WriteStocksKeepsOtherFields | app/api/sales/route.ts:104-107 | the stock writes change only `stockCurrent` |
| SalesApi.DistinctSaleConservesStock | app/api/sales/route.ts:59-107 | with distinct products each sold stock drops by exactly its quantity and unsold products are unchanged |
| SalesApi.RepeatedProductLastLineWins | app/api/sales/route.ts:102 | two lines of 3 and 4 units of a product with stock 10 leave 6, not 3: each write uses the pre-read snapshot |
| SalesApi.LowStockAlerts | app/api/sales/route.ts:110-119 | the new alerts are OPEN, MEDIA, LOW_STOCK alerts of the organization, at most one per line, with consecutive ids |
| SalesApi.LowStockAlertCount | app/api/sales/route.ts:110-119 | one alert is appended for each line whose new stock is at or below the product's minimum |
| SalesApi.ApplyLine | app/api/sales/route.ts:87-120 | one loop step: appends the OUT movement, overwrites the product's stock from the snapshot, appends a LOW_STOCK alert iff the stock is low, and changes nothing else |
| SalesApi.LinesStep | app/api/sales/route.ts:87-120 | one more line adds exactly its OUT movement, its stock write and, when low, its alert numbered after the earlier ones |
| SalesApi.ApplyLines | app/api/sales/route.ts:87-120 | the loop appends the OUT movements, applies the stock writes from the snapshot and appends the LOW_STOCK alerts, and changes no other table |
| SalesApi.WriteStocksKeepsIds | app/api/sales/route.ts:104-107 | the stock writes keep product ids equal to positions |
| SalesApi.AppendedAlertsKeepIds | app/api/sales/route.ts:110-119 | the appended alerts continue the table's numbering |
| SalesApi.CommitSale | app/api/sales/route.ts:67-122 | the transaction appends the sale, its items, the movements, the stock writes and the alerts, keeping the store valid |
| SalesApi.PostSale | app/api/sales/route.ts:22-125 | a refusal answers with its failure and writes nothing; otherwise 201 with the new sale id and every table's new value as above |
| InventoryMoveApi.ParseMoveType | app/api/inventory/move/route.ts:8-13 | the type is accepted iff it is exactly "IN", "OUT" or "ADJUST" |
| InventoryMoveApi.NextStock | app/api/inventory/move/route.ts:44-47 | the stock an IN, OUT or ADJUST of the quantity leaves; properties in InventoryMoveApi.MoveTypeSemantics |
| InventoryMoveApi.MoveTypeSemantics | app/api/inventory/move/route.ts:44-47 | ADJUST sets the quantity, OUT goes negative iff it exceeds the stock, IN raises the stock |
| InventoryMoveApi.InThenOutRestores | app/api/inventory/move/route.ts:44-47 | an IN followed by an OUT of the same quantity restores the stock |
| InventoryMoveApi.ActiveFlagIgnored | app/api/inventory/move/route.ts:36-38 | whether a product is found does not depend on its active flag |
| InventoryMoveApi.MoveRefusal | app/api/inventory/move/route.ts:15-51 | no session gives 401; a role that may not move stock gives 403; a bad type or a quantity ≤ 0 gives 400; no refusal iff the caller may move stock, the type and quantity are valid, the product is the organization's, the quantity is whole and the result is non-negative |
| InventoryMoveApi.MoveRefusalOrder | app/api/inventory/move/route.ts:36-51 | for a well-formed request, an unknown product gives 404 and an OUT beyond the stock gives "Stock negativo" |
| InventoryMoveApi.AcceptedMoveKeepsStockValid | app/api/inventory/move/route.ts:44-51 | an accepted move yields a non-negative whole stock |
| InventoryMoveApi.PostMove | app/api/inventory/move/route.ts:15-69 | a refusal writes nothing; otherwise one movement with the request's type, quantity and reason is appended, only that product's stock changes, and no alert is written |
| CashRiskApi.SalesSum30 | app/api/alerts/recalculate/route.ts:20-31 | the total of the organization's sales dated in the 30-day window |
| CashRiskApi.ExpensesSum30 | app/api/alerts/recalculate/route.ts:25-32 | the total of the organization's expenses dated in the 30-day window |
| CashRiskApi.Forecast7 | app/api/alerts/recalculate/route.ts:34-38 | seven days at the 30-day average rate, as an exact real |
| CashRiskApi.Risk | app/api/alerts/recalculate/route.ts:40 | the sales forecast is below the expense forecast; CashRiskApi.RiskIffSalesBelowExpenses states it on the sums |
| CashRiskApi.RiskIffSalesBelowExpenses | app/api/alerts/recalculate/route.ts:34-40 | the forecast comparison holds iff the 30-day sales sum is below the 30-day expense sum |
| CashRiskApi.RiskScenario | app/api/alerts/recalculate/route.ts:34-40 | sums of 300000 and 420000 forecast 70000 and 98000 and raise the risk |
| CashRiskApi.FirstOpenCashRisk | app/api/alerts/recalculate/route.ts:44-46 | the lowest-id OPEN CASH_RISK alert of the organization, absent iff there is none |
| CashRiskApi.CloseAllCashRisk | app/api/alerts/recalculate/route.ts:68-73 | every open CASH_RISK alert of the organization becomes CLOSED and every other alert is unchanged |
| CashRiskApi.RiskWithoutOpenAppends | app/api/alerts/recalculate/route.ts:57-66 | with risk and nothing open, exactly one OPEN, HIGH CASH_RISK alert is appended |
| CashRiskApi.RiskWithOpenRefreshes | app/api/alerts/recalculate/route.ts:44-56 | with risk and an open one, nothing is appended; the first open alert gets the new message and HIGH and stays OPEN |
| CashRiskApi.NoRiskClosesAll | app/api/alerts/recalculate/route.ts:68-73 | without risk no open CASH_RISK alert of the organization remains, and all other alerts are unchanged |
| CashRiskApi.Recalc | app/api/alerts/recalculate/route.ts:43-73 | the alerts after the recompute; its cases are stated by CashRiskApi.RiskWithoutOpenAppends, CashRiskApi.RiskWithOpenRefreshes and CashRiskApi.NoRiskClosesAll |
| CashRiskApi.RecalcIdempotent | app/api/alerts/recalculate/route.ts:43-73 | a second run on unchanged sums leaves the alerts as the first run left them |
| CashRiskApi.FirstOpenUnchanged | app/api/alerts/recalculate/route.ts:44-46 | the first open alert is the one preceded by no open alert |
| CashRiskApi.RecalcKeepsIds | app/api/alerts/recalculate/route.ts:43-73 | the recompute keeps alert ids equal to their positions |
| CashRiskApi.CloseAllOpenCashRisk | app/api/alerts/recalculate/route.ts:68-73 | the loop closes exactly what CloseAllCashRisk closes and changes no other table |
| CashRiskApi.Recalculate | app/api/alerts/recalculate/route.ts:12-76 | no session gives 401 and no change; otherwise the org's 30-day sums decide the risk, which is returned, and the alerts become the recompute's result |
| AlertsApi.OrgAlerts | app/api/alerts/route.ts:13-16 | the organization's alerts, newest first; properties in AlertsApi.OrgAlertsSpec |
| AlertsApi.OrgAlertsSpec | app/api/alerts/route.ts:13-16 | the listing holds exactly the organization's alerts, as often as stored, newest first |
| AlertsApi.GetAlerts | app/api/alerts/route.ts:7-19 | 401 without a session; otherwise the organization's listing |
| AlertsApi.CloseById | app/api/alerts/route.ts:32-35 | the alert with the id becomes CLOSED and every other alert is unchanged |
| AlertsApi.CloseIdempotent | app/api/alerts/route.ts:32-35 | closing twice is closing once, and closing a CLOSED alert changes nothing |
| AlertsApi.CloseKeepsIds | app/api/alerts/route.ts:32-35 | closing keeps ids equal to positions and changes only the status |
| AlertsApi.PatchAlert | app/api/alerts/route.ts:21-38 | 401, 403 for a role that may not close alerts, 500 for an unknown id, all without change; otherwise the alert is closed whatever its organization and status |
| ProductsApi.ActiveOrgProducts | app/api/products/route.ts:21-24 | the organization's active products, newest first; properties in ProductsApi.ActiveOrgProductsSpec |
| ProductsApi.ActiveOrgProductsSpec | app/api/products/route.ts:21-24 | the listing holds exactly the organization's active products, newest first |
| ProductsApi.GetProducts | app/api/products/route.ts:15-27 | 401 without a session; otherwise the organization's active products |
| ProductsApi.NewProduct | app/api/products/route.ts:49-58 | the created product belongs to the caller's organization, starts with stock 0 and no SKU, and is active; prices and minimum are as sent, non-negative |
| ProductsApi.DefaultsAreZero | app/api/products/route.ts:8-13 | omitted prices and minimum default to 0 |
| ProductsApi.ProductRefusal | app/api/products/route.ts:29-45 | 401 iff no session, 403 iff a role that may not manage the catalog; accepted iff the role may manage it and the body is valid |
| ProductsApi.CreatedProductIsListed | app/api/products/route.ts:21-58 | a created product appears in its organization's listing |
| ProductsApi.PostProduct | app/api/products/route.ts:29-61 | a refusal writes nothing; otherwise exactly one product is appended, 201, and nothing else changes |
| ExpensesApi.RecentOrgExpenses | app/api/expenses/route.ts:20-28 | the first 100 of the organization's expenses, latest date first; properties in ExpensesApi.RecentOrgExpensesSpec |
| ExpensesApi.RecentOrgExpensesSpec | app/api/expenses/route.ts:20-28 | the organization's 100 latest expenses: exactly min(100, #org expenses) of them, each at most as often as stored, all of the organization, latest date first; none left out is later than one shown; all of them when there are at most 100 |
| ExpensesApi.RecentOrgExpensesShape | app/api/expenses/route.ts:20-28 | the page is a latest-first prefix of the organization's listing: sorted, from the organization, nothing later left out |
| ExpensesApi.RecentOrgExpensesCount | app/api/expenses/route.ts:20-28 | the page holds min(100, #org expenses) expenses, none more often than stored |
| ExpensesApi.GetExpenses | app/api/expenses/route.ts:14-31 | 401 without a session; otherwise the recent expenses of the organization |
| ExpensesApi.NormalizeDescription | app/api/expenses/route.ts:57 | the description is stored trimmed, and as null when absent or blank |
| ExpensesApi.NormalizeDescriptionIdempotent | app/api/expenses/route.ts:57 | normalizing a stored description changes nothing |
| ExpensesApi.ExpenseTimestamp | app/api/expenses/route.ts:58 | an absent or empty date is the current time; any other is the parsed date |
| ExpensesApi.ExpenseRefusal | app/api/expenses/route.ts:33-48 | 401 iff no session; a missing category or an amount ≤ 0 gives 400; accepted iff the body is valid and the date parses |
| ExpensesApi.ExpenseRefusalIgnoresRole | app/api/expenses/route.ts:33-38 | the outcome does not depend on the caller's role |
| ExpensesApi.NewExpense | app/api/expenses/route.ts:52-61 | the expense belongs to the caller's organization and user, with a positive amount and the normalized description |
| ExpensesApi.PostExpense | app/api/expenses/route.ts:33-64 | a refusal writes nothing; otherwise exactly one expense is appended, 201, and nothing else changes |
| UsersApi.OrgUsers | app/api/users/route.ts:28-39 | the organization's users, newest first; properties in UsersApi.OrgUsersSpec |
| UsersApi.OrgUsersSpec | app/api/users/route.ts:28-39 | the listing holds exactly the organization's users, each as often as stored, newest first |
| UsersApi.GetUsers | app/api/users/route.ts:17-42 | 401 without a session, 403 unless OWNER or ADMIN, otherwise the organization's users |
| UsersApi.NormalizeEmail | app/api/users/route.ts:62 | the stored email is the trimmed input with every character lower-cased: same length, character by character, so it is lower-case and has no surrounding whitespace |
| UsersApi.NormalizeEmailIdempotent | app/api/users/route.ts:62 | normalizing a normalized email changes nothing |
| UsersApi.ParseRole | app/api/users/route.ts:10-15 | a role is accepted iff it is exactly one of the four role names |
| UsersApi.UserRefusal | app/api/users/route.ts:44-77 | 401 iff no session, 403 iff not OWNER or ADMIN; accepted iff the body is valid, the email is unused in every organization, and an OWNER is created only when the organization has no active OWNER |
| UsersApi.NewUser | app/api/users/route.ts:81-91 | the new user is active, in the caller's organization, with the trimmed name, the normalized email and the requested role |
| UsersApi.BlankNameStoredEmpty | app/api/users/route.ts:10-15 | a name of one space passes the length check and is stored empty |
| UsersApi.AddKeepsEmailsUnique | app/api/users/route.ts:64-67 | adding a user with an unused email keeps emails unique |
| UsersApi.AddKeepsOneActiveOwner | app/api/users/route.ts:70-77 | adding a user keeps at most one active OWNER per organization when the owner check passed |
| UsersApi.AppendUser | app/api/users/route.ts:81-91 | appends the user, keeps the store valid and the membership rules, and changes nothing else |
| UsersApi.PostUser | app/api/users/route.ts:44-94 | a refusal writes nothing; otherwise exactly one user is appended, 201; the membership rules are preserved |
| RegisterApi.RegisterRefusal | app/api/register/route.ts:7-26 | 400 iff a name is shorter than 2, the email is invalid or the password shorter than 8; accepted iff valid and the email is unused |
| RegisterApi.NewAccount | app/api/register/route.ts:30-50 | the organization with the trimmed name and its active OWNER with the trimmed name and normalized email |
| RegisterApi.NewOrgKeepsOwnersValid | app/api/register/route.ts:30-50 | the new owner is the only active OWNER of the new organization, and every user still belongs to an organization |
| RegisterApi.AppendAccount | app/api/register/route.ts:30-50 | the transaction appends the organization and then its owner and keeps every invariant |
| RegisterApi.Register | app/api/register/route.ts:14-53 | a refusal writes nothing; otherwise exactly one organization and its OWNER are created, 201 |
| Text.Trim | app/api/users/route.ts:62 | the result occurs in the input where its leading whitespace ends, every input character before or after it is whitespace, and it neither starts nor ends with whitespace |
| Text.TrimAt | app/api/users/route.ts:62 | the trimmed string sits in the input where the leading whitespace ends, with only whitespace after it |
| Text.TrimIdempotent | app/api/expenses/route.ts:57 | trimming twice is trimming once |
| Text.TrimLowerCommute | app/api/users/route.ts:62 | lower-casing and trimming commute |
| PosCart.SkuIndex | app/sales/new/SalesPOSClient.tsx:33-39 | the SKU table; its properties are PosCart.SkuIndexSpec |
| PosCart.SkuIndexSpec | app/sales/new/SalesPOSClient.tsx:33-39 | a key is in the SKU table iff some product with a non-empty SKU lower-cases to it, and it maps to the last such product |
| PosCart.ProductBySku | app/sales/new/SalesPOSClient.tsx:33-39 | the loop builds exactly the SKU table |
| PosCart.Matching | app/sales/new/SalesPOSClient.tsx:44-45 | the products whose lower-cased name or SKU contains the query, in catalog order |
| PosCart.Search | app/sales/new/SalesPOSClient.tsx:41-47 | the list under the search box; its properties are PosCart.SearchSpec |
| PosCart.SearchSpec | app/sales/new/SalesPOSClient.tsx:41-47 | a blank query shows the first 20 products; any other shows the first min(40, #matches) matching products, a prefix of the matches, every match when there are at most 40, each matching by name or SKU, in catalog order |
| PosCart.FindLine | app/sales/new/SalesPOSClient.tsx:51 | the first line of the product, absent iff there is none |
| PosCart.AddToCart | app/sales/new/SalesPOSClient.tsx:49-61 | raises the product's first line by qty, or appends a line at its sale price; its properties are PosCart.AddExisting, PosCart.AddNew and PosCart.AddKeepsDistinct |
| PosCart.AddExisting | app/sales/new/SalesPOSClient.tsx:51-55 | adding a product already in the cart raises that line only, same length and order, and the total grows by qty × its price |
| PosCart.AddNew | app/sales/new/SalesPOSClient.tsx:57-60 | adding a new product appends one line at the sale price with quantity qty |
| PosCart.AddKeepsDistinct | app/sales/new/SalesPOSClient.tsx:49-61 | adding keeps one line per product |
| PosCart.Inc | app/sales/new/SalesPOSClient.tsx:65-67 | adds one to the quantity of the product's lines and keeps the rest; its properties are PosCart.IncSpec |
| PosCart.IncSpec | app/sales/new/SalesPOSClient.tsx:65-67 | inc adds 1 to the product's line only and keeps one line per product |
| PosCart.IncOneLine | app/sales/new/SalesPOSClient.tsx:65-67 | with one line per product, inc is the update of that line |
| PosCart.Dec | app/sales/new/SalesPOSClient.tsx:68-74 | lowers the product's line by one and keeps the lines with a positive quantity; its properties are PosCart.DecSpec |
| PosCart.DecSpec | app/sales/new/SalesPOSClient.tsx:68-74 | dec keeps one line per product and only positive quantities; on a cart of positive lines it lowers the product's line by one in place, drops it when it was 1, and leaves a cart without that product unchanged |
| PosCart.DecOneLine | app/sales/new/SalesPOSClient.tsx:68-74 | with one positive line per product, dec is the in-place decrement of that line, or its removal when it was 1 |
| PosCart.Remove | app/sales/new/SalesPOSClient.tsx:75-77 | keeps every line of another product; its properties are PosCart.RemoveSpec |
| PosCart.Total | app/sales/new/SalesPOSClient.tsx:79 | the sum of quantity × unit price over the lines; PosCart.AddExisting and PosCart.RemoveSpec state how it moves |
| PosCart.RemoveSpec | app/sales/new/SalesPOSClient.tsx:75-77 | remove drops exactly the product's line, and the total drops by its amount |
| PosCart.Scan | app/sales/new/SalesPOSClient.tsx:81-97 | a blank code is ignored, a code missing from the SKU table is reported not found, and both leave the cart unchanged; a known code adds one unit of its product and reports that product's name |
| PosCart.ScanFindsSku | app/sales/new/SalesPOSClient.tsx:84-94 | a known code adds one unit of a product filed under it and keeps one line per product |
| ProductsClient.Filtered | app/products/ProductsClient.tsx:26-35 | the catalog list for the query; properties in ProductsClient.FilteredSpec |
| ProductsClient.FilteredSpec | app/products/ProductsClient.tsx:26-35 | a blank query keeps all products; otherwise exactly the products whose name or SKU contains the query, each as often as in the catalog, in catalog order |
| ProductsClient.TotalPages | app/products/ProductsClient.tsx:20-37 | at least one page, and the fewest pages of 12 that hold all items |
| ProductsClient.SafePage | app/products/ProductsClient.tsx:38 | a page ≥ 1 is clamped to 1..totalPages and kept when in range |
| ProductsClient.PrevPage | app/products/ProductsClient.tsx:136 | the previous page, never below 1 |
| ProductsClient.NextPage | app/products/ProductsClient.tsx:160 | the next page, never beyond the last |
| ProductsClient.PageItems | app/products/ProductsClient.tsx:39-40 | the slice of 12 cards starting at (page − 1) × 12; properties in ProductsClient.PagesCoverItems |
| ProductsClient.PagesCoverItems | app/products/ProductsClient.tsx:39-40 | a page holds at most 12 cards and every item is on page ⌊k/12⌋+1 at place k mod 12 |
| ProductsClient.InsertAscendingSorted | app/products/ProductsClient.tsx:50-52 | inserting a new number keeps the page list strictly increasing |
| ProductsClient.CandidatesAtMostFive | app/products/ProductsClient.tsx:44-49 | the set of candidate pages has at most five members |
| ProductsClient.AscendingWithin | app/products/ProductsClient.tsx:50-52 | the list holds exactly the set's numbers within 1..totalPages, strictly increasing, no longer than the set |
| ProductsClient.GetPages | app/products/ProductsClient.tsx:42-53 | up to 7 pages gives 1..totalPages; otherwise at most 5 strictly increasing buttons, exactly the candidates within 1..totalPages |
| ProductsClient.PagesIncludeEnds | app/products/ProductsClient.tsx:44-49 | the candidates hold the first, last and current page, and nothing further from the current page than 1 |
| ProductsClient.IsLow | app/products/ProductsClient.tsx:77 | the stock is at or below the minimum |
| ProductsClient.NewProductIsLow | app/products/ProductsClient.tsx:77 | a product just created is flagged low |
| Dashboard.FilteredSales | app/dashboard/DashboardClient.tsx:68-71 | the sales dated at or after `from`; properties in Dashboard.FilteredSpec |
| Dashboard.FilteredExpenses | app/dashboard/DashboardClient.tsx:73-76 | the expenses dated at or after `from`; properties in Dashboard.FilteredSpec |
| Dashboard.FilteredSpec | app/dashboard/DashboardClient.tsx:68-76 | the filtered lists keep exactly the sales and expenses dated at or after `from`, each as often as loaded, in load order |
| Dashboard.ShorterRangeFewerSales | app/dashboard/DashboardClient.tsx:68-71 | a later `from` keeps no more of any sale |
| Dashboard.ComputeKpis | app/dashboard/DashboardClient.tsx:78-87 | totals are the sums of the filtered amounts, profit their difference, average ticket 0 without sales and otherwise total ÷ count |
| Dashboard.KpisAdditive | app/dashboard/DashboardClient.tsx:78-81 | the totals and profit of two ranges together are the sums of each |
| Dashboard.ProductIndex | app/dashboard/DashboardClient.tsx:117 | every top product is indexed under its id |
| Dashboard.LastIndexOfSpec | app/dashboard/DashboardClient.tsx:117 | the position found is that of the last product with the id, with none after it |
| Dashboard.ProductIndexLastWins | app/dashboard/DashboardClient.tsx:117 | when several top products share an id, the index holds the last of them |
| Dashboard.TopList | app/dashboard/DashboardClient.tsx:117-123 | the first 6 top items whose product is indexed, each with its product; properties in Dashboard.TopListSpec |
| Dashboard.TopListSpec | app/dashboard/DashboardClient.tsx:117-123 | at most 6 entries, each one of the first 6 items with the product of its id; every such item with a known product has its entry; the entries keep the items' order |
| Dashboard.FeedCandidates | app/dashboard/DashboardClient.tsx:127-145 | the first 6 sales as VENTA lines followed by the first 6 expenses as GASTO lines |
| Dashboard.Feed | app/dashboard/DashboardClient.tsx:145-147 | the candidates sorted latest first and cut to 8; properties in Dashboard.FeedSpec |
| Dashboard.FeedSpec | app/dashboard/DashboardClient.tsx:126-148 | the candidates are min(6, #sales) + min(6, #expenses); the feed shows min(8, #candidates) lines, latest first, each candidate at most as often as it occurs, from the first 6 filtered sales or expenses, and no candidate left out is later than a line shown |
| Dashboard.FeedLineOrigin | app/dashboard/DashboardClient.tsx:127-145 | every candidate is a VENTA line of one of the first 6 sales or a GASTO line of one of the first 6 expenses |
| Dashboard.FeedLength | app/dashboard/DashboardClient.tsx:127-147 | there are min(6, #sales) + min(6, #expenses) candidates and the feed shows min(8, #candidates) of them |
| AlertsClient.Shown | app/alerts/AlertsClient.tsx:19-22 | the alerts of the selected tab; properties in AlertsClient.ShownSpec |
| AlertsClient.ShownSpec | app/alerts/AlertsClient.tsx:19-22 | ALL shows every alert; a status tab shows exactly the alerts with that status; the two tabs split the list |
| AlertsClient.ShownKeepsOrder | app/alerts/AlertsClient.tsx:19-22 | a status tab keeps the list's order |
| AlertsClient.CloseLocal | app/alerts/AlertsClient.tsx:24-35 | a failed close leaves the list; a successful one marks the matching alert CLOSED and keeps the rest and the length |
| AlertsClient.ClosedLeavesOpenTab | app/alerts/AlertsClient.tsx:34 | after a successful close the alert is no longer in the OPEN tab |
| AlertsClient.CloseLocalMatchesServer | app/alerts/AlertsClient.tsx:34 | on a table whose ids are positions, a successful local close equals AlertsApi.CloseById (the PATCH of app/api/alerts/route.ts) on the same id |

## Left out

- Database, session and HTTP plumbing: Prisma, NextAuth and `NextResponse` are not modelled. The store is in memory; the session is a parameter; a body that is not JSON is treated like an invalid body.
- Ids: the cuid strings are not modelled. An id is the row's position, and `findFirst` without an order returns the lowest id.
- Concurrency: the sale handler reads the products outside its transaction, and the move handler reads and then writes without a transaction. Both are modelled as one sequential step.
- Floating point: `Number(...)`, the division of the 30-day sums (taken as exact reals), the `toFixed` text of the CASH_RISK message (the alert stores the two sums instead) and `toLocaleString` are not modelled.
- Money: prices, totals and amounts are integers. Fractional prices are not modelled.
- InventoryMoveApi.PostMove: stock columns are taken to be integers. A fractional quantity passes the schema but makes the first write fail (500, nothing written); the database's actual behaviour is not modelled.
- Dates: `daysAgo`, parsing with `new Date(...)` and time zones are not modelled. The window start, the dashboard's `from` and the current time are inputs. The expense date parser is a parameter; a date it rejects ends in 500, as the database write would fail.
- The dashboard's daily `series` (`app/dashboard/DashboardClient.tsx:90-114`) is not part of this model.
- Passwords: hashing is not modelled. Only the minimum password length is checked.
- The email format check of the schemas is a parameter `isEmail`.
- Text: lower-casing covers ASCII letters only, and trimming covers the common whitespace characters, not every Unicode space.
- AlertsClient.CloseLocalMatchesServer: the screen sends its close to `/api/alerts/[id]`, a different route from the PATCH of `app/api/alerts/route.ts`, and that route is not part of this model. The lemma compares the local update with the modelled PATCH only.
- AlertsApi.PatchAlert: closing an unknown id is modelled as a database failure (500). The dynamic route that the alerts screen calls (`app/api/alerts/[id]/route.ts`) is not part of this model; the screen's outcome is the parameter `ok`.
- ExpensesApi.PostExpense: a category id that names no category would fail the foreign key; this is not modelled.
- Column defaults: a new product and a registered owner are active, as the schema defaults would make them.
- Sorting: ties under "newest first" keep a fixed stable order. The database leaves the order of ties open.
- Receipt numbers and retries: the sale handler assigns none, so there is nothing to model.
- The matcher configuration of `middleware.ts:41-43` is framework configuration, not logic.
- The password, account, product-edit, sale-detail, user-edit and expense-category routes, and the pages that only render or fetch, are not part of this model.
