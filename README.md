# Pharmacy screens: a verified model of their data shaping

This project models, in Dafny, the client-side logic of the pharmacy management
application's React screens. It covers what each screen does with the rows it
fetches from the database:

- **Reports screen** (`Reports`):
  - the period selector turns into a start/end pair;
  - the per-day sales series is built with a dictionary;
  - the top-10 product and customer rankings;
  - the stock/expiry alert list;
  - the summary totals and the first-week/last-week growth.
- **Dashboard** (`Dashboard`):
  - today's and this month's completed-sales totals;
  - the low-stock list and count (a fixed threshold of 10);
  - the lots expiring within 30 days;
  - the distinct product ids of those lots, and the lot/product-name merge with its `Producto ID:` fallback;
  - `formatDate`'s empty case.
- **Products** (`Products`):
  - the stock badge and the warning icon;
  - the search/category filter and the category labels;
  - which rows the Excel export takes and its summary counts;
  - the append after a product is added (a class whose method updates the list, the modal flag and the form).
- **Prescriptions** (`Prescriptions`): the "expiring soon" marker, the search filter, the status badge, and the row a new prescription is inserted with.
- **Sales, Purchases and Customers** (`Sales`, `Purchases`, `Customers`):
  - the search filters and the label lookups with fallback;
  - the flattening of joined supplier/product names;
  - the new purchase order;
  - the membership icon and the customer-detail prescription badge.
- **Settings** (`Settings`):
  - the password-change guard sequence (a class whose method returns the toast and the call made);
  - the role labels;
  - whether saving the billing form updates or inserts.

Shared modules:
- `Optional`: `Option` and `Result`.
- `Seqs`: `filter`, summing `reduce`, `[...new Set(xs)]`, the stable descending `sort` and `slice(0, n)`.
- `Text`: ASCII `toLowerCase`, `includes`, decimal rendering of a number.
- `Calendar`: civil dates on the proleptic Gregorian calendar. It covers JavaScript's `setDate` and `setFullYear` and the ceiling of a millisecond difference in days.

Conventions:
- Money is in integer cents. Growth is a `real`.
- Instants are integer milliseconds, and calendar days are day numbers from 0000-01-01.
- "Now" is a parameter.
- Each database query is modelled as the table's rows filtered by the query's own conditions and ordered by its `order` clause.

`processSalesData` and the period switch work by changing variables step by step, so they are methods.
- `ProcessSalesData` fills a map in a loop and is proved equal to the functional `DailySeries`.
- `DailySeries` carries the proved properties: conservation of totals, per-day counts and sums, and first-seen order.

## Model

| member | source | states |
|---|---|---|
| Reports.ResolvePeriod | src/components/Reports/ReportsList.tsx:64-80 | end is now. '7d', '30d' and '90d' put start 7, 30 and 90 calendar days before end. '1y' puts it at the same date one year back, 365 or 366 days earlier. Any other selector leaves start equal to end. Start is never after end. |
| Calendar.SetDate | src/components/Reports/ReportsList.tsx:69-75 | `setDate(n)` moves to the day `n - getDate()` days away, crossing month and year ends, and keeps the time of day. |
| Calendar.SetFullYear | src/components/Reports/ReportsList.tsx:78 | `setFullYear(y)` keeps month and day, except that 29 February in a non-leap year becomes 1 March. |
| Calendar.YearBackSpan | src/components/Reports/ReportsList.tsx:77-79 | Going one year back spans 365 or 366 days. It spans 366 exactly when the previous year is a leap year and the date is in January or February, or this year is a leap year and the date is later. |
| Calendar.ShiftDays | src/components/Dashboard/Dashboard.tsx:66-68 | `setDate(getDate() + k)` moves the instant by exactly k days. |
| Calendar.DayNumberMonotonic | src/components/Dashboard/Dashboard.tsx:71-72 | Comparing `YYYY-MM-DD` strings is comparing day numbers: an earlier date has a smaller day number. |
| Calendar.DayNumberInjective | src/components/Dashboard/Dashboard.tsx:71-72 | Two dates with one day number are the same date. |
| Calendar.FromDayNumber | src/components/Dashboard/Dashboard.tsx:71-72 | Every non-negative day number, with any time of day, is the day number of a valid date. |
| Calendar.CeilDays | src/components/Reports/ReportsList.tsx:199 | `Math.ceil(ms / 86 400 000)` is the d with `(d - 1)` days `< ms <=` d days. |
| Calendar.CeilDaysAtMost | src/components/Reports/ReportsList.tsx:207 | The rounded-up days are at most n exactly when the difference is at most n whole days. |
| Calendar.CeilDaysPositive | src/components/Prescriptions/PrescriptionList.tsx:186-187 | The rounded-up days are positive exactly when the difference is positive. |
| Reports.SalesInWindow | src/components/Reports/ReportsList.tsx:83-88 | The sales query keeps exactly the sales dated inside the window, whatever their status, in ascending date order, each as often as in the table. |
| Reports.ProcessSalesData | src/components/Reports/ReportsList.tsx:146-163 | The dictionary loop and the entries listing produce exactly the daily series. |
| Reports.CountedStep | src/components/Reports/ReportsList.tsx:149-156 | Counting one more row keeps the dictionary invariant: its keys are the distinct day labels in first-seen order, and each bucket holds the count and amount sum of the rows seen so far on that day. |
| Reports.DailySeries | src/components/Reports/ReportsList.tsx:146-163 | One point per distinct day label: every date is a sale's day, every sale's day has a point, and no date repeats. |
| Reports.DailySeriesEntries | src/components/Reports/ReportsList.tsx:151-155 | A point's orders are the number of sales on its day. Its revenue is the sum of their amounts, a missing amount adding 0. |
| Reports.DailySeriesFirstSeen | src/components/Reports/ReportsList.tsx:147-162 | Points come in the order their days are first met in the rows. |
| Reports.DailyOrdersPositive | src/components/Reports/ReportsList.tsx:150-155 | Every point of the chart has at least one order. |
| Reports.SeriesConservation | src/components/Reports/ReportsList.tsx:149-162 | Summed over all points, revenue equals the sum of all sales' amounts and orders equals the sum of one per sale. Nothing is lost or counted twice. |
| Reports.OrdersCountSales | src/components/Reports/ReportsList.tsx:212 | Counting one per sale gives the number of sales. |
| Reports.Growth | src/components/Reports/ReportsList.tsx:215-217 | Growth is 0 without first-week revenue. Otherwise it is (last week − first week) / first week × 100, so it is positive exactly when the last week beat the first and negative exactly when it fell short. |
| Reports.ShortSeriesHasNoGrowth | src/components/Reports/ReportsList.tsx:215-217 | With seven points or fewer both slices are the whole series, so growth is 0. |
| Reports.CalculateSummaryStats | src/components/Reports/ReportsList.tsx:210-227 | Total sales is the sum of the sale amounts, a missing amount counting 0. Total orders is the number of sales. The customer and product counts are the rankings' lengths. Sales growth is the chart's Growth, and so 0 for an empty chart. Order growth is always 0. |
| Reports.SummaryMatchesChart | src/components/Reports/ReportsList.tsx:210-213 | The summary's total sales and orders equal the sums over the chart built from the same rows. |
| Reports.Performance | src/components/Reports/ReportsList.tsx:166-175 | A product's line keeps its name. Units sold are the sum of the item quantities and revenue the sum of quantity × price, missing fields counting 0. Without sale items (missing or an empty list) both are 0. Stock is `current_stock`, 0 when missing. With non-negative quantities the units sold are non-negative. |
| Reports.ProcessProductData | src/components/Reports/ReportsList.tsx:165-177 | It holds the first min(10, products) lines, in non-increasing revenue, drawn from the products' lines with each line at most as often as it occurs. Counting copies, so that two products with equal lines count twice, any line left out earns no more than every kept line. Ties keep the input order. |
| Reports.LatestSale | src/components/Reports/ReportsList.tsx:183-184 | `Math.max` over the sale dates is one of them and no smaller than any. |
| Reports.CustomerLine | src/components/Reports/ReportsList.tsx:180-191 | The purchase count is the number of sales, with none treated as 0. The money spent is the sum of the sale amounts, a missing amount counting 0. The last purchase is 'Nunca' exactly when there are no sales, and otherwise the latest sale date itself (`LatestSale`: one of the dates, and at least every date). |
| Reports.ProcessCustomerData | src/components/Reports/ReportsList.tsx:179-194 | It holds the first min(10, customers) lines, in non-increasing total spent, drawn from the customers' lines with each line at most as often as it occurs. Counting copies, so that two customers with equal lines count twice, any line left out spent no more than every kept line. Ties keep the input order. |
| Reports.ToAlert | src/components/Reports/ReportsList.tsx:197-205 | The alert keeps the product's name, with current and minimum stock 0 when missing. Days to expiry are absent exactly without an expiry date, and are otherwise the difference rounded up to whole days. |
| Reports.ProcessStockAlerts | src/components/Reports/ReportsList.tsx:196-208 | It keeps exactly the alert lines at or under the minimum stock, or with at most 30 days to expiry. |
| Reports.NeedsAlert | src/components/Reports/ReportsList.tsx:207 | A missing expiry never raises an alert on its own. An expiry at most 30 days away, or already past, raises one whatever the stock. Above the minimum stock, only such an expiry raises one. |
| Reports.StockAlertCriterion | src/components/Reports/ReportsList.tsx:197-207 | A product is listed exactly when its stock is at or under its minimum (missing values as 0) or it expires at most 30 days from now, already expired products included. |
| Reports.StockAlertsKeepOrder | src/components/Reports/ReportsList.tsx:207 | The alerts keep the products' order. |
| Dashboard.MonthStart | src/components/Dashboard/Dashboard.tsx:47-48 | The month window starts `day - 1` whole days before today's midnight. |
| Dashboard.TodaysSales | src/components/Dashboard/Dashboard.tsx:38-44 | The daily query keeps exactly the completed sales between today's 00:00:00 and 23:59:59. |
| Dashboard.MonthsSales | src/components/Dashboard/Dashboard.tsx:47-53 | The monthly query keeps exactly the completed sales from the first of the month on, with no upper bound. |
| Dashboard.SumTotals | src/components/Dashboard/Dashboard.tsx:203-204 | A missing result sums to 0. Otherwise the figure is the sum of the rows' totals, a missing total counting 0, and non-negative totals give a non-negative sum. |
| Dashboard.DailyAtMostMonthly | src/components/Dashboard/Dashboard.tsx:38-53 | With non-negative totals, today's figure never exceeds the month's. |
| Dashboard.OnlyCompletedCount | src/components/Dashboard/Dashboard.tsx:42 | A sale that is not completed counts in neither figure. |
| Dashboard.DailyWindowMissesLastSecond | src/components/Dashboard/Dashboard.tsx:44 | A completed sale in the day's last second, after 23:59:59.000, falls on today and is not counted. |
| Dashboard.LowStockList | src/components/Dashboard/Dashboard.tsx:56-61 | At most five products, all with stock at most 10 (not their own minimum), lowest stock first, drawn from the low-stock rows with each row at most as often as it occurs. Counting copies, no low-stock row left out has less stock than one shown. |
| Dashboard.LowStockCount | src/components/Dashboard/Dashboard.tsx:180-183 | The low-stock count is the number of products with at most 10 units, counted without a limit, so at most the number of products. It is 0 exactly when every product has more than 10 units, and equals the number of products exactly when none has. |
| Dashboard.LowStockListFitsCount | src/components/Dashboard/Dashboard.tsx:56-61 | The list is never longer than the low-stock count. With at most five low-stock products it shows all of them. |
| Dashboard.ExpiryWindow | src/components/Dashboard/Dashboard.tsx:66-72 | The window runs from today's day number to 30 days later. |
| Dashboard.ExpiringLots | src/components/Dashboard/Dashboard.tsx:120-127 | It keeps exactly the lots with an expiry date from today to today + 30 (both inclusive) and quantity above 0, each as often as in the table, soonest first. |
| Dashboard.ExpiringCount | src/components/Dashboard/Dashboard.tsx:186-192 | The expiring count equals the length of the expiring-lots list and is at most the number of lots. It is 0 exactly when no lot has stock and an expiry date between today and 30 days on. |
| Dashboard.ExpiringCardMatchesList | src/components/Dashboard/Dashboard.tsx:186-192 | The expiring count uses the same conditions, so it equals the length of the merged list. |
| Dashboard.ProductIds | src/components/Dashboard/Dashboard.tsx:142 | Each product id of the lots appears exactly once, and nothing else appears. |
| Dashboard.FindProduct | src/components/Dashboard/Dashboard.tsx:156 | `find` fails exactly when no row has the id. Otherwise it returns a row with that id. |
| Dashboard.FindProductFirst | src/components/Dashboard/Dashboard.tsx:156 | `find` returns the first row with the id. |
| Dashboard.NameFor | src/components/Dashboard/Dashboard.tsx:156 | The shown name is never empty. It is the found product's name when that is non-empty. Without a lookup result, without a row for the id, or with a missing or empty name it is `Producto ID: <id>`. |
| Dashboard.FinalExpiringProducts | src/components/Dashboard/Dashboard.tsx:136-164 | With no lots the result is empty. Otherwise it keeps the number, order and fields of the lots and attaches each lot's name. |
| Dashboard.NameLookup | src/components/Dashboard/Dashboard.tsx:145-149 | The name lookup keeps exactly the products whose id is one of the lots' product ids. |
| Dashboard.LookupKeepsNames | src/components/Dashboard/Dashboard.tsx:145-159 | Looking names up among only the lots' products shows the same name as looking among all products. |
| Dashboard.FormatDate | src/components/Dashboard/Dashboard.tsx:221-233 | An empty date string shows 'Fecha no disponible'. Any other string is formatted. |
| Products.GetStockStatus | src/components/Products/ProductList.tsx:215-223 | 'Sin Stock' exactly at zero stock, whatever the minimum. 'Stock Bajo' exactly for non-zero stock at or under the minimum. 'Stock Normal' exactly above it. Each label has its colour. |
| Products.BadgeAgreesWithIcon | src/components/Products/ProductList.tsx:380 | With non-negative figures the badge is 'Stock Normal' exactly when the warning icon is hidden. An empty product shows the icon and 'Sin Stock'. |
| Products.FilteredProducts | src/components/Products/ProductList.tsx:205-213 | It keeps exactly the products whose name, code or active ingredient contains the term ignoring case, and whose category is the selected one or the selection is 'all'. |
| Products.FilteredProductsKeepOrder | src/components/Products/ProductList.tsx:205-213 | The filter keeps the list's order and each kept product as often as it occurs. |
| Products.EmptySearchShowsAll | src/components/Products/ProductList.tsx:205-213 | An empty term with 'all' keeps every product. |
| Products.GetCategoryLabel | src/components/Products/ProductList.tsx:225-233 | generic/brand/otc/controlled read Genérico/Marca/Venta Libre/Controlado. Any other key is returned unchanged, and only then. |
| Products.CategoryLabelsDistinct | src/components/Products/ProductList.tsx:225-233 | Different known categories get different labels. |
| Products.ExportList | src/components/Products/ProductList.tsx:120-127 | The export takes all products or the filtered ones. It is refused with 'No hay productos para exportar' exactly when that list is empty. |
| Products.ExportRefusals | src/components/Products/ProductList.tsx:122-127 | Exporting all is refused only for an empty catalogue. A refused filtered export means no product passes the filter. |
| Products.ExportCounts | src/components/Products/ProductList.tsx:177-178 | The low-stock count is the number of exported rows at or under their minimum, and the no-stock count the number with stock 0. Neither exceeds the number of exported rows. |
| Products.NoStockAtMostLowStock | src/components/Products/ProductList.tsx:177-178 | With no negative minimum, the no-stock count is at most the low-stock count. |
| Products.LowStockCountMatchesBadges | src/components/Products/ProductList.tsx:177-223 | With non-negative figures the low-stock count is the number of badges other than 'Stock Normal'. |
| Products.ProductListState.constructor | src/components/Products/ProductList.tsx:10-27 | The screen starts with the loaded list, the modal closed and the form reset ('generic' category). |
| Products.ProductListState.HandleAdd | src/components/Products/ProductList.tsx:69-103 | A stored row is appended at the end and the other entries are unchanged. The modal closes and the form resets. A failed insert changes nothing. |
| Prescriptions.IsExpiringSoon | src/components/Prescriptions/PrescriptionList.tsx:182-188 | The marker shows exactly when the expiry is still ahead and at most seven whole days away. Day 7 is included; now and the past are not. |
| Prescriptions.ExpiringSoonInsideAlertWindow | src/components/Reports/ReportsList.tsx:196-207 | A product whose expiry date the prescriptions screen marks as expiring soon is listed by the reports' stock alerts, with 1 to 7 days until expiry. |
| Prescriptions.FilteredPrescriptions | src/components/Prescriptions/PrescriptionList.tsx:190-194 | It keeps exactly the rows whose number, doctor or customer name contains the term ignoring case, a missing name counting as ''. |
| Prescriptions.FilteredPrescriptionsKeepOrder | src/components/Prescriptions/PrescriptionList.tsx:190-194 | The filter keeps the rows' order. |
| Prescriptions.MissingCustomerMatchesOnlyEmpty | src/components/Prescriptions/PrescriptionList.tsx:193 | Without a customer, a non-empty term matches only through the number or the doctor. |
| Prescriptions.GetStatusText | src/components/Prescriptions/PrescriptionList.tsx:173-180 | active/expired/fulfilled read Activa/Expirada/Completada. Any other status is shown raw, and only then. |
| Prescriptions.GetStatusColor | src/components/Prescriptions/PrescriptionList.tsx:164-171 | The grey colour goes exactly to unknown statuses. |
| Prescriptions.BadgeTextAgreesWithColor | src/components/Prescriptions/PrescriptionList.tsx:164-180 | The badge is grey exactly when its text is the raw status. |
| Prescriptions.NewPrescriptionRow | src/components/Prescriptions/PrescriptionList.tsx:115-120 | A new prescription is inserted with the form's fields and status 'active'. |
| Prescriptions.NewPrescriptionShowsActive | src/components/Prescriptions/PrescriptionList.tsx:117-120 | A new prescription shows as 'Activa' with a green badge. |
| Sales.FilteredSales | src/components/Sales/SalesList.tsx:37-40 | It keeps exactly the sales whose invoice number or customer name ('' if absent) contains the term ignoring case. |
| Sales.FilteredSalesKeepOrder | src/components/Sales/SalesList.tsx:37-40 | The filter keeps the sales' order. |
| Sales.EmptySearchShowsAllSales | src/components/Sales/SalesList.tsx:37-40 | An empty term keeps every sale. |
| Sales.GetStatusColor | src/components/Sales/SalesList.tsx:42-49 | The grey colour goes exactly to unknown statuses. |
| Sales.GetStatusLabel | src/components/Sales/SalesList.tsx:51-58 | completed/cancelled/refunded read Completada/Cancelada/Devuelta. Anything else is shown raw, and only then. |
| Sales.GetPaymentMethodLabel | src/components/Sales/SalesList.tsx:60-67 | cash/card/transfer read Efectivo/Tarjeta/Transferencia. Anything else is shown raw, and only then. |
| Sales.KnownStatusesDistinguished | src/types/index.ts:72 | Each status the sale type declares gets its own label and its own colour. |
| Purchases.Flatten | src/components/Purchases/PurchaseList.tsx:104-107 | A missing result flattens to []. Otherwise flattening keeps the number, order and fields of the rows and adds the joined name. |
| Purchases.FlattenRoundTrip | src/components/Purchases/PurchaseList.tsx:119-122 | Putting the name back under the join gives the rows returned: flattening loses nothing. |
| Purchases.FilteredOrders | src/components/Purchases/PurchaseList.tsx:342-346 | The orders tab keeps exactly the orders whose number or supplier name contains the term ignoring case. |
| Purchases.FilteredSuppliers | src/components/Purchases/PurchaseList.tsx:387-391 | The suppliers tab keeps exactly the suppliers whose name or e-mail contains the term ignoring case. |
| Purchases.FilteredInvoices | src/components/Purchases/PurchaseList.tsx:427-431 | The invoices tab keeps exactly the invoices whose number or supplier name contains the term ignoring case. |
| Purchases.TabsKeepOrder | src/components/Purchases/PurchaseList.tsx:342-431 | Each tab keeps its list's order. |
| Purchases.SupplierNameFindsItsOrders | src/components/Purchases/PurchaseList.tsx:342-346 | Searching for a supplier's name finds every order of that supplier. |
| Purchases.GetStatusText | src/components/Purchases/PurchaseList.tsx:247-255 | pending/approved/received/cancelled read Pendiente/Aprobada/Recibida/Cancelada. Anything else is shown raw, and only then. |
| Purchases.GetStatusColor | src/components/Purchases/PurchaseList.tsx:237-245 | The grey colour goes exactly to unknown statuses. |
| Purchases.NewOrder | src/components/Purchases/PurchaseList.tsx:187-200 | A new order carries the form's fields, status 'pending', total 0, the clock as its date, and 'PO-' followed by the clock's digits as its number. |
| Purchases.OrderNumbersDistinct | src/components/Purchases/PurchaseList.tsx:190 | Orders created at different milliseconds get different numbers. |
| Purchases.NewOrderShowsPending | src/components/Purchases/PurchaseList.tsx:198 | A new order shows as 'Pendiente'. |
| Text.NatToStringValue | src/components/Purchases/PurchaseList.tsx:190 | The decimal digits of a number read back as that number. |
| Text.IncludesIffOccurs | src/components/Customers/CustomerList.tsx:126 | `includes` holds exactly when the term occurs at some position. |
| Text.LowerIdempotent | src/components/Customers/CustomerList.tsx:124-125 | Lowercasing twice is lowercasing once. |
| Text.MatchesWhenContained | src/components/Purchases/PurchaseList.tsx:344-345 | A field containing the term, up to case, at some position matches the search. |
| Customers.FilteredCustomers | src/components/Customers/CustomerList.tsx:123-127 | It keeps exactly the customers whose name or e-mail contains the term ignoring case, or whose phone contains the term as typed. |
| Customers.FilteredCustomersKeepOrder | src/components/Customers/CustomerList.tsx:123-127 | The filter keeps the customers' order. |
| Customers.EmptySearchShowsAllCustomers | src/components/Customers/CustomerList.tsx:123-127 | An empty term keeps every customer. |
| Customers.PhoneSearchIsCaseSensitive | src/components/Customers/CustomerList.tsx:126 | A term with an upper-case letter never matches a phone without one: the phone is not lowercased. |
| Customers.MembershipIconClass | src/components/Customers/CustomerList.tsx:129-135 | gold and silver get their crown colours. Exactly the other levels get the amber one. |
| Customers.BadgeText | src/components/Customers/CustomerList.tsx:349-350 | 'active' reads Activa and 'expired' Expirada. Every other status reads 'Completada', and only those do. |
| Customers.BadgeColor | src/components/Customers/CustomerList.tsx:344-347 | The badge is grey exactly when it reads 'Completada'. |
| Customers.BadgeVersusPrescriptionScreen | src/components/Customers/CustomerList.tsx:344-350 | The three declared statuses read alike on both screens. An unknown status reads 'Completada' here and raw there, and 'fulfilled' is grey here and blue there. |
| Customers.ResetFormIsBronze | src/components/Customers/CustomerList.tsx:92-98 | The reset form asks for the bronze level and its amber crown. |
| Settings.PasswordProblem | src/components/Settings/SettingsList.tsx:129-137 | The change is refused exactly when the passwords differ or the new one is shorter than 6. A mismatch is reported with its message, and otherwise a short password with its message. |
| Settings.PasswordLengthBoundary | src/components/Settings/SettingsList.tsx:134-137 | A confirmed six-character password passes; five characters never do. |
| Settings.MismatchReportedFirst | src/components/Settings/SettingsList.tsx:129-132 | A mismatch is reported even when the new password is also too short. |
| Settings.PasswordDialog.constructor | src/components/Settings/SettingsList.tsx:42-55 | The dialog starts closed with an empty form. |
| Settings.PasswordDialog.HandlePasswordChange | src/components/Settings/SettingsList.tsx:126-151 | The password is changed only when both checks pass, with the current and new passwords. On success the dialog closes and the form empties. A failed check shows its message; a failed change shows the error and keeps the form. |
| Settings.GetRoleText | src/components/Settings/SettingsList.tsx:251-258 | admin/manager/cashier read Administrador/Gerente/Cajero. Any other role is shown raw, and only then. |
| Settings.GetRoleColor | src/components/Settings/SettingsList.tsx:242-249 | The grey colour goes exactly to unknown roles. |
| Settings.PharmacistShownRaw | src/types/index.ts:5 | The declared role 'pharmacist' is unknown to both switches: it shows raw, in grey. |
| Settings.BillingSaveAction | src/components/Settings/SettingsList.tsx:184-199 | Saving updates the loaded configuration, by its id, exactly when one was loaded, and inserts otherwise. It always writes the form's values. |
| Seqs.Top | src/components/Reports/ReportsList.tsx:176 | `sort((a, b) => key(b) - key(a)).slice(0, n)`: min(length, n) elements, non-increasing keys, a sub-multiset of the input. Any value the input holds more copies of than the result has a key no larger than every kept one. Ties keep their input order. |
| Seqs.SortDescStable | src/components/Reports/ReportsList.tsx:193 | The descending sort is stable: elements with equal keys keep their input order. |
| Seqs.DistinctFirstSeen | src/components/Dashboard/Dashboard.tsx:142 | `[...new Set(xs)]` lists values in the order they are first met. |
| Seqs.FilterIsSubsequence | src/components/Sales/SalesList.tsx:37 | `filter` keeps the kept elements in their order. |
| Seqs.FilterCounts | src/components/Products/ProductList.tsx:205 | `filter` keeps each selected element as often as it occurs. |

## Left out

- Database access through the Supabase client is not modelled: queries, inserts, updates, deletes, the auth calls and their errors. Each query is modelled as a table's rows under the query's own conditions and ordering, and each write as the row it would send. The database's order among rows with equal sort keys is taken to be table order. The product-name lookup on the dashboard is modelled by its conditions; that it is skipped when there are no lots is not modelled.
- The `.or(...)` server-side prefilter of the stock-alert query (src/components/Reports/ReportsList.tsx:125-128) is left out: it is evaluated by the database. The client-side filter at line 207 is modelled.
- The dashboard's exploratory debug queries (src/components/Dashboard/Dashboard.tsx:77-117, 236-311) are left out: they log and are not shown.
- Toasts, `confirm` dialogs, console logging, React rendering, charts, loading flags, the navigation (`src/components/Layout/Sidebar.tsx`, `src/App.tsx`) and `localStorage` (`src/hooks/useAuth.ts`) are presentation or I/O.
- The Excel export's workbook and file saving (XLSX, file-saver) are foreign libraries. Only which rows are exported and the two summary counts are modelled.
- The host's clock is a parameter. The host's time zone is taken to be UTC, so the dashboard's `toISOString` date strings and local dates coincide. A host behind or ahead of UTC shifts those windows, and that shift is not modelled.
- `toLocaleDateString` is not modelled: the sales chart takes it as an abstract function `dayOf` from an instant to a label, and `formatDate` as an abstract `format`. An unreadable date string yields whatever `format` gives it (the host's 'Invalid Date'): `new Date(...)` and `toLocaleDateString` do not throw on such input, so the 'Fecha inválida' catch branch is never reached by it and is not modelled.
- Floating point is not modelled: money is integer cents and growth is an exact `real`, so IEEE rounding and `NaN` from missing operands are not modelled.
- Text.Lower: lowercases ASCII letters only, because Unicode case mapping is not modelled; lengths count characters, not UTF-16 code units.
- Products.GetCategoryLabel: object-literal lookups that would also find inherited keys such as 'constructor' are modelled as lookups over the four declared keys only.
- Sales.GetStatusColor: the same object-literal lookup; an inherited key such as 'constructor' would give a truthy `Object` in the source, while the model gives grey.
- Sales.GetStatusLabel: the same object-literal lookup; for an inherited key such as 'constructor' the model returns the raw key rather than the inherited value.
- Sales.GetPaymentMethodLabel: the same object-literal lookup; for an inherited key such as 'constructor' the model returns the raw key rather than the inherited value.
- Reports.DailySeries: points come in first-seen order, which is `Object.entries` order only while no day label is an array-index string such as "12" (such keys are listed first, in ascending order); `toLocaleDateString` labels contain separators, so that case is not modelled.
- Reports.ResolvePeriod: requires a year of at least 1; JavaScript dates before year 1 are not modelled.
- Reports.CalculateSummaryStats: the customer and product counts are the rankings held on screen when it runs (those of the previous load), so they are parameters.
- Reports.ProcessProductData: quantities and prices are integers (cents), so a fractional quantity is not modelled.
- Form parsing (`parseFloat`, `parseInt`) in the add-product form is not modelled: `HandleAdd` receives the row the database stored, or the error.
- Reloading the lists after a write (`loadData`, `loadCustomers`) is I/O and left out. The counts of customers and products on the dashboard are plain row counts and are not modelled.
- The dashboard reads the `total` and `created_at` columns of `sales`, while the reports read `total_amount` and `sale_date`; they are modelled as two row types, each as its screen reads it.
- The purchase-order type (src/types/index.ts:95) lists no 'approved' status, while the screen's switches handle it; the model follows the screen.
- The four helper scripts at the repository root (sample data, connection tests, environment setup) only do network or file I/O.
