/** The dashboard: today's and this month's completed sales, the low-stock list and
    count, and the product lots expiring in the next 30 days with their product
    names looked up separately. Each query result is what the table holds under
    the query's filters; a query whose error is ignored yields no data (None). */
module Dashboard {
  import opened Optional
  import opened Seqs
  import opened Calendar

  // ---------------------------------------------------------------- sales totals

  /** A `sales` row as the dashboard reads it: `total` in cents, `status`, `created_at` in ms. */
  datatype DashSale = DashSale(total: Option<int>, status: string, createdAt: int)

  /** `sum + sale.total`, where a null total adds nothing. */
  function TotalOf(s: DashSale): int {
    s.total.GetOr(0)
  }

  /** First millisecond of the day: `${day}T00:00:00`. */
  function DayStart(now: DateTime): int
    requires Valid(now)
  {
    DayNumber(now) * MsPerDay
  }

  /** `${day}T23:59:59`: the last whole second of the day. */
  function DayEnd(now: DateTime): int
    requires Valid(now)
  {
    DayStart(now) + 86_399_000
  }

  /** First millisecond of the month: the first of the month at midnight, rendered as a date. */
  function MonthStart(now: DateTime): (t: int)
    requires Valid(now)
    ensures t <= DayStart(now)
    ensures DayStart(now) - t == (now.day - 1) * MsPerDay
  {
    DayNumber(DateTime(now.year, now.month, 1, 0)) * MsPerDay
  }

  function InToday(now: DateTime): DashSale -> bool
    requires Valid(now)
  {
    (s: DashSale) => s.status == "completed" && DayStart(now) <= s.createdAt <= DayEnd(now)
  }

  function InMonth(now: DateTime): DashSale -> bool
    requires Valid(now)
  {
    (s: DashSale) => s.status == "completed" && MonthStart(now) <= s.createdAt
  }

  /** The daily sales query. */
  function TodaysSales(table: seq<DashSale>, now: DateTime): (r: seq<DashSale>)
    requires Valid(now)
    ensures forall s :: s in r <==> s in table && s.status == "completed" && DayStart(now) <= s.createdAt <= DayEnd(now)
  {
    Filter(table, InToday(now))
  }

  /** The monthly sales query: no upper bound on `created_at`. */
  function MonthsSales(table: seq<DashSale>, now: DateTime): (r: seq<DashSale>)
    requires Valid(now)
    ensures forall s :: s in r <==> s in table && s.status == "completed" && MonthStart(now) <= s.createdAt
  {
    Filter(table, InMonth(now))
  }

  /** `data?.reduce((sum, sale) => sum + sale.total, 0) || 0`. */
  function SumTotals(rows: Option<seq<DashSale>>): (r: int)
    ensures rows.None? ==> r == 0
    ensures rows.Some? ==> r == SumBy(rows.value, TotalOf)
    ensures rows.Some? && (forall s | s in rows.value :: TotalOf(s) >= 0) ==> r >= 0
  {
    match rows
    case None => 0
    case Some(sales) => SumNonNegative(sales); SumBy(sales, TotalOf)
  }

  lemma {:induction false} SumNonNegative(sales: seq<DashSale>)
    ensures (forall s | s in sales :: TotalOf(s) >= 0) ==> SumBy(sales, TotalOf) >= 0
  {
    if sales != [] {
      SumNonNegative(sales[1..]);
    }
  }

  /** With no negative totals, today's sales never exceed the month's. */
  lemma DailyAtMostMonthly(table: seq<DashSale>, now: DateTime)
    requires Valid(now)
    requires forall s | s in table :: TotalOf(s) >= 0
    ensures SumTotals(Some(TodaysSales(table, now))) <= SumTotals(Some(MonthsSales(table, now)))
  {
    SumByStrongerFilter(table, InToday(now), InMonth(now), TotalOf);
  }

  /** Sales that are not completed never count, whatever their date. */
  lemma OnlyCompletedCount(table: seq<DashSale>, now: DateTime, s: DashSale)
    requires Valid(now) && s.status != "completed"
    ensures s !in TodaysSales(table, now) && s !in MonthsSales(table, now)
  {
  }

  /** The daily window closes at 23:59:59.000: a completed sale later in that last
      second falls on today's date and still is not counted. */
  lemma DailyWindowMissesLastSecond(table: seq<DashSale>, now: DateTime, s: DashSale)
    requires Valid(now) && s.status == "completed"
    requires s.createdAt == DayStart(now) + 86_399_500
    ensures s.createdAt / MsPerDay == DayNumber(now)
    ensures s !in TodaysSales(table, now)
  {
  }

  // ---------------------------------------------------------------- low stock

  datatype DashProduct = DashProduct(id: string, name: string, stockQuantity: int, minStock: int)

  /** `stock_quantity <= 10`: a fixed threshold, not the product's own minimum. */
  predicate IsLowStock(p: DashProduct) {
    p.stockQuantity <= 10
  }

  function NegatedStock(p: DashProduct): int {
    -p.stockQuantity
  }

  /** The low-stock query: at most five low-stock products, lowest stock first. */
  function LowStockList(table: seq<DashProduct>): (r: seq<DashProduct>)
    ensures |r| == var n := |Filter(table, IsLowStock)|; if n < 5 then n else 5
    ensures forall p | p in r :: p in table && p.stockQuantity <= 10
    ensures forall i, j :: 0 <= i < j < |r| ==> r[i].stockQuantity <= r[j].stockQuantity
    ensures multiset(r) <= multiset(Filter(table, IsLowStock))
    ensures forall p, i :: 0 <= i < |r| && multiset(r)[p] < multiset(Filter(table, IsLowStock))[p] ==>
      r[i].stockQuantity <= p.stockQuantity
    ensures forall p, i :: p in table && IsLowStock(p) && p !in r && 0 <= i < |r| ==> r[i].stockQuantity <= p.stockQuantity
  {
    var low := Filter(table, IsLowStock);
    var r := Top(low, NegatedStock, 5);
    LowStockLeftOut(table, low, r);
    LowStockShape(table, low, r);
    r
  }

  /** The ranking's members and order, in stock terms. */
  lemma LowStockShape(table: seq<DashProduct>, low: seq<DashProduct>, r: seq<DashProduct>)
    requires low == Filter(table, IsLowStock)
    requires multiset(r) <= multiset(low) && NonIncreasing(r, NegatedStock)
    ensures forall p | p in r :: p in table && p.stockQuantity <= 10
    ensures forall i, j :: 0 <= i < j < |r| ==> r[i].stockQuantity <= r[j].stockQuantity
  {
    forall p | p in r ensures p in low {
      assert p in multiset(r);
    }
    forall i, j | 0 <= i < j < |r| ensures r[i].stockQuantity <= r[j].stockQuantity {
      assert NegatedStock(r[i]) >= NegatedStock(r[j]);
    }
  }

  /** The ranking's bound on what it leaves out, in stock terms. */
  lemma LowStockLeftOut(table: seq<DashProduct>, low: seq<DashProduct>, r: seq<DashProduct>)
    requires low == Filter(table, IsLowStock)
    requires forall i, z :: 0 <= i < |r| && multiset(r)[z] < multiset(low)[z] ==> NegatedStock(z) <= NegatedStock(r[i])
    ensures forall p, i :: 0 <= i < |r| && multiset(r)[p] < multiset(low)[p] ==> r[i].stockQuantity <= p.stockQuantity
    ensures forall p, i :: p in table && IsLowStock(p) && p !in r && 0 <= i < |r| ==> r[i].stockQuantity <= p.stockQuantity
  {
    forall p, i | 0 <= i < |r| && multiset(r)[p] < multiset(low)[p] ensures r[i].stockQuantity <= p.stockQuantity {
      assert NegatedStock(p) <= NegatedStock(r[i]);
    }
    AbsentIsFewer(r, low, NegatedStock);
    forall p, i | p in table && IsLowStock(p) && p !in r && 0 <= i < |r|
      ensures r[i].stockQuantity <= p.stockQuantity
    {
      assert NegatedStock(p) <= NegatedStock(r[i]);
    }
  }

  /** The low-stock count query. */
  function LowStockCount(table: seq<DashProduct>): (n: nat)
    ensures n == |Filter(table, IsLowStock)|
    ensures n <= |table|
    ensures n == 0 <==> forall p | p in table :: p.stockQuantity > 10
    ensures n == |table| <==> forall p | p in table :: p.stockQuantity <= 10
  {
    FilterLengthExtremes(table, IsLowStock);
    |Filter(table, IsLowStock)|
  }

  /** The list shows all low-stock products when there are at most five, and five otherwise. */
  lemma LowStockListFitsCount(table: seq<DashProduct>)
    ensures |LowStockList(table)| <= LowStockCount(table)
    ensures LowStockCount(table) <= 5 ==> multiset(LowStockList(table)) == multiset(Filter(table, IsLowStock))
  {
    var low := Filter(table, IsLowStock);
    if |low| <= 5 {
      var r := LowStockList(table);
      assert multiset(r) <= multiset(low);
      assert |multiset(r)| == |multiset(low)|;
      MultisetSubsetSameSize(multiset(r), multiset(low));
    }
  }

  lemma MultisetSubsetSameSize<T>(a: multiset<T>, b: multiset<T>)
    requires a <= b && |a| == |b|
    ensures a == b
  {
    var rest := b - a;
    assert b == a + rest;
    assert |rest| == 0;
  }

  // ---------------------------------------------------------------- expiring lots

  /** A `product_lots` row; `expiry_date` as a day number. */
  datatype Lot = Lot(id: string, lotNumber: string, expiryDate: Option<int>, quantity: int, productId: string)

  /** Today's day number and the one 30 days on, reached with `setDate(getDate() + 30)`. */
  function ExpiryWindow(now: DateTime): (w: (int, int))
    requires Valid(now)
    ensures w.0 == DayNumber(now) && w.1 == DayNumber(now) + 30
  {
    (DayNumber(now), DayNumber(ShiftDays(now, 30)))
  }

  function IsExpiring(from: int, to: int): Lot -> bool {
    (lot: Lot) => lot.expiryDate.Some? && from <= lot.expiryDate.value <= to && lot.quantity > 0
  }

  function NegatedExpiry(lot: Lot): int {
    -lot.expiryDate.GetOr(0)
  }

  /** The lots of the expiring-lots query, in table order. */
  function ExpiringRows(table: seq<Lot>, now: DateTime): seq<Lot>
    requires Valid(now)
  {
    var w := ExpiryWindow(now);
    Filter(table, IsExpiring(w.0, w.1))
  }

  /** The expiring-lots query: lots with stock left expiring today or in the next 30 days,
      soonest first. */
  function ExpiringLots(table: seq<Lot>, now: DateTime): (r: seq<Lot>)
    requires Valid(now)
    ensures forall lot :: lot in r <==> (lot in table && lot.expiryDate.Some? && lot.quantity > 0 &&
      DayNumber(now) <= lot.expiryDate.value <= DayNumber(now) + 30)
    ensures forall i, j :: 0 <= i < j < |r| ==> r[i].expiryDate.GetOr(0) <= r[j].expiryDate.GetOr(0)
    ensures |r| == |ExpiringRows(table, now)|
    ensures multiset(r) == multiset(ExpiringRows(table, now))
  {
    var kept := ExpiringRows(table, now);
    var r := SortDesc(kept, NegatedExpiry);
    SameMembers(r, kept);
    forall i, j | 0 <= i < j < |r| ensures r[i].expiryDate.GetOr(0) <= r[j].expiryDate.GetOr(0) {
      assert NegatedExpiry(r[i]) >= NegatedExpiry(r[j]);
    }
    r
  }

  /** The expiring count query uses the same filters. */
  function ExpiringCount(table: seq<Lot>, now: DateTime): (n: nat)
    requires Valid(now)
    ensures n <= |table|
    ensures n == |ExpiringLots(table, now)|
    ensures n == 0 <==> forall lot | lot in table ::
      !(lot.expiryDate.Some? && lot.quantity > 0 && DayNumber(now) <= lot.expiryDate.value <= DayNumber(now) + 30)
  {
    var w := ExpiryWindow(now);
    FilterLengthExtremes(table, IsExpiring(w.0, w.1));
    |ExpiringRows(table, now)|
  }

  function LotProduct(lot: Lot): string {
    lot.productId
  }

  /** `[...new Set(lots.map(lot => lot.product_id))]`. */
  function ProductIds(lots: seq<Lot>): (r: seq<string>)
    ensures forall id :: id in r <==> exists lot :: lot in lots && lot.productId == id
    ensures NoDuplicates(r)
  {
    var ids := seq(|lots|, i requires 0 <= i < |lots| => lots[i].productId);
    var r := Distinct(ids);
    forall id | id in r ensures exists lot :: lot in lots && lot.productId == id {
      var i :| 0 <= i < |ids| && ids[i] == id;
      assert lots[i] in lots;
    }
    forall lot | lot in lots ensures lot.productId in r {
      var i :| 0 <= i < |lots| && lots[i] == lot;
      assert ids[i] == lot.productId;
    }
    r
  }

  /** A `products` row of the name lookup; the name may be missing. */
  datatype ProductInfo = ProductInfo(id: string, name: Option<string>)

  /** `infos.find(p => p.id === id)`: the first row with that id. */
  function FindProduct(infos: seq<ProductInfo>, id: string): (r: Option<ProductInfo>)
    ensures r.None? <==> forall p | p in infos :: p.id != id
    ensures r.Some? ==> r.value in infos && r.value.id == id
  {
    if infos == [] then None
    else if infos[0].id == id then Some(infos[0])
    else FindProduct(infos[1..], id)
  }

  /** The row found is the first with the id. */
  lemma {:induction false} FindProductFirst(infos: seq<ProductInfo>, id: string, k: nat)
    requires k < |infos| && infos[k].id == id
    requires forall j :: 0 <= j < k ==> infos[j].id != id
    ensures FindProduct(infos, id) == Some(infos[k])
  {
    if k > 0 {
      FindProductFirst(infos[1..], id, k - 1);
    }
  }

  /** `find(...)?.name || \`Producto ID: ${id}\``: a missing row, a missing name and an
      empty name all fall back to the id. */
  function NameFor(infos: Option<seq<ProductInfo>>, id: string): (name: string)
    ensures name != ""
    ensures infos.None? ==> name == "Producto ID: " + id
    ensures infos.Some? && (FindProduct(infos.value, id).None? || FindProduct(infos.value, id).value.name.GetOr("") == "") ==>
      name == "Producto ID: " + id
    ensures infos.Some? && FindProduct(infos.value, id).Some? && FindProduct(infos.value, id).value.name.GetOr("") != "" ==>
      name == FindProduct(infos.value, id).value.name.value
  {
    var found := if infos.None? then None else FindProduct(infos.value, id);
    if found.Some? && found.value.name.GetOr("") != "" then found.value.name.value else "Producto ID: " + id
  }

  /** A lot with the name of its product attached. */
  datatype ExpiringProduct = ExpiringProduct(lot: Lot, productName: string)

  /** The merge step; empty when the query gave no lots. */
  function FinalExpiringProducts(lots: Option<seq<Lot>>, infos: Option<seq<ProductInfo>>): (r: seq<ExpiringProduct>)
    ensures lots.None? || lots.value == [] ==> r == []
    ensures lots.Some? ==> |r| == |lots.value|
    ensures lots.Some? ==> forall i :: 0 <= i < |r| ==> r[i].lot == lots.value[i] && r[i].productName == NameFor(infos, lots.value[i].productId)
  {
    if lots.None? || lots.value == [] then []
    else seq(|lots.value|, i requires 0 <= i < |lots.value| => ExpiringProduct(lots.value[i], NameFor(infos, lots.value[i].productId)))
  }

  /** The lookup query: the products whose id is among the lots' product ids. */
  function NameLookup(products: seq<ProductInfo>, lots: seq<Lot>): (r: seq<ProductInfo>)
    ensures forall p :: p in r <==> p in products && exists lot :: lot in lots && lot.productId == p.id
  {
    var ids := ProductIds(lots);
    Filter(products, (p: ProductInfo) => p.id in ids)
  }

  /** Looking names up among only the lots' products finds the same first row as
      looking among all products, so the id filter never changes a shown name. */
  lemma {:induction false} LookupFindsSameRow(products: seq<ProductInfo>, ids: seq<string>, id: string)
    requires id in ids
    ensures FindProduct(Filter(products, (p: ProductInfo) => p.id in ids), id) == FindProduct(products, id)
  {
    if products != [] {
      LookupFindsSameRow(products[1..], ids, id);
    }
  }

  lemma LookupKeepsNames(products: seq<ProductInfo>, lots: seq<Lot>, lot: Lot)
    requires lot in lots
    ensures NameFor(Some(NameLookup(products, lots)), lot.productId) == NameFor(Some(products), lot.productId)
  {
    LookupFindsSameRow(products, ProductIds(lots), lot.productId);
  }

  /** The expiring count on the card equals the length of the expiring list it heads. */
  lemma ExpiringCardMatchesList(table: seq<Lot>, now: DateTime, infos: Option<seq<ProductInfo>>)
    requires Valid(now)
    ensures ExpiringCount(table, now) == |FinalExpiringProducts(Some(ExpiringLots(table, now)), infos)|
  {
  }

  /** `formatDate`: an empty date string shows as unavailable; `format` stands for
      `toLocaleDateString('es-ES', ...)`, which does not throw. */
  function FormatDate(dateString: string, format: string -> string): (r: string)
    ensures dateString == "" ==> r == "Fecha no disponible"
    ensures dateString != "" ==> r == format(dateString)
  {
    if dateString == "" then "Fecha no disponible" else format(dateString)
  }
}
