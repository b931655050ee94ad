/** The purchases screen: rows joined with their supplier's (or product's) name and
    flattened, the three tab filters, the status labels, and the row a new purchase
    order is inserted with. */
module Purchases {
  import opened Optional
  import opened Seqs
  import opened Text

  // ---------------------------------------------------------------- flattening

  /** A row as the join returns it: its own fields and the joined table's `name`. */
  datatype Joined<R> = Joined(row: R, joinedName: string)

  /** A flattened row: the same fields plus `supplier_name` (or `product_name`). */
  datatype Flat<R> = Flat(row: R, name: string)

  /** `data?.map(x => ({ ...x, supplier_name: x.suppliers.name })) || []`. */
  function Flatten<R>(data: Option<seq<Joined<R>>>): (r: seq<Flat<R>>)
    ensures data.None? ==> r == []
    ensures data.Some? ==> |r| == |data.value|
    ensures data.Some? ==> forall i :: 0 <= i < |r| ==> r[i].row == data.value[i].row && r[i].name == data.value[i].joinedName
  {
    match data
    case None => []
    case Some(rows) => seq(|rows|, i requires 0 <= i < |rows| => Flat(rows[i].row, rows[i].joinedName))
  }

  /** Putting the name back under the join gives the rows the query returned: flattening loses nothing. */
  function Unflatten<R>(flat: seq<Flat<R>>): seq<Joined<R>> {
    seq(|flat|, i requires 0 <= i < |flat| => Joined(flat[i].row, flat[i].name))
  }

  lemma FlattenRoundTrip<R>(rows: seq<Joined<R>>)
    ensures Unflatten(Flatten(Some(rows))) == rows
  {
  }

  /** A `purchase_orders` row. */
  datatype PurchaseOrder = PurchaseOrder(id: int, orderNumber: string, supplierId: string, status: string,
                                         totalAmount: int, orderDate: int, expectedDelivery: string, notes: string)

  /** A `supplier_invoices` row. */
  datatype SupplierInvoice = SupplierInvoice(id: int, invoiceNumber: string, status: string, total: int)

  /** A `purchase_order_items` row. */
  datatype OrderItem = OrderItem(id: int, productId: string, quantity: int, unitCost: int)

  datatype Supplier = Supplier(id: int, name: string, email: string)

  // ---------------------------------------------------------------- tab filters

  predicate OrderMatches(o: Flat<PurchaseOrder>, term: string) {
    MatchesIgnoringCase(o.row.orderNumber, term) || MatchesIgnoringCase(o.name, term)
  }

  function OrderShown(term: string): Flat<PurchaseOrder> -> bool {
    (o: Flat<PurchaseOrder>) => OrderMatches(o, term)
  }

  /** The orders tab: order number or supplier name contains the term, ignoring case. */
  function FilteredOrders(orders: seq<Flat<PurchaseOrder>>, term: string): (r: seq<Flat<PurchaseOrder>>)
    ensures forall o :: o in r <==> o in orders && OrderMatches(o, term)
  {
    Filter(orders, OrderShown(term))
  }

  predicate SupplierMatches(s: Supplier, term: string) {
    MatchesIgnoringCase(s.name, term) || MatchesIgnoringCase(s.email, term)
  }

  function SupplierShown(term: string): Supplier -> bool {
    (s: Supplier) => SupplierMatches(s, term)
  }

  /** The suppliers tab: name or e-mail contains the term, ignoring case. */
  function FilteredSuppliers(suppliers: seq<Supplier>, term: string): (r: seq<Supplier>)
    ensures forall s :: s in r <==> s in suppliers && SupplierMatches(s, term)
  {
    Filter(suppliers, SupplierShown(term))
  }

  predicate InvoiceMatches(v: Flat<SupplierInvoice>, term: string) {
    MatchesIgnoringCase(v.row.invoiceNumber, term) || MatchesIgnoringCase(v.name, term)
  }

  function InvoiceShown(term: string): Flat<SupplierInvoice> -> bool {
    (v: Flat<SupplierInvoice>) => InvoiceMatches(v, term)
  }

  /** The invoices tab: invoice number or supplier name contains the term, ignoring case. */
  function FilteredInvoices(invoices: seq<Flat<SupplierInvoice>>, term: string): (r: seq<Flat<SupplierInvoice>>)
    ensures forall v :: v in r <==> v in invoices && InvoiceMatches(v, term)
  {
    Filter(invoices, InvoiceShown(term))
  }

  /** Each tab keeps its list's order. */
  lemma TabsKeepOrder(orders: seq<Flat<PurchaseOrder>>, suppliers: seq<Supplier>, invoices: seq<Flat<SupplierInvoice>>, term: string)
    ensures IsSubsequence(FilteredOrders(orders, term), orders)
    ensures IsSubsequence(FilteredSuppliers(suppliers, term), suppliers)
    ensures IsSubsequence(FilteredInvoices(invoices, term), invoices)
  {
    FilterIsSubsequence(orders, OrderShown(term));
    FilterIsSubsequence(suppliers, SupplierShown(term));
    FilterIsSubsequence(invoices, InvoiceShown(term));
  }

  /** A search for a supplier's name finds, on the orders tab, every order of that supplier. */
  lemma SupplierNameFindsItsOrders(orders: seq<Flat<PurchaseOrder>>, o: Flat<PurchaseOrder>)
    requires o in orders
    ensures o in FilteredOrders(orders, o.name)
  {
    MatchesWhenContained(o.name, o.name, 0);
  }

  // ---------------------------------------------------------------- status

  const OrderStatuses: set<string> := {"pending", "approved", "received", "cancelled"}

  /** `getStatusText`. */
  function GetStatusText(status: string): (r: string)
    ensures r == status <==> status !in OrderStatuses
    ensures status == "pending" ==> r == "Pendiente"
    ensures status == "approved" ==> r == "Aprobada"
    ensures status == "received" ==> r == "Recibida"
    ensures status == "cancelled" ==> r == "Cancelada"
  {
    match status
    case "pending" => "Pendiente"
    case "approved" => "Aprobada"
    case "received" => "Recibida"
    case "cancelled" => "Cancelada"
    case _ => status
  }

  /** `getStatusColor`. */
  function GetStatusColor(status: string): (r: string)
    ensures r == "bg-gray-100 text-gray-800" <==> status !in OrderStatuses
  {
    match status
    case "pending" => "bg-yellow-100 text-yellow-800"
    case "approved" => "bg-blue-100 text-blue-800"
    case "received" => "bg-green-100 text-green-800"
    case "cancelled" => "bg-red-100 text-red-800"
    case _ => "bg-gray-100 text-gray-800"
  }

  // ---------------------------------------------------------------- new order

  datatype OrderForm = OrderForm(supplierId: string, expectedDelivery: string, notes: string)

  /** The form after a successful submit. */
  const EmptyOrderForm: OrderForm := OrderForm("", "", "")

  /** The inserted order: the form's fields, `PO-` and the clock in ms as its number,
      now as its date, status 'pending' and a zero total. */
  function NewOrder(form: OrderForm, nowMs: nat, id: int): (o: PurchaseOrder)
    ensures o.status == "pending" && o.totalAmount == 0 && o.orderDate == nowMs
    ensures o.supplierId == form.supplierId && o.expectedDelivery == form.expectedDelivery && o.notes == form.notes
    ensures |o.orderNumber| > 3 && o.orderNumber[..3] == "PO-" && o.orderNumber[3..] == NatToString(nowMs)
  {
    PurchaseOrder(id, "PO-" + NatToString(nowMs), form.supplierId, "pending", 0, nowMs,
                  form.expectedDelivery, form.notes)
  }

  /** Orders created at different milliseconds get different numbers. */
  lemma OrderNumbersDistinct(form1: OrderForm, form2: OrderForm, t1: nat, t2: nat, id1: int, id2: int)
    requires t1 != t2
    ensures NewOrder(form1, t1, id1).orderNumber != NewOrder(form2, t2, id2).orderNumber
  {
    var n1, n2 := NewOrder(form1, t1, id1).orderNumber, NewOrder(form2, t2, id2).orderNumber;
    if n1 == n2 {
      assert n1[3..] == n2[3..];
      NatToStringInjective(t1, t2);
    }
  }

  /** A new order shows as 'Pendiente'. */
  lemma NewOrderShowsPending(form: OrderForm, nowMs: nat, id: int)
    ensures GetStatusText(NewOrder(form, nowMs, id).status) == "Pendiente"
  {
  }
}
