/** The sales screen: the search filter and the three label lookups, each falling back
    to the raw value (or grey) for a key it does not know. */
module Sales {
  import opened Optional
  import opened Seqs
  import opened Text

  /** A `sales` row with its customer's name, when the join found one. */
  datatype SaleListRow = SaleListRow(id: string, invoiceNumber: string, customerName: Option<string>,
                                     paymentMethod: string, status: string, total: int)

  predicate MatchesSale(s: SaleListRow, term: string) {
    MatchesIgnoringCase(s.invoiceNumber, term) || MatchesIgnoringCase(s.customerName.GetOr(""), term)
  }

  function SaleShown(term: string): SaleListRow -> bool {
    (s: SaleListRow) => MatchesSale(s, term)
  }

  /** `filteredSales`: the invoice number or the customer's name contains the term, ignoring case. */
  function FilteredSales(sales: seq<SaleListRow>, term: string): (r: seq<SaleListRow>)
    ensures forall s :: s in r <==> s in sales && MatchesSale(s, term)
  {
    Filter(sales, SaleShown(term))
  }

  lemma FilteredSalesKeepOrder(sales: seq<SaleListRow>, term: string)
    ensures IsSubsequence(FilteredSales(sales, term), sales)
  {
    FilterIsSubsequence(sales, SaleShown(term));
  }

  /** An empty search shows every sale. */
  lemma EmptySearchShowsAllSales(sales: seq<SaleListRow>)
    ensures FilteredSales(sales, "") == sales
  {
    forall s | s in sales ensures SaleShown("")(s) {
      MatchesEmptyTerm(s.invoiceNumber);
    }
    FilterKeepsAll(sales, SaleShown(""));
  }

  const SaleStatuses: set<string> := {"completed", "cancelled", "refunded"}

  /** `getStatusColor`. */
  function GetStatusColor(status: string): (r: string)
    ensures r == "bg-gray-100 text-gray-800" <==> status !in SaleStatuses
  {
    match status
    case "completed" => "bg-green-100 text-green-800"
    case "cancelled" => "bg-red-100 text-red-800"
    case "refunded" => "bg-yellow-100 text-yellow-800"
    case _ => "bg-gray-100 text-gray-800"
  }

  /** `getStatusLabel`. */
  function GetStatusLabel(status: string): (r: string)
    ensures r == status <==> status !in SaleStatuses
    ensures status == "completed" ==> r == "Completada"
    ensures status == "cancelled" ==> r == "Cancelada"
    ensures status == "refunded" ==> r == "Devuelta"
  {
    match status
    case "completed" => "Completada"
    case "cancelled" => "Cancelada"
    case "refunded" => "Devuelta"
    case _ => status
  }

  const PaymentMethods: set<string> := {"cash", "card", "transfer"}

  /** `getPaymentMethodLabel`. */
  function GetPaymentMethodLabel(paymentMethod: string): (r: string)
    ensures r == paymentMethod <==> paymentMethod !in PaymentMethods
    ensures paymentMethod == "cash" ==> r == "Efectivo"
    ensures paymentMethod == "card" ==> r == "Tarjeta"
    ensures paymentMethod == "transfer" ==> r == "Transferencia"
  {
    match paymentMethod
    case "cash" => "Efectivo"
    case "card" => "Tarjeta"
    case "transfer" => "Transferencia"
    case _ => paymentMethod
  }

  /** Every status the sale type declares gets its own label and its own colour. */
  lemma KnownStatusesDistinguished(a: string, b: string)
    requires a in SaleStatuses && b in SaleStatuses && a != b
    ensures GetStatusLabel(a) != GetStatusLabel(b) && GetStatusColor(a) != GetStatusColor(b)
  {
  }
}
