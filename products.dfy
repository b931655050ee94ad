/** The product list screen: stock status classification, the search and category
    filter, category labels, the Excel export's choice of rows and summary counts,
    and the append after a product is added. */
module Products {
  import opened Optional
  import opened Seqs
  import opened Text

  /** A `products` row; `price` in cents. */
  datatype Product = Product(id: string, code: string, name: string, activeIngredient: string,
                             laboratory: string, category: string, price: int,
                             stockQuantity: int, minStock: int, requiresPrescription: bool, isActive: bool)

  // ---------------------------------------------------------------- stock status

  datatype StockStatus = StockStatus(text: string, color: string)

  /** `getStockStatus`: no stock first, then at or under the minimum, else normal. */
  function GetStockStatus(p: Product): (r: StockStatus)
    ensures r.text == "Sin Stock" <==> p.stockQuantity == 0
    ensures r.text == "Stock Bajo" <==> p.stockQuantity != 0 && p.stockQuantity <= p.minStock
    ensures r.text == "Stock Normal" <==> p.stockQuantity != 0 && p.stockQuantity > p.minStock
    ensures r.text == "Sin Stock" ==> r.color == "bg-red-100 text-red-800"
    ensures r.text == "Stock Bajo" ==> r.color == "bg-yellow-100 text-yellow-800"
    ensures r.text == "Stock Normal" ==> r.color == "bg-green-100 text-green-800"
  {
    if p.stockQuantity == 0 then StockStatus("Sin Stock", "bg-red-100 text-red-800")
    else if p.stockQuantity <= p.minStock then StockStatus("Stock Bajo", "bg-yellow-100 text-yellow-800")
    else StockStatus("Stock Normal", "bg-green-100 text-green-800")
  }

  /** The warning icon next to the stock figure. */
  predicate ShowsWarning(p: Product) {
    p.stockQuantity <= p.minStock
  }

  /** With no negative figures the badge is normal exactly when the icon is hidden;
      an empty product shows the icon and 'Sin Stock', even with a minimum of 0. */
  lemma BadgeAgreesWithIcon(p: Product)
    requires p.stockQuantity >= 0 && p.minStock >= 0
    ensures GetStockStatus(p).text == "Stock Normal" <==> !ShowsWarning(p)
    ensures p.stockQuantity == 0 ==> ShowsWarning(p) && GetStockStatus(p).text == "Sin Stock"
  {
  }

  // ---------------------------------------------------------------- filter

  /** The name, code or active ingredient contains the term, ignoring case. */
  predicate MatchesSearch(p: Product, term: string) {
    MatchesIgnoringCase(p.name, term) || MatchesIgnoringCase(p.code, term) || MatchesIgnoringCase(p.activeIngredient, term)
  }

  predicate MatchesCategory(p: Product, selected: string) {
    selected == "all" || p.category == selected
  }

  function Shown(term: string, selected: string): Product -> bool {
    (p: Product) => MatchesSearch(p, term) && MatchesCategory(p, selected)
  }

  /** `filteredProducts`. */
  function FilteredProducts(products: seq<Product>, term: string, selected: string): (r: seq<Product>)
    ensures forall p :: p in r <==> p in products && MatchesSearch(p, term) && MatchesCategory(p, selected)
  {
    Filter(products, Shown(term, selected))
  }

  /** The filter keeps the list's order and each kept product as often as it occurs. */
  lemma FilteredProductsKeepOrder(products: seq<Product>, term: string, selected: string)
    ensures IsSubsequence(FilteredProducts(products, term, selected), products)
    ensures forall p | p in FilteredProducts(products, term, selected) ::
      multiset(FilteredProducts(products, term, selected))[p] == multiset(products)[p]
  {
    FilterIsSubsequence(products, Shown(term, selected));
    FilterCounts(products, Shown(term, selected));
  }

  /** An empty search with every category shows the whole list. */
  lemma EmptySearchShowsAll(products: seq<Product>)
    ensures FilteredProducts(products, "", "all") == products
  {
    forall p | p in products ensures Shown("", "all")(p) {
      MatchesEmptyTerm(p.name);
    }
    FilterKeepsAll(products, Shown("", "all"));
  }

  // ---------------------------------------------------------------- category label

  /** `getCategoryLabel`: the Spanish label of a known category, any other key unchanged. */
  function GetCategoryLabel(category: string): (r: string)
    ensures r == category <==> category !in {"generic", "brand", "otc", "controlled"}
    ensures category == "generic" ==> r == "Genérico"
    ensures category == "brand" ==> r == "Marca"
    ensures category == "otc" ==> r == "Venta Libre"
    ensures category == "controlled" ==> r == "Controlado"
  {
    match category
    case "generic" => "Genérico"
    case "brand" => "Marca"
    case "otc" => "Venta Libre"
    case "controlled" => "Controlado"
    case _ => category
  }

  /** Different known categories get different labels. */
  lemma CategoryLabelsDistinct(a: string, b: string)
    requires a in {"generic", "brand", "otc", "controlled"} && b in {"generic", "brand", "otc", "controlled"}
    requires a != b
    ensures GetCategoryLabel(a) != GetCategoryLabel(b)
  {
  }

  // ---------------------------------------------------------------- export

  /** The rows `exportToExcel` writes: all products or the filtered ones, refused when empty. */
  function ExportList(products: seq<Product>, term: string, selected: string, exportAll: bool): (r: Result<seq<Product>, string>)
    ensures var chosen := if exportAll then products else FilteredProducts(products, term, selected);
      (r.Failure? <==> chosen == []) && (r.Success? ==> r.value == chosen)
    ensures r.Failure? ==> r.error == "No hay productos para exportar"
  {
    var chosen := if exportAll then products else FilteredProducts(products, term, selected);
    if |chosen| == 0 then Failure("No hay productos para exportar") else Success(chosen)
  }

  /** Exporting all is refused only for an empty catalogue, and a refused filtered export
      means no product passes the filter. */
  lemma ExportRefusals(products: seq<Product>, term: string, selected: string)
    ensures ExportList(products, term, selected, true).Failure? <==> products == []
    ensures ExportList(products, term, selected, false).Failure? <==>
      forall p | p in products :: !(MatchesSearch(p, term) && MatchesCategory(p, selected))
  {
    var f := FilteredProducts(products, term, selected);
    if f != [] {
      assert f[0] in f;
    }
  }

  predicate AtOrUnderMinimum(p: Product) {
    p.stockQuantity <= p.minStock
  }

  predicate OutOfStock(p: Product) {
    p.stockQuantity == 0
  }

  /** The summary counts of the export sheet: low stock and no stock. */
  function ExportCounts(rows: seq<Product>): (counts: (nat, nat))
    ensures counts == (|Filter(rows, AtOrUnderMinimum)|, |Filter(rows, OutOfStock)|)
    ensures counts.0 <= |rows| && counts.1 <= |rows|
  {
    (|Filter(rows, AtOrUnderMinimum)|, |Filter(rows, OutOfStock)|)
  }

  /** With no negative minimum, every product out of stock is also counted as low. */
  lemma NoStockAtMostLowStock(rows: seq<Product>)
    requires forall p | p in rows :: p.minStock >= 0
    ensures ExportCounts(rows).1 <= ExportCounts(rows).0
  {
    FilterStrongerIsShorter(rows, OutOfStock, AtOrUnderMinimum);
  }

  predicate NotNormal(p: Product) {
    GetStockStatus(p).text != "Stock Normal"
  }

  /** With no negative figures the low-stock count is the number of badges other than normal. */
  lemma LowStockCountMatchesBadges(rows: seq<Product>)
    requires forall p | p in rows :: p.stockQuantity >= 0 && p.minStock >= 0
    ensures ExportCounts(rows).0 == |Filter(rows, NotNormal)|
  {
    FilterCongruent(rows, AtOrUnderMinimum, NotNormal);
  }

  // ---------------------------------------------------------------- add product

  /** The add-product form, every field as typed. */
  datatype ProductForm = ProductForm(name: string, code: string, activeIngredient: string, laboratory: string,
                                     category: string, price: string, stockQuantity: string, minStock: string,
                                     description: string, requiresPrescription: bool)

  /** `resetForm`: empty fields, category 'generic', no prescription required. */
  const EmptyProductForm: ProductForm := ProductForm("", "", "", "", "generic", "", "", "", "", false)

  /** The screen's state touched by `handleAddProduct`. */
  class ProductListState {
    var products: seq<Product>
    var showAddModal: bool
    var form: ProductForm

    constructor (loaded: seq<Product>)
      ensures products == loaded && !showAddModal && form == EmptyProductForm
    {
      products := loaded;
      showAddModal := false;
      form := EmptyProductForm;
    }

    /** The insert's answer: the stored row, or an error that only raises a toast. */
    method HandleAdd(inserted: Result<Product, string>)
      modifies this
      ensures inserted.Success? ==> products == old(products) + [inserted.value] && !showAddModal && form == EmptyProductForm
      ensures inserted.Failure? ==> products == old(products) && showAddModal == old(showAddModal) && form == old(form)
    {
      if inserted.Success? {
        products := products + [inserted.value];
        showAddModal := false;
        form := EmptyProductForm;
      }
    }
  }
}
