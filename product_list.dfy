/** The card list of products: the same search and favorites filters as the
    table, three fixed sort modes, and the detail page in place of the list
    once a product is selected. */
module ProductList {
  import opened Seqs
  import opened Types
  import opened Sorting
  import opened Catalog

  /** The sort selector's three choices. */
  datatype SortBy = ByApy | ByFee | ByName

  /** "`a` may come before `b`" under the list's comparator for the mode. */
  function ListLe(sortBy: SortBy): (Product, Product) -> bool {
    match sortBy
    case ByApy => (a: Product, b: Product) => b.apy7d - a.apy7d <= 0.0
    case ByFee => (a: Product, b: Product) => a.managementFee - b.managementFee <= 0.0
    case ByName => (a: Product, b: Product) => LocaleCompare(a.name, b.name) <= 0.0
  }

  /** The table column and direction that order products the same way. */
  function TableColumn(sortBy: SortBy): (SortField, SortDirection) {
    match sortBy
    case ByApy => (Apy7d, Desc)
    case ByFee => (ManagementFee, Asc)
    case ByName => (Name, Asc)
  }

  /** Each list mode compares exactly as the matching table header does:
      APY highest first, management fee lowest first, names ascending. */
  lemma ListLeIsTableLe(sortBy: SortBy, a: Product, b: Product)
    ensures ListLe(sortBy)(a, b) == TableLe(TableColumn(sortBy).0, TableColumn(sortBy).1)(a, b)
  {
  }

  /** The mode's order, stated on the products' fields. */
  predicate ModeOrder(sortBy: SortBy, a: Product, b: Product) {
    match sortBy
    case ByApy => a.apy7d >= b.apy7d
    case ByFee => a.managementFee <= b.managementFee
    case ByName => LexLe(a.name, b.name)
  }

  lemma ModeOrderIsInOrder(sortBy: SortBy, a: Product, b: Product)
    ensures ModeOrder(sortBy, a, b) <==> InOrder(TableColumn(sortBy).0, TableColumn(sortBy).1, a, b)
  {
  }

  /** `filteredProducts`: the visible products, sorted by the selected mode. */
  method FilteredProducts(catalog: seq<Product>, search: string, sortBy: SortBy, showFavoritesOnly: bool,
                          favorites: seq<string>) returns (products: seq<Product>)
    ensures multiset(products) == multiset(Visible(catalog, search, showFavoritesOnly, favorites))
    ensures forall i, j :: 0 <= i < j < |products| ==> ModeOrder(sortBy, products[i], products[j])
  {
    products := Visible(catalog, search, showFavoritesOnly, favorites);
    var (field, direction) := TableColumn(sortBy);
    TableLeIsTotalPreorder(field, direction);
    assert IsTotalPreorder(ListLe(sortBy)) by {
      forall a, b ensures ListLe(sortBy)(a, b) == TableLe(field, direction)(a, b) {
        ListLeIsTableLe(sortBy, a, b);
      }
    }
    products := SortedCopy(products, ListLe(sortBy));
    forall i, j | 0 <= i < j < |products| ensures ModeOrder(sortBy, products[i], products[j]) {
      ListLeIsTableLe(sortBy, products[i], products[j]);
      TableLeOrder(field, direction, products[i], products[j]);
      ModeOrderIsInOrder(sortBy, products[i], products[j]);
    }
  }

  /** What the page shows. */
  datatype View = Detail(product: Product) | Listing

  /** The detail page of the selected product when the catalog has it,
      otherwise the list. */
  function PageView(catalog: seq<Product>, selectedProductId: Option<string>): (v: View)
    ensures v.Detail? <==> selectedProductId.Some?
                           && exists i :: 0 <= i < |catalog| && catalog[i].id == selectedProductId.value
    ensures v.Detail? ==> v.product in catalog && v.product.id == selectedProductId.value
  {
    match ProductById(catalog, selectedProductId)
    case Some(p) => Detail(p)
    case None => Listing
  }
}
