/** The sortable product table: a search box, a favorites-only switch and a
    header per column that picks the sort column or flips its direction. */
module ProductTable {
  import opened Types
  import opened Sorting
  import opened Catalog

  class Table {
    var search: string
    var sortField: SortField
    var sortDirection: SortDirection
    var showFavoritesOnly: bool

    /** The table opens unsearched, on every product, by 7-day APY, highest first. */
    constructor ()
      ensures search == "" && sortField == Apy7d && sortDirection == Desc && !showFavoritesOnly
    {
      search := "";
      sortField := Apy7d;
      sortDirection := Desc;
      showFavoritesOnly := false;
    }

    method SetSearch(text: string)
      modifies this`search
      ensures search == text
    {
      search := text;
    }

    method ToggleFavoritesOnly()
      modifies this`showFavoritesOnly
      ensures showFavoritesOnly == !old(showFavoritesOnly)
    {
      showFavoritesOnly := !showFavoritesOnly;
    }

    /** `handleSort`: the current column's header flips the direction; another
        column's header selects it, highest first. */
    method HandleSort(field: SortField)
      modifies this`sortField, this`sortDirection
      ensures sortField == field
      ensures old(sortField) == field ==> sortDirection != old(sortDirection)
      ensures old(sortField) != field ==> sortDirection == Desc
    {
      if sortField == field {
        sortDirection := if sortDirection == Asc then Desc else Asc;
      } else {
        sortField := field;
        sortDirection := Desc;
      }
    }

    /** `filteredProducts`: the visible products, sorted by the chosen column in
        the chosen direction; the catalog, a value here, is not touched. */
    method FilteredProducts(catalog: seq<Product>, favorites: seq<string>) returns (products: seq<Product>)
      ensures multiset(products) == multiset(Visible(catalog, search, showFavoritesOnly, favorites))
      ensures forall i, j :: 0 <= i < j < |products| ==> InOrder(sortField, sortDirection, products[i], products[j])
    {
      products := Visible(catalog, search, showFavoritesOnly, favorites);
      TableLeIsTotalPreorder(sortField, sortDirection);
      products := SortedCopy(products, TableLe(sortField, sortDirection));
      SortedInOrder(products, sortField, sortDirection);
    }
  }

  /** Two clicks on the same header return to the first direction. */
  method SameHeaderTwice(t: Table, field: SortField)
    requires t.sortField == field
    modifies t
    ensures t.sortField == old(t.sortField) && t.sortDirection == old(t.sortDirection)
  {
    t.HandleSort(field);
    t.HandleSort(field);
  }
}
