/** The inventory table: the fragrance item record and its stock status, the
    search-and-status filter over the items, and the +/- stock buttons. */
module InventoryTable {
  import opened Common

  datatype StockStatus = InStock | LowStock | OutOfStock

  /** The status strings the items carry and the filter menu offers. */
  function StatusName(s: StockStatus): string {
    match s
    case InStock => "in-stock"
    case LowStock => "low-stock"
    case OutOfStock => "out-of-stock"
  }

  datatype FragranceItem = FragranceItem(
    id: string,
    sku: string,
    name: string,
    currentStock: int,
    lowStockThreshold: int,
    etsyListings: int,
    wooListings: int,
    lastUpdated: string,
    status: StockStatus)

  /** The three-way stock classifier: no stock is out of stock, stock up to the
      threshold is low, anything above is in stock. */
  function StatusFor(stock: int, threshold: int): (s: StockStatus)
    ensures s == OutOfStock <==> stock == 0
    ensures s == LowStock <==> stock != 0 && stock <= threshold
    ensures s == InStock <==> stock != 0 && stock > threshold
  {
    if stock == 0 then OutOfStock else if stock <= threshold then LowStock else InStock
  }

  function Severity(s: StockStatus): nat {
    match s
    case InStock => 0
    case LowStock => 1
    case OutOfStock => 2
  }

  /** Among non-negative stock levels, more stock never gives a worse status. */
  lemma StatusMonotone(a: int, b: int, threshold: int)
    requires 0 <= a <= b && threshold >= 0
    ensures Severity(StatusFor(b, threshold)) <= Severity(StatusFor(a, threshold))
  {
  }

  /** The search test: the lower-cased term occurs in the lower-cased name or SKU. */
  predicate MatchesSearch(item: FragranceItem, term: string) {
    Contains(ToLower(item.name), ToLower(term)) || Contains(ToLower(item.sku), ToLower(term))
  }

  /** The status test: "all", or exactly the item's status. */
  predicate MatchesFilter(item: FragranceItem, filterStatus: string) {
    filterStatus == "all" || StatusName(item.status) == filterStatus
  }

  /** filteredItems: the items passing both tests, in their original order. */
  function FilteredItems(items: seq<FragranceItem>, term: string, filterStatus: string): (r: seq<FragranceItem>)
    ensures forall x :: x in r <==> x in items && MatchesSearch(x, term) && MatchesFilter(x, filterStatus)
    ensures |r| <= |items|
  {
    Filter(items, x => MatchesSearch(x, term) && MatchesFilter(x, filterStatus))
  }

  /** Filtering a list made of two parts filters each part and keeps them in
      order, so the result is an order-preserving subsequence. */
  lemma FilteredItemsAppend(a: seq<FragranceItem>, b: seq<FragranceItem>, term: string, filterStatus: string)
    ensures FilteredItems(a + b, term, filterStatus) == FilteredItems(a, term, filterStatus) + FilteredItems(b, term, filterStatus)
  {
    FilterAppend(a, b, x => MatchesSearch(x, term) && MatchesFilter(x, filterStatus));
  }

  /** The empty search with filter "all" shows every item, in order. */
  lemma EmptySearchShowsAll(items: seq<FragranceItem>)
    ensures FilteredItems(items, "", "all") == items
  {
    forall x | x in items ensures MatchesSearch(x, "") {
      ContainsEmpty(ToLower(x.name));
    }
    FilterAll(items, x => MatchesSearch(x, "") && MatchesFilter(x, "all"));
  }

  /** The search ignores the case of the term. */
  lemma SearchIgnoresTermCase(item: FragranceItem, term: string)
    ensures MatchesSearch(item, term) <==> MatchesSearch(item, ToLower(term))
  {
    ToLowerIdempotent(term);
  }

  /** A filter other than "all" keeps exactly the items with that status. */
  lemma StatusFilterExact(items: seq<FragranceItem>, s: StockStatus)
    ensures forall x :: x in FilteredItems(items, "", StatusName(s)) <==> x in items && x.status == s
  {
    forall x | x in items ensures MatchesSearch(x, "") {
      ContainsEmpty(ToLower(x.name));
    }
  }

  /** handleStockUpdate: the new stock is current + change, clamped at 0. */
  function StockAfterChange(currentStock: int, change: int): (r: int)
    ensures r >= 0
    ensures currentStock + change >= 0 ==> r == currentStock + change
    ensures currentStock + change < 0 ==> r == 0
  {
    if currentStock + change > 0 then currentStock + change else 0
  }

  /** The decrement button is disabled at stock 0 or below. */
  predicate DecrementDisabled(currentStock: int) {
    currentStock <= 0
  }

  /** Whenever the decrement button is enabled it lowers the stock by exactly 1,
      and the increment button always raises a non-negative stock by 1. */
  lemma ButtonsStepByOne(currentStock: int)
    ensures !DecrementDisabled(currentStock) ==> StockAfterChange(currentStock, -1) == currentStock - 1
    ensures currentStock >= 0 ==> StockAfterChange(currentStock, 1) == currentStock + 1
  {
  }
}
