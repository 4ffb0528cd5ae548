/** The inventory page: the list of fragrance items it keeps, the stock update,
    save (edit or add) and delete handlers, and the dashboard counters. */
module InventoryPage {
  import opened Common
  import opened InventoryTable

  /** What the fragrance form hands over: an item without id and lastUpdated. */
  datatype FragranceData = FragranceData(
    sku: string,
    name: string,
    currentStock: int,
    lowStockThreshold: int,
    etsyListings: int,
    wooListings: int,
    status: StockStatus)

  /** The item with its stock set to newStock, re-classified against its own threshold. */
  function WithStock(item: FragranceItem, newStock: int): FragranceItem {
    item.(currentStock := newStock, status := StatusFor(newStock, item.lowStockThreshold), lastUpdated := "just now")
  }

  /** handleUpdateStock: only the items with the given id change, in stock,
      status and lastUpdated; length and order are kept. */
  function UpdateStock(items: seq<FragranceItem>, id: string, newStock: int): (r: seq<FragranceItem>)
    ensures |r| == |items|
    ensures forall i :: 0 <= i < |items| ==> r[i].id == items[i].id
    ensures forall i :: 0 <= i < |items| && items[i].id != id ==> r[i] == items[i]
    ensures forall i :: 0 <= i < |items| && items[i].id == id ==>
              r[i].currentStock == newStock && r[i].status == StatusFor(newStock, items[i].lowStockThreshold) &&
              r[i].lastUpdated == "just now" &&
              r[i] == items[i].(currentStock := r[i].currentStock, status := r[i].status, lastUpdated := r[i].lastUpdated)
  {
    if items == [] then []
    else
      var rest := UpdateStock(items[1..], id, newStock);
      var r := [if items[0].id == id then WithStock(items[0], newStock) else items[0]] + rest;
      assert forall i :: 1 <= i < |r| ==> r[i] == rest[i - 1] && items[i] == items[1..][i - 1];
      r
  }

  /** `{ ...item, ...data, lastUpdated: 'just now' }`. */
  function Merge(item: FragranceItem, data: FragranceData): FragranceItem {
    FragranceItem(item.id, data.sku, data.name, data.currentStock, data.lowStockThreshold,
                  data.etsyListings, data.wooListings, "just now", data.status)
  }

  /** Saving while editing: the form fields are merged into the items with the
      edited id, which keep their id; nothing is added. */
  function SaveEdited(items: seq<FragranceItem>, editedId: string, data: FragranceData): (r: seq<FragranceItem>)
    ensures |r| == |items|
    ensures forall i :: 0 <= i < |items| ==> r[i].id == items[i].id
    ensures forall i :: 0 <= i < |items| && items[i].id != editedId ==> r[i] == items[i]
    ensures forall i :: 0 <= i < |items| && items[i].id == editedId ==>
              r[i].sku == data.sku && r[i].name == data.name && r[i].currentStock == data.currentStock &&
              r[i].lowStockThreshold == data.lowStockThreshold && r[i].etsyListings == data.etsyListings &&
              r[i].wooListings == data.wooListings && r[i].status == data.status && r[i].lastUpdated == "just now"
  {
    if items == [] then []
    else
      var rest := SaveEdited(items[1..], editedId, data);
      var r := [if items[0].id == editedId then Merge(items[0], data) else items[0]] + rest;
      assert forall i :: 1 <= i < |r| ==> r[i] == rest[i - 1] && items[i] == items[1..][i - 1];
      r
  }

  /** Saving a new item: it is appended at the end with the fresh id. */
  function SaveNew(items: seq<FragranceItem>, data: FragranceData, freshId: string): (r: seq<FragranceItem>)
    ensures |r| == |items| + 1 && r[..|items|] == items
    ensures r[|items|].id == freshId && r[|items|] == Merge(r[|items|], data)
  {
    items + [Merge(FragranceItem(freshId, "", "", 0, 0, 0, 0, "", InStock), data)]
  }

  /** handleDeleteFragrance: every item with that id goes, the rest stay in order. */
  function Delete(items: seq<FragranceItem>, id: string): (r: seq<FragranceItem>)
    ensures forall x :: x in r <==> x in items && x.id != id
    ensures |r| + CountWhere(items, (x: FragranceItem) => x.id == id) == |items|
  {
    var keep := (x: FragranceItem) => x.id != id;
    var r := Filter(items, keep);
    CountComplement(items, (x: FragranceItem) => x.id == id, keep);
    r
  }

  /** Deleting from a list made of two parts deletes from each part in place. */
  lemma DeleteAppend(a: seq<FragranceItem>, b: seq<FragranceItem>, id: string)
    ensures Delete(a + b, id) == Delete(a, id) + Delete(b, id)
  {
    FilterAppend(a, b, (x: FragranceItem) => x.id != id);
  }

  /** The dashboard counters. */
  datatype Stats = Stats(totalSkus: nat, lowStock: nat, outOfStock: nat)

  function DashboardStats(items: seq<FragranceItem>): (r: Stats)
    ensures r.totalSkus == |items|
    ensures r.lowStock + r.outOfStock <= r.totalSkus
    ensures r.lowStock == CountWhere(items, (x: FragranceItem) => x.status == LowStock)
    ensures r.outOfStock == CountWhere(items, (x: FragranceItem) => x.status == OutOfStock)
  {
    var low := (x: FragranceItem) => x.status == LowStock;
    var out := (x: FragranceItem) => x.status == OutOfStock;
    CountDisjoint(items, low, out);
    Stats(|items|, CountWhere(items, low), CountWhere(items, out))
  }

  /** The page state: the inventory list and the item being edited, if any. */
  class Inventory {
    var items: seq<FragranceItem>
    var editingItem: Option<FragranceItem>

    constructor ()
      ensures items == [] && editingItem == None
    {
      items, editingItem := [], None;
    }

    method AddFragrance()
      modifies this
      ensures editingItem == None && items == old(items)
    {
      editingItem := None;
    }

    method EditItem(item: FragranceItem)
      modifies this
      ensures editingItem == Some(item) && items == old(items)
    {
      editingItem := Some(item);
    }

    method UpdateStockOf(id: string, newStock: int)
      modifies this
      ensures items == UpdateStock(old(items), id, newStock)
      ensures editingItem == old(editingItem)
    {
      items := UpdateStock(items, id, newStock);
    }

    /** handleSaveFragrance: merge into the edited item, or append a new one
        with the fresh id. */
    method SaveFragrance(data: FragranceData, freshId: string)
      modifies this
      ensures old(editingItem).Some? ==> items == SaveEdited(old(items), old(editingItem).value.id, data)
      ensures old(editingItem).None? ==> items == SaveNew(old(items), data, freshId)
      ensures editingItem == old(editingItem)
    {
      if editingItem.Some? {
        items := SaveEdited(items, editingItem.value.id, data);
      } else {
        items := SaveNew(items, data, freshId);
      }
    }

    method DeleteFragrance(id: string)
      modifies this
      ensures items == Delete(old(items), id)
      ensures editingItem == old(editingItem)
    {
      items := Delete(items, id);
    }
  }
}
