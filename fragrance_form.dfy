/** The fragrance form: the initial values at mount, the
    numeric input fallbacks, the save that classifies stock and counts the
    platform connections, and the list of listing connections. */
module FragranceForm {
  import opened Common
  import opened InventoryTable
  import InventoryPage

  datatype Platform = Etsy | WooCommerce

  datatype ListingConnection = ListingConnection(
    id: string,
    platform: Platform,
    listingId: string,
    listingName: string,
    variationId: Option<string>)

  /** The fields of a connection being typed in. */
  datatype ConnectionDraft = ConnectionDraft(platform: Platform, listingId: string, listingName: string, variationId: string)

  const EmptyDraft := ConnectionDraft(Etsy, "", "", "")

  datatype FormData = FormData(sku: string, name: string, currentStock: int, lowStockThreshold: int, description: string)

  /** `x || fallback` on a number: 0 (and NaN, here None) give the fallback. */
  function OrFallback(x: Option<int>, fallback: int): (r: int)
    ensures x.Some? && x.value != 0 ==> r == x.value
    ensures x.None? || x.value == 0 ==> r == fallback
  {
    if x.Some? && x.value != 0 then x.value else fallback
  }

  /** The form's `useState` initializer: the edited item's values, with an empty SKU or name,
      a stock of 0 and a threshold of 0 replaced by '', 0 and 3. */
  function InitialForm(editing: Option<FragranceItem>): (f: FormData)
    ensures editing.None? ==> f == FormData("", "", 0, 3, "")
    ensures editing.Some? ==> f.sku == editing.value.sku && f.name == editing.value.name &&
                              f.currentStock == editing.value.currentStock
    ensures editing.Some? ==> f.lowStockThreshold == (if editing.value.lowStockThreshold == 0 then 3 else editing.value.lowStockThreshold)
    ensures f.lowStockThreshold != 0 && f.description == ""
  {
    match editing
    case None => FormData("", "", 0, 3, "")
    case Some(item) =>
      FormData(item.sku, item.name, OrFallback(Some(item.currentStock), 0),
               OrFallback(Some(item.lowStockThreshold), 3), "")
  }

  /** The stock input: parseInt of the text, or 0. */
  function StockInput(parsed: Option<int>): (r: int)
    ensures parsed.Some? ==> r == parsed.value
    ensures parsed.None? ==> r == 0
  {
    OrFallback(parsed, 0)
  }

  /** The threshold input: parseInt of the text, or 3 when it is 0 or NaN,
      so the stored threshold is never 0. */
  function ThresholdInput(parsed: Option<int>): (r: int)
    ensures r != 0
    ensures parsed.Some? && parsed.value != 0 ==> r == parsed.value
    ensures parsed.None? || parsed.value == 0 ==> r == 3
  {
    OrFallback(parsed, 3)
  }

  function CountPlatform(connections: seq<ListingConnection>, p: Platform): (r: nat)
    ensures r <= |connections|
  {
    CountWhere(connections, (c: ListingConnection) => c.platform == p)
  }

  /** Every connection is on exactly one of the two platforms. */
  lemma PlatformCountsAddUp(connections: seq<ListingConnection>)
    ensures CountPlatform(connections, Etsy) + CountPlatform(connections, WooCommerce) == |connections|
  {
    CountComplement(connections, (c: ListingConnection) => c.platform == Etsy,
                    (c: ListingConnection) => c.platform == WooCommerce);
  }

  /** handleSave: nothing unless SKU and name are filled in; otherwise the
      form's values, the status from the stock classifier and the connection
      counts per platform. */
  function HandleSave(form: FormData, connections: seq<ListingConnection>): (r: Option<InventoryPage.FragranceData>)
    ensures r.Some? <==> form.sku != "" && form.name != ""
    ensures r.Some? ==> r.value.sku == form.sku && r.value.name == form.name &&
                        r.value.currentStock == form.currentStock && r.value.lowStockThreshold == form.lowStockThreshold
    ensures r.Some? ==> r.value.status == StatusFor(form.currentStock, form.lowStockThreshold)
    ensures r.Some? ==> r.value.etsyListings + r.value.wooListings == |connections|
    ensures r.Some? ==> r.value.etsyListings == CountPlatform(connections, Etsy) &&
                        r.value.wooListings == CountPlatform(connections, WooCommerce)
  {
    if form.sku == "" || form.name == "" then None
    else
      PlatformCountsAddUp(connections);
      Some(InventoryPage.FragranceData(form.sku, form.name, form.currentStock, form.lowStockThreshold,
                                       CountPlatform(connections, Etsy), CountPlatform(connections, WooCommerce),
                                       StatusFor(form.currentStock, form.lowStockThreshold)))
  }

  /** The connections without those with the given id, the rest in order. */
  function RemoveConnection(connections: seq<ListingConnection>, id: string): (r: seq<ListingConnection>)
    ensures forall c :: c in r <==> c in connections && c.id != id
    ensures |r| <= |connections|
  {
    Filter(connections, (c: ListingConnection) => c.id != id)
  }

  lemma RemoveConnectionAppend(a: seq<ListingConnection>, b: seq<ListingConnection>, id: string)
    ensures RemoveConnection(a + b, id) == RemoveConnection(a, id) + RemoveConnection(b, id)
  {
    FilterAppend(a, b, (c: ListingConnection) => c.id != id);
  }

  /** The form's state: its fields, the connections and the connection draft. */
  class Form {
    var formData: FormData
    var connections: seq<ListingConnection>
    var draft: ConnectionDraft

    /** The form at mount, given the edited item the page passes then (or
        none): its starting values, the two demonstration connections and an
        empty draft. Later openings of the dialog keep this state. */
    constructor (editing: Option<FragranceItem>)
      ensures formData == InitialForm(editing)
      ensures |connections| == 2 && connections[0].platform == Etsy && connections[1].platform == WooCommerce
      ensures draft == EmptyDraft
    {
      formData := InitialForm(editing);
      connections := [
        ListingConnection("1", Etsy, "ETY123456", "Vanilla Bean Candle - Multiple Sizes", Some("VAR789")),
        ListingConnection("2", WooCommerce, "WOO987654", "Vanilla Bean Scented Candle", None)
      ];
      draft := EmptyDraft;
    }

    method SetStock(parsed: Option<int>)
      modifies this
      ensures formData == old(formData).(currentStock := StockInput(parsed))
      ensures connections == old(connections) && draft == old(draft)
    {
      formData := formData.(currentStock := StockInput(parsed));
    }

    method SetThreshold(parsed: Option<int>)
      modifies this
      ensures formData == old(formData).(lowStockThreshold := ThresholdInput(parsed))
      ensures connections == old(connections) && draft == old(draft)
    {
      formData := formData.(lowStockThreshold := ThresholdInput(parsed));
    }

    /** addConnection: with a listing id and name, the draft is appended as
        one connection with the fresh id and the draft is reset; otherwise
        nothing changes. */
    method AddConnection(freshId: string) returns (added: bool)
      modifies this
      ensures added <==> old(draft).listingId != "" && old(draft).listingName != ""
      ensures added ==> connections == old(connections) + [ListingConnection(freshId, old(draft).platform,
                          old(draft).listingId, old(draft).listingName, Some(old(draft).variationId))]
      ensures added ==> draft == EmptyDraft
      ensures !added ==> connections == old(connections) && draft == old(draft)
      ensures formData == old(formData)
    {
      added := draft.listingId != "" && draft.listingName != "";
      if added {
        connections := connections + [ListingConnection(freshId, draft.platform, draft.listingId,
                                                        draft.listingName, Some(draft.variationId))];
        draft := EmptyDraft;
      }
    }

    method RemoveConnectionById(id: string)
      modifies this
      ensures connections == RemoveConnection(old(connections), id)
      ensures formData == old(formData) && draft == old(draft)
    {
      connections := RemoveConnection(connections, id);
    }
  }
}
