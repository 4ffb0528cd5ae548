/** The product catalogue screen: the per-unit cost of goods sold (COGS) of a
    product from its recipe, the per-category COGS summary, the suggested
    prices and the guard on adding a recipe line. */
module Products {
  import opened Common

  /** A product_supplies row joined with its supply: one unit of the product
      needs `quantity` of the supply, whose price may be unset. */
  datatype RecipeRow = RecipeRow(supplyId: string, supplyName: string, quantity: real, unit: string, price: Option<real>)

  /** `ps.supply.price || 0`. */
  function PriceOrZero(price: Option<real>): real {
    price.GetOr(0.0)
  }

  /** A supply counts as priced when its price is set and not zero (a truthy price). */
  predicate Priced(row: RecipeRow) {
    row.price.Some? && row.price.value != 0.0
  }

  /** The cost one recipe line adds to a unit of the product. */
  function LineCost(row: RecipeRow): real {
    PriceOrZero(row.price) * row.quantity
  }

  /** calculateProductCogs: the sum over the recipe of price (0 when unset) times quantity. */
  function ProductCogs(rows: seq<RecipeRow>): real {
    if rows == [] then 0.0 else LineCost(rows[0]) + ProductCogs(rows[1..])
  }

  /** The COGS of a recipe is the sum of the COGS of its parts, whatever the split. */
  lemma {:induction false} ProductCogsAppend(a: seq<RecipeRow>, b: seq<RecipeRow>)
    ensures ProductCogs(a + b) == ProductCogs(a) + ProductCogs(b)
  {
    if a == [] {
      assert a + b == b;
    } else {
      assert (a + b)[0] == a[0];
      assert (a + b)[1..] == a[1..] + b;
      ProductCogsAppend(a[1..], b);
    }
  }

  /** A recipe none of whose supplies is priced costs nothing. */
  lemma {:induction false} UnpricedRecipeCostsNothing(rows: seq<RecipeRow>)
    requires forall i :: 0 <= i < |rows| ==> !Priced(rows[i])
    ensures ProductCogs(rows) == 0.0
  {
    if rows != [] {
      assert PriceOrZero(rows[0].price) == 0.0;
      assert LineCost(rows[0]) == 0.0;
      assert forall i :: 1 <= i < |rows| ==> rows[i] == rows[1..][i - 1];
      UnpricedRecipeCostsNothing(rows[1..]);
    }
  }

  /** With non-negative prices and quantities the COGS is non-negative. */
  lemma {:induction false} ProductCogsNonNegative(rows: seq<RecipeRow>)
    requires forall i :: 0 <= i < |rows| ==> rows[i].quantity >= 0.0 && PriceOrZero(rows[i].price) >= 0.0
    ensures ProductCogs(rows) >= 0.0
  {
    if rows != [] {
      MulNonNegative(PriceOrZero(rows[0].price), rows[0].quantity);
      assert forall i :: 1 <= i < |rows| ==> rows[i] == rows[1..][i - 1];
      ProductCogsNonNegative(rows[1..]);
    }
  }

  lemma MulNonNegative(x: real, y: real)
    requires x >= 0.0 && y >= 0.0
    ensures x * y >= 0.0
  {
  }

  /** "Supplies with pricing: k of n". */
  function PricedCount(rows: seq<RecipeRow>): (r: nat)
    ensures r <= |rows|
    ensures r == |rows| <==> forall i :: 0 <= i < |rows| ==> Priced(rows[i])
    ensures r == 0 <==> forall i :: 0 <= i < |rows| ==> !Priced(rows[i])
  {
    if rows == [] then 0
    else
      var rest := PricedCount(rows[1..]);
      assert forall i :: 1 <= i < |rows| ==> rows[i] == rows[1..][i - 1];
      (if Priced(rows[0]) then 1 else 0) + rest
  }

  /** `cogs || 0` on the result of the database COGS function. */
  function CogsOrZero(cogs: Option<real>): (r: real)
    ensures cogs.None? ==> r == 0.0
    ensures cogs.Some? ==> r == cogs.value
  {
    cogs.GetOr(0.0)
  }

  function Sum(xs: seq<real>): real {
    if xs == [] then 0.0 else xs[0] + Sum(xs[1..])
  }

  function Min(xs: seq<real>): (r: real)
    requires xs != []
    ensures r in xs
    ensures forall i :: 0 <= i < |xs| ==> r <= xs[i]
  {
    if |xs| == 1 then xs[0]
    else
      var m := Min(xs[1..]);
      assert forall i :: 1 <= i < |xs| ==> xs[i] == xs[1..][i - 1];
      if xs[0] <= m then xs[0] else m
  }

  function Max(xs: seq<real>): (r: real)
    requires xs != []
    ensures r in xs
    ensures forall i :: 0 <= i < |xs| ==> xs[i] <= r
  {
    if |xs| == 1 then xs[0]
    else
      var m := Max(xs[1..]);
      assert forall i :: 1 <= i < |xs| ==> xs[i] == xs[1..][i - 1];
      if xs[0] >= m then xs[0] else m
  }

  lemma MulMonotone(n: real, a: real, b: real)
    requires n >= 0.0 && a <= b
    ensures n * a <= n * b
  {
    assert n * b - n * a == n * (b - a);
    MulNonNegative(n, b - a);
  }

  lemma MulStrict(n: real, a: real, b: real)
    requires n > 0.0 && a < b
    ensures n * a < n * b
  {
    assert n * b - n * a == n * (b - a);
  }

  lemma MulCancel(n: real, a: real, b: real)
    requires n > 0.0 && n * a <= n * b
    ensures a <= b
  {
    if a > b {
      MulStrict(n, b, a);
    }
  }

  lemma MulSucc(n: real, x: real)
    ensures (n + 1.0) * x == n * x + x
  {
  }

  /** k copies of x added up. */
  function Times(k: nat, x: real): real {
    if k == 0 then 0.0 else x + Times(k - 1, x)
  }

  lemma {:induction false} TimesIsProduct(k: nat, x: real)
    ensures Times(k, x) == k as real * x
  {
    if k > 0 {
      TimesIsProduct(k - 1, x);
      MulSucc((k - 1) as real, x);
    }
  }

  /** A lower bound on every element bounds the sum by |xs| times it, and
      likewise for an upper bound. */
  lemma {:induction false} SumBetween(xs: seq<real>, lo: real, hi: real)
    requires forall i :: 0 <= i < |xs| ==> lo <= xs[i] <= hi
    ensures Times(|xs|, lo) <= Sum(xs) <= Times(|xs|, hi)
  {
    if xs != [] {
      assert forall i :: 1 <= i < |xs| ==> xs[i] == xs[1..][i - 1];
      SumBetween(xs[1..], lo, hi);
    }
  }

  /** The sum lies between |xs| times a lower and |xs| times an upper bound of the elements. */
  lemma SumBounds(xs: seq<real>, lo: real, hi: real)
    requires forall i :: 0 <= i < |xs| ==> lo <= xs[i] <= hi
    ensures |xs| as real * lo <= Sum(xs) <= |xs| as real * hi
  {
    SumBetween(xs, lo, hi);
    TimesIsProduct(|xs|, lo);
    TimesIsProduct(|xs|, hi);
  }

  /** Dividing bounds on n times a value by n. */
  lemma DivBounds(s: real, n: real, lo: real, hi: real)
    requires n > 0.0 && n * lo <= s <= n * hi
    ensures lo <= s / n <= hi
  {
    var q := s / n;
    assert n * q == s;
    MulCancel(n, lo, q);
    MulCancel(n, q, hi);
  }

  /** The mean of a non-empty sequence lies between any lower and upper bound of its elements. */
  lemma MeanBetween(xs: seq<real>, lo: real, hi: real)
    requires xs != []
    requires forall i :: 0 <= i < |xs| ==> lo <= xs[i] <= hi
    ensures lo <= Sum(xs) / |xs| as real <= hi
  {
    SumBounds(xs, lo, hi);
    DivBounds(Sum(xs), |xs| as real, lo, hi);
  }

  function MapCogsOrZero(results: seq<Option<real>>): (r: seq<real>)
    ensures |r| == |results|
    ensures forall i :: 0 <= i < |results| ==> r[i] == CogsOrZero(results[i])
  {
    if results == [] then [] else [CogsOrZero(results[0])] + MapCogsOrZero(results[1..])
  }

  /** The per-category figures: product count, mean, minimum and maximum COGS. */
  datatype CategoryStats = CategoryStats(productCount: nat, avgCogs: real, minCogs: real, maxCogs: real)

  /** The summary of one category, given the products fetched for it and, for
      each, what the database COGS function returned. */
  function Summarise(productIds: seq<string>, cogsResults: seq<Option<real>>): (r: CategoryStats)
    requires |cogsResults| == |productIds|
    ensures r.productCount == |productIds|
    ensures productIds == [] ==> r.avgCogs == 0.0 && r.minCogs == 0.0 && r.maxCogs == 0.0
    ensures productIds != [] ==> r.minCogs <= r.avgCogs <= r.maxCogs
    ensures productIds != [] ==> r.avgCogs == Sum(MapCogsOrZero(cogsResults)) / |productIds| as real
    ensures forall i :: 0 <= i < |productIds| ==>
              r.minCogs <= CogsOrZero(cogsResults[i]) <= r.maxCogs
    ensures productIds != [] ==>
              (exists i :: 0 <= i < |productIds| && r.minCogs == CogsOrZero(cogsResults[i])) &&
              (exists i :: 0 <= i < |productIds| && r.maxCogs == CogsOrZero(cogsResults[i]))
  {
    var values := MapCogsOrZero(cogsResults);
    if values == [] then CategoryStats(0, 0.0, 0.0, 0.0)
    else
      var avg := Sum(values) / |productIds| as real;
      MeanBetween(values, Min(values), Max(values));
      CategoryStats(|productIds|, avg, Min(values), Max(values))
  }

  /** The 2x, 3x and 4x markup prices, shown only for a positive COGS. */
  function SuggestedPrices(cogs: real): (r: Option<(real, real, real)>)
    ensures r.Some? <==> cogs > 0.0
    ensures r.Some? ==> r.value == (2.0 * cogs, 3.0 * cogs, 4.0 * cogs)
    ensures r.Some? ==> cogs < r.value.0 < r.value.1 < r.value.2
  {
    if cogs > 0.0 then Some((cogs * 2.0, cogs * 3.0, cogs * 4.0)) else None
  }

  /** The recipe-line form: the chosen supply, the typed quantity and unit. */
  datatype SupplyForm = SupplyForm(supplyId: string, quantityText: string, unit: string)

  /** The product_supplies row handleAddSupply inserts. */
  datatype RecipeInsert = RecipeInsert(productId: string, supplyId: string, quantity: Option<real>, unit: string)

  /** handleAddSupply: refused (None) unless a supply, a quantity, a unit and a
      selected product are all present; the unit is stored trimmed and the
      quantity is what parseFloat made of the text (None for NaN). */
  function AddSupplyInsert(form: SupplyForm, selectedProduct: Option<string>, parsedQuantity: Option<real>): (r: Option<RecipeInsert>)
    ensures r.Some? <==> form.supplyId != "" && form.quantityText != "" && form.unit != "" && selectedProduct.Some?
    ensures r.Some? ==> r.value.productId == selectedProduct.value && r.value.supplyId == form.supplyId
    ensures r.Some? ==> r.value.quantity == parsedQuantity && r.value.unit == Trim(form.unit)
  {
    if form.supplyId == "" || form.quantityText == "" || form.unit == "" || selectedProduct.None? then None
    else Some(RecipeInsert(selectedProduct.value, form.supplyId, parsedQuantity, Trim(form.unit)))
  }
}
