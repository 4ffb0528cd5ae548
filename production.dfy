/** The production planner: a batch of n units of a product turns the product's
    per-unit recipe into per-supply requirement lines, which are summed and
    saved as a frozen snapshot; saved batches move forward through
    planned, in progress and completed. */
module Production {
  import opened Common
  import Products

  datatype BatchStatus = Planned | InProgress | Completed

  /** One line of a calculated batch. The total cost is optional because a
      saved batch holds the lines as JSON, where the field may be missing. */
  datatype SupplyLine = SupplyLine(
    supplyId: string,
    supplyName: string,
    unitAmount: real,
    unit: string,
    totalNeeded: real,
    pricePerUnit: real,
    totalCost: Option<real>)

  /** The requirement line of one recipe row for a batch of n units. */
  function LineFor(row: Products.RecipeRow, n: int): SupplyLine {
    var price := Products.PriceOrZero(row.price);
    SupplyLine(row.supplyId, row.supplyName, row.quantity, row.unit,
               row.quantity * n as real, price, Some(price * row.quantity * n as real))
  }

  /** The calculation map: one line per recipe row, in recipe order. The
      quantity is scaled by the batch size; the price is the supply price or 0,
      so an unpriced supply still reports what is needed. */
  function ComputeLines(rows: seq<Products.RecipeRow>, n: int): (r: seq<SupplyLine>)
    ensures |r| == |rows|
    ensures forall i :: 0 <= i < |rows| ==> r[i] == LineFor(rows[i], n)
    ensures forall i :: 0 <= i < |rows| ==>
              r[i].supplyId == rows[i].supplyId && r[i].supplyName == rows[i].supplyName &&
              r[i].unitAmount == rows[i].quantity && r[i].unit == rows[i].unit
    ensures forall i :: 0 <= i < |rows| ==>
              r[i].totalNeeded == rows[i].quantity * n as real &&
              r[i].pricePerUnit == Products.PriceOrZero(rows[i].price) &&
              r[i].totalCost == Some(Products.PriceOrZero(rows[i].price) * rows[i].quantity * n as real)
  {
    seq(|rows|, i requires 0 <= i < |rows| => LineFor(rows[i], n))
  }

  /** Scaling the batch size by k scales every line's requirement and cost by k. */
  lemma Linearity(rows: seq<Products.RecipeRow>, n: int, k: int)
    ensures var small, big := ComputeLines(rows, n), ComputeLines(rows, k * n);
      |big| == |small| &&
      forall i :: 0 <= i < |rows| ==>
        big[i].totalNeeded == k as real * small[i].totalNeeded &&
        big[i].totalCost.Some? && small[i].totalCost.Some? &&
        big[i].totalCost.value == k as real * small[i].totalCost.value
  {
    var small, big := ComputeLines(rows, n), ComputeLines(rows, k * n);
    forall i | 0 <= i < |rows|
      ensures big[i].totalNeeded == k as real * small[i].totalNeeded &&
              big[i].totalCost.Some? && small[i].totalCost.Some? &&
              big[i].totalCost.value == k as real * small[i].totalCost.value
    {
      LineLinear(rows[i], n, k);
    }
  }

  /** One line at k·n units needs and costs k times what it does at n. */
  lemma LineLinear(row: Products.RecipeRow, n: int, k: int)
    ensures LineFor(row, k * n).totalNeeded == k as real * LineFor(row, n).totalNeeded
    ensures LineFor(row, k * n).totalCost.value == k as real * LineFor(row, n).totalCost.value
  {
    var q, p := row.quantity, Products.PriceOrZero(row.price);
    var kr, nr := k as real, n as real;
    assert (k * n) as real == kr * nr;
    assert q * (kr * nr) == kr * (q * nr);
    assert p * q * (kr * nr) == kr * (p * q * nr);
  }

  /** getTotalCost: the sum of the lines' costs, a missing cost counting as 0. */
  function TotalCost(lines: seq<SupplyLine>): real {
    if lines == [] then 0.0 else lines[0].totalCost.GetOr(0.0) + TotalCost(lines[1..])
  }

  /** The total is the sum of the parts, whatever the split. */
  lemma {:induction false} TotalCostAppend(a: seq<SupplyLine>, b: seq<SupplyLine>)
    ensures TotalCost(a + b) == TotalCost(a) + TotalCost(b)
  {
    if a == [] {
      assert a + b == b;
    } else {
      assert (a + b)[0] == a[0];
      assert (a + b)[1..] == a[1..] + b;
      TotalCostAppend(a[1..], b);
    }
  }

  /** The batch total is n times the product's per-unit cost of goods. */
  lemma {:induction false} TotalOfComputedLines(rows: seq<Products.RecipeRow>, n: int)
    ensures TotalCost(ComputeLines(rows, n)) == n as real * Products.ProductCogs(rows)
  {
    if rows != [] {
      TotalOfComputedLines(rows[1..], n);
      var lines := ComputeLines(rows, n);
      assert lines[1..] == ComputeLines(rows[1..], n);
      var p, q := Products.PriceOrZero(rows[0].price), rows[0].quantity;
      assert lines[0].totalCost.GetOr(0.0) == p * q * n as real;
      assert Products.LineCost(rows[0]) == p * q;
      assert p * q * n as real == n as real * (p * q);
    }
  }

  /** The cost per unit shown for a saved batch: total over batch size. A
      batch size of 0 has none (the page would show a non-number). */
  function CostPerUnit(lines: seq<SupplyLine>, batchSize: int): (r: Option<real>)
    ensures r.Some? <==> batchSize != 0
    ensures r.Some? ==> r.value * batchSize as real == TotalCost(lines)
  {
    if batchSize == 0 then None else Some(TotalCost(lines) / batchSize as real)
  }

  /** For a batch calculated at n > 0 units, the cost per unit is the product's
      per-unit cost of goods, whatever n is. */
  lemma CostPerUnitIsCogs(rows: seq<Products.RecipeRow>, n: int)
    requires n > 0
    ensures CostPerUnit(ComputeLines(rows, n), n) == Some(Products.ProductCogs(rows))
  {
    TotalOfComputedLines(rows, n);
    var c, lines := Products.ProductCogs(rows), ComputeLines(rows, n);
    assert TotalCost(lines) == n as real * c;
    assert n as real * c / n as real == c;
    assert CostPerUnit(lines, n) == Some(TotalCost(lines) / n as real);
  }

  // ---------------------------------------------------------------- the calculate guard

  /** The guard of calculateBatch as written: refuse when no product is
      selected, the batch-size text is empty, or parseInt of it is <= 0.
      `parsed` is parseInt's result, None standing for NaN; since NaN <= 0 is
      false, a non-empty text parseInt cannot read is let through. */
  function CalculateGuardAsWritten(product: string, sizeText: string, parsed: Option<int>): (ok: bool)
    ensures ok <==> product != "" && sizeText != "" && !(parsed.Some? && parsed.value <= 0)
  {
    !(product == "" || sizeText == "" || (parsed.Some? && parsed.value <= 0))
  }

  /** The number field accepts ".5", whose parseInt is NaN: the guard as
      written admits it and the lines would be computed with a NaN size. */
  lemma GuardAdmitsUnparsableSize()
    ensures CalculateGuardAsWritten("product-1", ".5", None)
  {
  }

  /** The guard as intended: a product is selected and the batch size is a
      positive whole number. */
  function CalculateGuard(product: string, sizeText: string, parsed: Option<int>): (ok: bool)
    ensures ok ==> parsed.Some? && parsed.value > 0
    ensures ok ==> CalculateGuardAsWritten(product, sizeText, parsed)
    ensures CalculateGuardAsWritten(product, sizeText, parsed) && parsed.Some? ==> ok
  {
    product != "" && sizeText != "" && parsed.Some? && parsed.value > 0
  }

  datatype CalcOutcome =
    | InvalidInput
    | CalcError(message: string)
    | NoRecipe
    | Calculated(lines: seq<SupplyLine>)

  /** calculateBatch: guard, then the recipe query (`fetched`), then the map. */
  function CalculateBatch(product: string, sizeText: string, parsed: Option<int>,
                          fetched: Result<seq<Products.RecipeRow>>): (r: CalcOutcome)
    ensures r.InvalidInput? <==> !CalculateGuard(product, sizeText, parsed)
    ensures r.CalcError? <==> CalculateGuard(product, sizeText, parsed) && fetched.Err?
    ensures r.NoRecipe? <==> CalculateGuard(product, sizeText, parsed) && fetched == Ok([])
    ensures r.Calculated? ==> (r.lines != [] && fetched.Ok? && parsed.Some? && parsed.value > 0 &&
                               r.lines == ComputeLines(fetched.value, parsed.value))
  {
    if !CalculateGuard(product, sizeText, parsed) then InvalidInput
    else match fetched
      case Err(m) => CalcError(m)
      case Ok(rows) =>
        if rows == [] then NoRecipe else Calculated(ComputeLines(rows, parsed.value))
  }

  // ---------------------------------------------------------------- saved batches

  /** A production_batches row. */
  datatype BatchRow = BatchRow(id: string, productId: string, batchSize: Option<int>,
                               lines: seq<SupplyLine>, status: BatchStatus)

  /** The only status step the batch card offers: Start on a planned batch,
      Complete on one in progress, nothing on a completed one. */
  function OfferedTransition(s: BatchStatus): (r: Option<BatchStatus>)
    ensures s == Completed <==> r.None?
    ensures r.Some? ==> Rank(r.value) == Rank(s) + 1
  {
    match s
    case Planned => Some(InProgress)
    case InProgress => Some(Completed)
    case Completed => None
  }

  function Rank(s: BatchStatus): nat {
    match s
    case Planned => 0
    case InProgress => 1
    case Completed => 2
  }

  /** Following offered steps from any status never returns to an earlier one
      and reaches completed within two steps. */
  lemma OfferedStepsEndAtCompleted(s: BatchStatus)
    ensures OfferedTransition(s).Some? ==> OfferedTransition(s).value != s
    ensures s == Planned ==> OfferedTransition(OfferedTransition(s).value) == Some(Completed)
  {
  }

  /** The batch dialog and the saved batches: the selected product, the typed
      batch size, the last calculated lines and the production_batches rows. */
  class BatchPlanner {
    var selectedProduct: string
    var batchSizeText: string
    var calculated: seq<SupplyLine>
    var batches: seq<BatchRow>

    constructor ()
      ensures selectedProduct == "" && batchSizeText == "" && calculated == [] && batches == []
    {
      selectedProduct, batchSizeText, calculated, batches := "", "", [], [];
    }

    /** calculateBatch on the current form: only a successful calculation
        replaces the lines; every failure leaves them as they were. */
    method Calculate(parsed: Option<int>, fetched: Result<seq<Products.RecipeRow>>) returns (outcome: CalcOutcome)
      modifies this
      ensures outcome == CalculateBatch(old(selectedProduct), old(batchSizeText), parsed, fetched)
      ensures calculated == (if outcome.Calculated? then outcome.lines else old(calculated))
      ensures selectedProduct == old(selectedProduct) && batchSizeText == old(batchSizeText)
      ensures batches == old(batches)
    {
      outcome := CalculateBatch(selectedProduct, batchSizeText, parsed, fetched);
      if outcome.Calculated? {
        calculated := outcome.lines;
      }
    }

    /** saveBatch: nothing happens unless a product, a batch-size text and at
        least one line exist; otherwise the lines are inserted verbatim with
        status planned and, when the insert succeeds, the form is reset.
        `parsed` is parseInt of the batch-size text at save time and `newId`
        the id the database gives the row. */
    method Save(parsed: Option<int>, newId: string, insertOk: bool) returns (saved: bool)
      modifies this
      ensures saved <==> old(selectedProduct) != "" && old(batchSizeText) != "" && old(calculated) != [] && insertOk
      ensures saved ==> batches == old(batches) + [BatchRow(newId, old(selectedProduct), parsed, old(calculated), Planned)]
      ensures saved ==> selectedProduct == "" && batchSizeText == "" && calculated == []
      ensures !saved ==> batches == old(batches) && selectedProduct == old(selectedProduct) &&
                         batchSizeText == old(batchSizeText) && calculated == old(calculated)
    {
      saved := false;
      if selectedProduct == "" || batchSizeText == "" || calculated == [] {
        return;
      }
      if insertOk {
        batches := batches + [BatchRow(newId, selectedProduct, parsed, calculated, Planned)];
        selectedProduct, batchSizeText, calculated := "", "", [];
        saved := true;
      }
    }

    /** updateBatchStatus: writes any status to the batch with that id (only
        the buttons restrict which step is offered); the other batches, and
        every other field of that one, are unchanged. */
    method UpdateStatus(batchId: string, status: BatchStatus, updateOk: bool)
      modifies this
      ensures |batches| == |old(batches)|
      ensures forall i :: 0 <= i < |batches| ==>
                batches[i] == if updateOk && old(batches)[i].id == batchId
                              then old(batches)[i].(status := status) else old(batches)[i]
      ensures selectedProduct == old(selectedProduct) && batchSizeText == old(batchSizeText)
      ensures calculated == old(calculated)
    {
      if updateOk {
        batches := SetStatus(batches, batchId, status);
      }
    }
  }

  function SetStatus(rows: seq<BatchRow>, batchId: string, status: BatchStatus): (r: seq<BatchRow>)
    ensures |r| == |rows|
    ensures forall i :: 0 <= i < |rows| ==>
              r[i] == if rows[i].id == batchId then rows[i].(status := status) else rows[i]
  {
    if rows == [] then []
    else
      var rest := SetStatus(rows[1..], batchId, status);
      assert forall i :: 1 <= i < |rows| ==> rows[i] == rows[1..][i - 1];
      [if rows[0].id == batchId then rows[0].(status := status) else rows[0]] + rest
  }
}
