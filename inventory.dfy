/**
 * A material record of the inventory and the stock withdrawal that
 * MaterialController::decreaseStock performs on it.
 */
module Inventory {
  import opened Options

  /** The stock tier stored in a material's `status` column. */
  datatype StockStatus = Critical | Low | Ok

  /** The tier rule of decreaseStock: `critical` when nothing is left, `low` up to and including `minStock`, else `ok`. */
  function StatusFor(stock: int, minStock: int): (s: StockStatus)
    ensures s == Critical <==> stock <= 0
    ensures s == Low <==> 0 < stock <= minStock
    ensures s == Ok <==> 0 < stock && minStock < stock
  {
    if stock <= 0 then Critical else if stock <= minStock then Low else Ok
  }

  /** The request's `quantity` field, as the validator classifies it. */
  datatype QuantityField = Missing | NotAnInteger | Integer(n: int)

  /** The rule `required|integer|min:1`. */
  predicate QuantityAccepted(q: QuantityField) {
    q.Integer? && q.n >= 1
  }

  /** What decreaseStock answers: a validation error, "Not enough stock available", or "Stock updated successfully". */
  datatype WithdrawOutcome = InvalidQuantity | NotEnoughStock | StockUpdated

  /**
   * A change request for `update`: each numeric column given or absent, and
   * the other columns the request names, with their new values; `None` there
   * is an explicit `null`, which clears the column.
   */
  datatype MaterialPatch = MaterialPatch(
    currentStock: Option<int>, minStock: Option<int>, pricePerUnit: Option<real>,
    value: Option<real>, status: Option<StockStatus>, otherColumns: map<string, Option<string>>)

  class Material {
    var currentStock: int
    var minStock: int
    var pricePerUnit: real
    var value: real
    var status: StockStatus
    /** Every other column (name, unit, supplier, ...), `None` when it is null; the withdrawal never touches them. */
    var otherColumns: map<string, Option<string>>

    /** `value` and `status` agree with the stock, threshold and price. */
    ghost predicate Consistent()
      reads this
    {
      value == currentStock as real * pricePerUnit && status == StatusFor(currentStock, minStock)
    }

    /** `store`: the validated fields are saved as given; nothing is derived. */
    constructor Create(currentStock: int, minStock: int, pricePerUnit: real,
                       value: real, status: StockStatus, otherColumns: map<string, Option<string>>)
      ensures this.currentStock == currentStock && this.minStock == minStock
      ensures this.pricePerUnit == pricePerUnit && this.value == value && this.status == status
      ensures this.otherColumns == otherColumns
    {
      this.currentStock := currentStock;
      this.minStock := minStock;
      this.pricePerUnit := pricePerUnit;
      this.value := value;
      this.status := status;
      this.otherColumns := otherColumns;
    }

    /**
     * `update`: the given columns are overwritten, an explicit null among the
     * other columns included, and the rest kept; `value` and `status` are not
     * recomputed.
     */
    method Update(patch: MaterialPatch)
      modifies this
      ensures currentStock == if patch.currentStock.Some? then patch.currentStock.value else old(currentStock)
      ensures minStock == if patch.minStock.Some? then patch.minStock.value else old(minStock)
      ensures pricePerUnit == if patch.pricePerUnit.Some? then patch.pricePerUnit.value else old(pricePerUnit)
      ensures value == if patch.value.Some? then patch.value.value else old(value)
      ensures status == if patch.status.Some? then patch.status.value else old(status)
      ensures otherColumns == old(otherColumns) + patch.otherColumns
      ensures forall k :: k in old(otherColumns) && k !in patch.otherColumns ==>
        k in otherColumns && otherColumns[k] == old(otherColumns)[k]
      ensures forall k :: k in patch.otherColumns ==> k in otherColumns && otherColumns[k] == patch.otherColumns[k]
    {
      if patch.currentStock.Some? { currentStock := patch.currentStock.value; }
      if patch.minStock.Some? { minStock := patch.minStock.value; }
      if patch.pricePerUnit.Some? { pricePerUnit := patch.pricePerUnit.value; }
      if patch.value.Some? { value := patch.value.value; }
      if patch.status.Some? { status := patch.status.value; }
      otherColumns := otherColumns + patch.otherColumns;
    }

    /**
     * `decreaseStock`: validate the quantity, refuse a withdrawal larger than the
     * stock, otherwise subtract it and recompute `value` and `status`. The
     * record is saved exactly when the outcome is StockUpdated.
     */
    method DecreaseStock(quantity: QuantityField) returns (outcome: WithdrawOutcome)
      modifies this
      ensures outcome == InvalidQuantity <==> !QuantityAccepted(quantity)
      ensures outcome == NotEnoughStock <==> QuantityAccepted(quantity) && old(currentStock) < quantity.n
      ensures outcome != StockUpdated ==> unchanged(this)
      ensures outcome == StockUpdated ==>
        && currentStock == old(currentStock) - quantity.n
        && currentStock >= 0
        && value == currentStock as real * pricePerUnit
        && status == StatusFor(currentStock, minStock)
        && (status == Critical <==> currentStock == 0)
        && Consistent()
      ensures minStock == old(minStock) && pricePerUnit == old(pricePerUnit)
      ensures otherColumns == old(otherColumns)
    {
      if !QuantityAccepted(quantity) {
        return InvalidQuantity;
      }
      if currentStock < quantity.n {
        return NotEnoughStock;
      }
      currentStock := currentStock - quantity.n;
      value := currentStock as real * pricePerUnit;
      if currentStock <= 0 {
        status := Critical;
      } else if currentStock <= minStock {
        status := Low;
      } else {
        status := Ok;
      }
      outcome := StockUpdated;
    }
  }

  /** Withdrawing the whole stock leaves nothing, worth nothing, at `critical`. */
  method WithdrawWholeStock(m: Material)
    requires m.currentStock >= 1
    modifies m
    ensures m.currentStock == 0 && m.value == 0.0 && m.status == Critical
  {
    var before := m.currentStock;
    var outcome := m.DecreaseStock(Integer(before));
    assert outcome == StockUpdated;
    assert m.currentStock == 0 && m.value == 0.0 && m.status == Critical;
  }

  /** The scenarios of a material at threshold 100: a stock left at the threshold is `low`, above it `ok`. */
  method ThresholdScenarios()
  {
    var m := new Material.Create(100, 100, 5.0, 500.0, Ok, map[]);
    var outcome := m.DecreaseStock(Integer(5));
    assert outcome == StockUpdated && m.currentStock == 95 && m.value == 475.0 && m.status == Low;
    outcome := m.DecreaseStock(Integer(96));
    assert outcome == NotEnoughStock && m.currentStock == 95;
    outcome := m.DecreaseStock(Integer(0));
    assert outcome == InvalidQuantity;
    var n := new Material.Create(200, 100, 1.5, 300.0, Ok, map[]);
    outcome := n.DecreaseStock(Integer(50));
    assert n.currentStock == 150 && n.value == 225.0 && n.status == Ok;
  }

  /** `update` can leave `value` and `status` out of step with the stock: nothing recomputes them. */
  method UpdateCanDesynchronize()
  {
    var m := new Material.Create(10, 5, 2.0, 20.0, Ok, map[]);
    assert m.Consistent();
    m.Update(MaterialPatch(Some(0), None, None, None, None, map[]));
    assert m.value == 20.0 && m.status == Ok && !m.Consistent();
  }

  /** Renaming a material keeps the columns the request does not name, and an explicit null clears its column. */
  method RenameKeepsOtherColumns()
  {
    var m := new Material.Create(10, 5, 2.0, 20.0, Ok,
                                 map["name" := Some("Feed"), "unit" := Some("kg"), "description" := Some("maize")]);
    m.Update(MaterialPatch(None, None, None, None, None, map["name" := Some("Corn"), "description" := None]));
    assert m.otherColumns == map["name" := Some("Corn"), "unit" := Some("kg"), "description" := None];
    assert m.currentStock == 10 && m.value == 20.0;
  }
}
