/** `UnloadingLine`: the contract's line entity. Its id and product are
    fixed at creation (`const`); only the quantity changes, in place. */
module UnloadingLines {
  import opened Wrappers
  import opened DotNet
  import opened ContractValues

  /** The stored form of a line: what a snapshot of the aggregate and the
      repository hold. */
  datatype LineRecord = LineRecord(id: Guid, product: ProductId, quantity: Quantity)

  class UnloadingLine {
    const Id: Guid
    const Product: ProductId
    var Quantity: Quantity

    /** `Create`: stores exactly the given id, product and quantity. */
    constructor Create(id: Guid, product: ProductId, qty: Quantity)
      ensures Id == id && Product == product && Quantity == qty
    {
      Id := id;
      Product := product;
      Quantity := qty;
    }

    function Record(): (l: LineRecord)
      reads this
      ensures l.id == Id && l.product == Product && l.quantity == Quantity
    {
      LineRecord(Id, Product, Quantity)
    }

    /** `IncreaseQuantity`: `Quantity := Quantity.Add(more)`. The new
        value is computed before the assignment, so a failed addition
        leaves the quantity as it was. */
    method IncreaseQuantity(more: Int32) returns (r: Outcome<ContractError>)
      modifies this
      ensures r == old(Quantity).Add(more).ToOutcome()
      ensures r.Pass? ==> Quantity.value == old(Quantity).value + more
      ensures r.Fail? ==> Quantity == old(Quantity)
    {
      var q := Quantity.Add(more);
      if q.Failure? {
        return Fail(q.error);
      }
      Quantity := q.value;
      r := Pass;
    }

    /** `DecreaseQuantity`: `Quantity := Quantity.Subtract(less)`, with the
        same all-or-nothing behaviour. */
    method DecreaseQuantity(less: Int32) returns (r: Outcome<ContractError>)
      modifies this
      ensures r == old(Quantity).Subtract(less).ToOutcome()
      ensures r.Pass? ==> Quantity.value == old(Quantity).value - less
      ensures r.Fail? ==> Quantity == old(Quantity)
    {
      var q := Quantity.Subtract(less);
      if q.Failure? {
        return Fail(q.error);
      }
      Quantity := q.value;
      r := Pass;
    }
  }

  /** Increasing a line by `n` and then decreasing it by `n` restores its
      quantity; id and product are constants of the object. */
  method IncreaseThenDecrease(line: UnloadingLine, n: Int32) returns (r1: Outcome<ContractError>, r2: Outcome<ContractError>)
    modifies line
    ensures r1.Pass? ==> r2.Pass? && line.Quantity == old(line.Quantity)
    ensures r1.Fail? ==> r2 == old(line.Quantity).Subtract(n).ToOutcome()
  {
    r1 := line.IncreaseQuantity(n);
    if r1.Pass? {
      AddThenSubtract(old(line.Quantity), n);
    }
    r2 := line.DecreaseQuantity(n);
  }
}
