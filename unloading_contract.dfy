/** The `UnloadingContract` aggregate root.

    Its behaviour is first given as functions on a `ContractRecord`
    snapshot (`CreateSpec`, `AddLineSpec`, ...), whose properties are
    lemmas; the class `UnloadingContract` then updates its fields and its
    `UnloadingLine` objects in place, and every method is proved to move
    `Snapshot()` exactly as the corresponding function says. The clock
    (`DateTime.UtcNow`) and `Guid.NewGuid()` are parameters. */
module UnloadingContracts {
  import opened Wrappers
  import opened DotNet
  import opened ContractValues
  import opened UnloadingLines

  /** The observable state of a contract: what the repository stores. */
  datatype ContractRecord = ContractRecord(
    id: ContractId,
    warehouse: WarehouseId,
    manager: ManagerId,
    createdAt: DateTime,
    scheduledFor: ScheduledDate,
    status: ContractStatus,
    lines: seq<LineRecord>)

  /** No two lines are for the same product. */
  predicate UniqueProducts(lines: seq<LineRecord>) {
    forall i, j :: 0 <= i < j < |lines| ==> lines[i].product != lines[j].product
  }

  /** `FirstOrDefault(x => x.Product == product)`: the position of the
      first line for `product`, if any. */
  function IndexOfProduct(lines: seq<LineRecord>, product: ProductId): (r: Option<nat>)
    ensures r.Some? ==> r.value < |lines| && lines[r.value].product == product
    ensures r.Some? ==> forall j :: 0 <= j < r.value ==> lines[j].product != product
    ensures r.None? <==> forall j :: 0 <= j < |lines| ==> lines[j].product != product
  {
    if lines == [] then None
    else if lines[0].product == product then Some(0)
    else
      match IndexOfProduct(lines[1..], product)
      case None => None
      case Some(k) => Some(k + 1)
  }

  /** The total quantity the lines hold for `product`. */
  function TotalQuantity(lines: seq<LineRecord>, product: ProductId): int {
    if lines == [] then 0
    else TotalQuantity(lines[..|lines| - 1], product)
         + (if lines[|lines| - 1].product == product then lines[|lines| - 1].quantity.value else 0)
  }

  // ----------------------------------------------------- the operations

  /** `Create`: the three ids, the creation time (`created`, the first
      clock read) and the scheduled date (checked against `now`, the
      second clock read), validated in that order. */
  function CreateSpec(contractGuid: Guid, warehouseGuid: Guid, managerGuid: Guid,
                      scheduledFor: DateTime, created: Ticks, now: Ticks): (r: Result<ContractRecord, ContractError>)
    ensures r.Success? <==> contractGuid != EMPTY_GUID && warehouseGuid != EMPTY_GUID && managerGuid != EMPTY_GUID
                            && scheduledFor.kind == Utc && scheduledFor.ticks >= now
    ensures r.Success? ==> r.value.status == Pending && r.value.lines == []
    ensures r.Success? ==> r.value.id.value == contractGuid && r.value.warehouse.value == warehouseGuid
                           && r.value.manager.value == managerGuid
                           && r.value.scheduledFor.value == scheduledFor && r.value.createdAt == UtcAt(created)
    ensures contractGuid == EMPTY_GUID ==> r == Failure(EmptyContractId)
    ensures contractGuid != EMPTY_GUID && warehouseGuid == EMPTY_GUID ==> r == Failure(EmptyWarehouseId)
    ensures contractGuid != EMPTY_GUID && warehouseGuid != EMPTY_GUID && managerGuid == EMPTY_GUID
            ==> r == Failure(EmptyManagerId)
    ensures contractGuid != EMPTY_GUID && warehouseGuid != EMPTY_GUID && managerGuid != EMPTY_GUID
            && scheduledFor.kind != Utc
            ==> r == Failure(NotUtc)
    ensures contractGuid != EMPTY_GUID && warehouseGuid != EMPTY_GUID && managerGuid != EMPTY_GUID
            && scheduledFor.kind == Utc && scheduledFor.ticks < now
            ==> r == Failure(InThePast)
  {
    var id :- ContractId.Of(contractGuid);
    var warehouse :- WarehouseId.Of(warehouseGuid);
    var manager :- ManagerId.Of(managerGuid);
    var scheduled :- ScheduledDate.Of(scheduledFor, now);
    Success(ContractRecord(id, warehouse, manager, UtcAt(created), scheduled, Pending, []))
  }

  /** `AddLine`: only while Pending; merges into the line for the same
      product, otherwise appends a new line with id `newLineId`. */
  function AddLineSpec(c: ContractRecord, productGuid: Guid, quantity: Int32, newLineId: Guid): (r: Result<ContractRecord, ContractError>)
    ensures c.status != Pending ==> r == Failure(LinesOnlyWhilePending)
    ensures c.status == Pending && productGuid == EMPTY_GUID ==> r == Failure(EmptyProductId)
    ensures r.Success? ==> r.value == c.(lines := r.value.lines)
  {
    if c.status != Pending then Failure(LinesOnlyWhilePending)
    else
      var product :- ProductId.Of(productGuid);
      match IndexOfProduct(c.lines, product)
      case Some(i) =>
        var q :- c.lines[i].quantity.Add(quantity);
        Success(c.(lines := c.lines[i := c.lines[i].(quantity := q)]))
      case None =>
        var q :- Quantity.Of(quantity);
        Success(c.(lines := c.lines + [LineRecord(newLineId, product, q)]))
  }

  /** `Reschedule`: only while Pending, and only to a valid date. */
  function RescheduleSpec(c: ContractRecord, newDate: DateTime, now: Ticks): (r: Result<ContractRecord, ContractError>)
    ensures r.Success? <==> c.status == Pending && newDate.kind == Utc && newDate.ticks >= now
    ensures r.Success? ==> r.value == c.(scheduledFor := ScheduledDate(newDate))
    ensures c.status != Pending ==> r == Failure(RescheduleOnlyWhilePending)
    ensures c.status == Pending && r.Failure? ==> r.error == (if newDate.kind != Utc then NotUtc else InThePast)
  {
    if c.status != Pending then Failure(RescheduleOnlyWhilePending)
    else
      var d :- ScheduledDate.Of(newDate, now);
      Success(c.(scheduledFor := d))
  }

  /** `Start`: Pending with at least one line becomes InProgress. */
  function StartSpec(c: ContractRecord): (r: Result<ContractRecord, ContractError>)
    ensures r.Success? <==> c.status == Pending && |c.lines| > 0
    ensures r.Success? ==> r.value == c.(status := InProgress)
    ensures r.Failure? ==> r.error == (if c.status != Pending then AlreadyStarted else NoLines)
  {
    if c.status != Pending then Failure(AlreadyStarted)
    else if |c.lines| == 0 then Failure(NoLines)
    else Success(c.(status := InProgress))
  }

  /** `Complete`: InProgress becomes Completed. */
  function CompleteSpec(c: ContractRecord): (r: Result<ContractRecord, ContractError>)
    ensures r.Success? <==> c.status == InProgress
    ensures r.Success? ==> r.value == c.(status := Completed)
    ensures r.Failure? ==> r.error == NotStarted
  {
    if c.status != InProgress then Failure(NotStarted)
    else Success(c.(status := Completed))
  }

  /** `Cancel`: refused only for a Completed contract; a Cancelled one is
      cancelled again. */
  function CancelSpec(c: ContractRecord): (r: Result<ContractRecord, ContractError>)
    ensures r.Failure? <==> c.status == Completed
    ensures r.Success? ==> r.value == c.(status := Cancelled)
    ensures r.Failure? ==> r.error == AlreadyCompleted
  {
    if c.status == Completed then Failure(AlreadyCompleted)
    else Success(c.(status := Cancelled))
  }

  /** One call of an aggregate method, with the arguments it takes. */
  datatype Command =
    | AddLine(productGuid: Guid, quantity: Int32, newLineId: Guid)
    | Reschedule(newDate: DateTime, now: Ticks)
    | Start
    | Complete
    | Cancel

  function Apply(c: ContractRecord, cmd: Command): Result<ContractRecord, ContractError> {
    match cmd
    case AddLine(p, q, id) => AddLineSpec(c, p, q, id)
    case Reschedule(d, now) => RescheduleSpec(c, d, now)
    case Start => StartSpec(c)
    case Complete => CompleteSpec(c)
    case Cancel => CancelSpec(c)
  }

  /** Runs the commands in order, stopping at the first exception. */
  function ApplyAll(c: ContractRecord, cmds: seq<Command>): Result<ContractRecord, ContractError>
    decreases |cmds|
  {
    if cmds == [] then Success(c)
    else
      var c' :- Apply(c, cmds[0]);
      ApplyAll(c', cmds[1..])
  }

  // ------------------------------------------------------------- AddLine

  /** A product already present: its line gets `quantity` more, the
      number of lines stays, and the call fails (changing nothing) when
      the sum would be negative or overflow. */
  lemma AddLineMerges(c: ContractRecord, productGuid: Guid, quantity: Int32, newLineId: Guid, i: nat)
    requires c.status == Pending && productGuid != EMPTY_GUID
    requires IndexOfProduct(c.lines, ProductId(productGuid)) == Some(i)
    ensures AddLineSpec(c, productGuid, quantity, newLineId).Success?
            <==> 0 <= c.lines[i].quantity.value + quantity <= INT32_MAX
    ensures AddLineSpec(c, productGuid, quantity, newLineId).Failure?
            ==> AddLineSpec(c, productGuid, quantity, newLineId).error == NegativeQuantity
    ensures AddLineSpec(c, productGuid, quantity, newLineId).Success?
            ==> AddLineSpec(c, productGuid, quantity, newLineId).value.lines
                == c.lines[i := c.lines[i].(quantity := Quantity(c.lines[i].quantity.value + quantity))]
  {
  }

  /** A new product: exactly one line is appended, carrying the product
      and the quantity, which must not be negative. */
  lemma AddLineAppends(c: ContractRecord, productGuid: Guid, quantity: Int32, newLineId: Guid)
    requires c.status == Pending && productGuid != EMPTY_GUID
    requires forall j :: 0 <= j < |c.lines| ==> c.lines[j].product.value != productGuid
    ensures AddLineSpec(c, productGuid, quantity, newLineId).Success? <==> quantity >= 0
    ensures AddLineSpec(c, productGuid, quantity, newLineId).Failure?
            ==> AddLineSpec(c, productGuid, quantity, newLineId).error == NegativeQuantity
    ensures AddLineSpec(c, productGuid, quantity, newLineId).Success?
            ==> AddLineSpec(c, productGuid, quantity, newLineId).value.lines
                == c.lines + [LineRecord(newLineId, ProductId(productGuid), Quantity(quantity))]
  {
    assert IndexOfProduct(c.lines, ProductId(productGuid)).None?;
  }

  /** `AddLine` never creates a second line for a product. */
  lemma {:induction false} AddLineKeepsProductsUnique(c: ContractRecord, productGuid: Guid, quantity: Int32, newLineId: Guid)
    requires UniqueProducts(c.lines)
    requires AddLineSpec(c, productGuid, quantity, newLineId).Success?
    ensures UniqueProducts(AddLineSpec(c, productGuid, quantity, newLineId).value.lines)
  {
    var product := ProductId(productGuid);
    var lines' := AddLineSpec(c, productGuid, quantity, newLineId).value.lines;
    match IndexOfProduct(c.lines, product)
    case Some(i) =>
      assert |lines'| == |c.lines|;
      assert forall k :: 0 <= k < |lines'| ==> lines'[k].product == c.lines[k].product;
    case None =>
      assert lines'[..|c.lines|] == c.lines;
  }

  /** Replacing one line changes the total of each product by the
      difference of that line's contribution. */
  lemma {:induction false} TotalQuantityUpdate(lines: seq<LineRecord>, i: nat, l: LineRecord, product: ProductId)
    requires i < |lines|
    ensures TotalQuantity(lines[i := l], product)
            == TotalQuantity(lines, product)
               - (if lines[i].product == product then lines[i].quantity.value else 0)
               + (if l.product == product then l.quantity.value else 0)
    decreases |lines|
  {
    var n := |lines| - 1;
    if i < n {
      assert lines[i := l][..n] == lines[..n][i := l];
      TotalQuantityUpdate(lines[..n], i, l, product);
    } else {
      assert lines[i := l][..n] == lines[..n];
    }
  }

  /** A successful `AddLine` adds `quantity` to the total of its product
      and leaves every other product's total as it was. */
  lemma AddLineAddsToTotal(c: ContractRecord, productGuid: Guid, quantity: Int32, newLineId: Guid, product: ProductId)
    requires AddLineSpec(c, productGuid, quantity, newLineId).Success?
    ensures TotalQuantity(AddLineSpec(c, productGuid, quantity, newLineId).value.lines, product)
            == TotalQuantity(c.lines, product) + (if product.value == productGuid then quantity else 0)
  {
    var p := ProductId(productGuid);
    var lines' := AddLineSpec(c, productGuid, quantity, newLineId).value.lines;
    match IndexOfProduct(c.lines, p)
    case Some(i) =>
      TotalQuantityUpdate(c.lines, i, c.lines[i].(quantity := c.lines[i].quantity.Add(quantity).value), product);
    case None =>
      assert lines'[..|lines'| - 1] == c.lines;
  }

  /** Where products are unique, a product's total is the quantity on its
      one line. */
  lemma {:induction false} TotalIsLineQuantity(lines: seq<LineRecord>, i: nat)
    requires UniqueProducts(lines) && i < |lines|
    ensures TotalQuantity(lines, lines[i].product) == lines[i].quantity.value
    decreases |lines|
  {
    var n := |lines| - 1;
    var prefix := lines[..n];
    if i < n {
      assert prefix[i] == lines[i];
      assert lines[n].product != lines[i].product;
      TotalIsLineQuantity(prefix, i);
    } else {
      TotalIsAbsent(prefix, lines[i].product);
    }
  }

  /** A product with no line has total 0, and conversely the total of a
      product below every other line is unaffected. */
  lemma {:induction false} TotalIsAbsent(lines: seq<LineRecord>, product: ProductId)
    ensures (forall j :: 0 <= j < |lines| ==> lines[j].product != product) ==> TotalQuantity(lines, product) == 0
    decreases |lines|
  {
    if lines != [] {
      TotalIsAbsent(lines[..|lines| - 1], product);
    }
  }

  /** Only `AddLine` commands: the calls a client makes to fill a contract. */
  predicate OnlyAddLines(cmds: seq<Command>) {
    forall k :: 0 <= k < |cmds| ==> cmds[k].AddLine?
  }

  /** The sum of the amounts added for `product`. */
  function AmountAdded(cmds: seq<Command>, product: ProductId): int
    requires OnlyAddLines(cmds)
  {
    if cmds == [] then 0
    else (if cmds[0].productGuid == product.value then cmds[0].quantity else 0) + AmountAdded(cmds[1..], product)
  }

  /** After any sequence of successful `AddLine` calls the products are
      still unique and each product's total grew by the sum of the
      amounts added for it. */
  lemma {:induction false} AddLinesAccumulate(c: ContractRecord, cmds: seq<Command>, product: ProductId)
    requires OnlyAddLines(cmds) && UniqueProducts(c.lines)
    requires ApplyAll(c, cmds).Success?
    ensures UniqueProducts(ApplyAll(c, cmds).value.lines)
    ensures TotalQuantity(ApplyAll(c, cmds).value.lines, product) == TotalQuantity(c.lines, product) + AmountAdded(cmds, product)
    decreases |cmds|
  {
    if cmds != [] {
      var cmd := cmds[0];
      AddLineKeepsProductsUnique(c, cmd.productGuid, cmd.quantity, cmd.newLineId);
      AddLineAddsToTotal(c, cmd.productGuid, cmd.quantity, cmd.newLineId, product);
      var c' := Apply(c, cmd).value;
      assert OnlyAddLines(cmds[1..]);
      AddLinesAccumulate(c', cmds[1..], product);
    }
  }

  /** Filling a freshly created contract: every product has at most one
      line, and that line holds the sum of the amounts added for it. */
  lemma FilledContractLines(c: ContractRecord, cmds: seq<Command>, i: nat)
    requires c.lines == [] && OnlyAddLines(cmds)
    requires ApplyAll(c, cmds).Success? && i < |ApplyAll(c, cmds).value.lines|
    ensures UniqueProducts(ApplyAll(c, cmds).value.lines)
    ensures ApplyAll(c, cmds).value.lines[i].quantity.value
            == AmountAdded(cmds, ApplyAll(c, cmds).value.lines[i].product)
  {
    var lines := ApplyAll(c, cmds).value.lines;
    AddLinesAccumulate(c, cmds, lines[i].product);
    TotalIsLineQuantity(lines, i);
  }

  /** Adding the same new product twice gives one line holding the sum
      (the first call's line id is kept). */
  lemma AddLineTwiceMerges(c: ContractRecord, productGuid: Guid, q1: Int32, q2: Int32, id1: Guid, id2: Guid)
    requires c.status == Pending && productGuid != EMPTY_GUID
    requires forall j :: 0 <= j < |c.lines| ==> c.lines[j].product.value != productGuid
    requires 0 <= q1 && 0 <= q2 && q1 + q2 <= INT32_MAX
    ensures AddLineSpec(c, productGuid, q1, id1).Success?
    ensures AddLineSpec(AddLineSpec(c, productGuid, q1, id1).value, productGuid, q2, id2)
            == Success(c.(lines := c.lines + [LineRecord(id1, ProductId(productGuid), Quantity(q1 + q2))]))
  {
    AddLineAppends(c, productGuid, q1, id1);
    var c1 := AddLineSpec(c, productGuid, q1, id1).value;
    var n := |c.lines|;
    assert c1.lines[n].product == ProductId(productGuid);
    assert forall j :: 0 <= j < n ==> c1.lines[j] == c.lines[j];
    assert IndexOfProduct(c1.lines, ProductId(productGuid)) == Some(n);
    AddLineMerges(c1, productGuid, q2, id2, n);
    assert c1.lines[n := c1.lines[n].(quantity := Quantity(q1 + q2))]
           == c.lines + [LineRecord(id1, ProductId(productGuid), Quantity(q1 + q2))];
  }

  // ----------------------------------------------------------- lifecycle

  /** The invariant every stored contract keeps: one line per product,
      and a contract that has been started has lines. */
  predicate WellFormed(c: ContractRecord) {
    UniqueProducts(c.lines) && (c.status in {InProgress, Completed} ==> |c.lines| > 0)
  }

  lemma CreateIsWellFormed(contractGuid: Guid, warehouseGuid: Guid, managerGuid: Guid,
                           scheduledFor: DateTime, created: Ticks, now: Ticks)
    requires CreateSpec(contractGuid, warehouseGuid, managerGuid, scheduledFor, created, now).Success?
    ensures WellFormed(CreateSpec(contractGuid, warehouseGuid, managerGuid, scheduledFor, created, now).value)
  {
  }

  lemma ApplyKeepsWellFormed(c: ContractRecord, cmd: Command)
    requires WellFormed(c) && Apply(c, cmd).Success?
    ensures WellFormed(Apply(c, cmd).value)
  {
    if cmd.AddLine? {
      AddLineKeepsProductsUnique(c, cmd.productGuid, cmd.quantity, cmd.newLineId);
    }
  }

  /** Every command sequence keeps the invariant. */
  lemma {:induction false} ApplyAllKeepsWellFormed(c: ContractRecord, cmds: seq<Command>)
    requires WellFormed(c) && ApplyAll(c, cmds).Success?
    ensures WellFormed(ApplyAll(c, cmds).value)
    decreases |cmds|
  {
    if cmds != [] {
      ApplyKeepsWellFormed(c, cmds[0]);
      ApplyAllKeepsWellFormed(Apply(c, cmds[0]).value, cmds[1..]);
    }
  }

  /** A failed call leaves no trace, and a successful one never changes
      the id, warehouse, manager or creation time. */
  lemma ApplyKeepsIdentity(c: ContractRecord, cmd: Command)
    requires Apply(c, cmd).Success?
    ensures Apply(c, cmd).value.id == c.id && Apply(c, cmd).value.warehouse == c.warehouse
    ensures Apply(c, cmd).value.manager == c.manager && Apply(c, cmd).value.createdAt == c.createdAt
  {
  }

  /** Once a contract has left Pending its lines and date are frozen and
      it never returns to Pending. */
  lemma {:induction false} FrozenOutsidePending(c: ContractRecord, cmds: seq<Command>)
    requires c.status != Pending && ApplyAll(c, cmds).Success?
    ensures ApplyAll(c, cmds).value.status != Pending
    ensures ApplyAll(c, cmds).value.lines == c.lines
    ensures ApplyAll(c, cmds).value.scheduledFor == c.scheduledFor
    decreases |cmds|
  {
    if cmds != [] {
      FrozenOutsidePending(Apply(c, cmds[0]).value, cmds[1..]);
    }
  }

  /** Completed is final: every further call fails. */
  lemma {:induction false} CompletedIsFinal(c: ContractRecord, cmds: seq<Command>)
    requires c.status == Completed && cmds != []
    ensures ApplyAll(c, cmds).Failure?
  {
    match cmds[0]
    case AddLine(_, _, _) =>
    case Reschedule(_, _) =>
    case Start =>
    case Complete =>
    case Cancel =>
  }

  /** Cancelled accepts only `Cancel`, which leaves it as it is. */
  lemma CancelledAcceptsOnlyCancel(c: ContractRecord, cmd: Command)
    requires c.status == Cancelled
    ensures Apply(c, cmd).Success? <==> cmd.Cancel?
    ensures Apply(c, cmd).Success? ==> Apply(c, cmd).value == c
  {
  }

  // -------------------------------------------------------- the aggregate

  /** The records of a sequence of line objects, position by position. */
  function Records(ls: seq<UnloadingLine>): (rs: seq<LineRecord>)
    reads ls
    ensures |rs| == |ls|
    ensures forall i :: 0 <= i < |ls| ==> rs[i] == ls[i].Record()
  {
    seq(|ls|, i requires 0 <= i < |ls| reads ls => ls[i].Record())
  }

  class UnloadingContract {
    const Id: ContractId
    const Warehouse: WarehouseId
    const Manager: ManagerId
    const CreatedAt: DateTime
    var ScheduledFor: ScheduledDate
    var Status: ContractStatus
    var lines: seq<UnloadingLine>

    /** One line object per product (hence no line object twice). */
    ghost predicate Valid()
      reads this, lines
    {
      forall i, j :: 0 <= i < j < |lines| ==> lines[i].Product != lines[j].Product
    }

    function Snapshot(): (c: ContractRecord)
      reads this, lines
      ensures c.id == Id && c.status == Status && |c.lines| == |lines|
    {
      ContractRecord(Id, Warehouse, Manager, CreatedAt, ScheduledFor, Status, Records(lines))
    }

    /** The private constructor: a Pending contract without lines. */
    constructor(id: ContractId, warehouse: WarehouseId, manager: ManagerId,
                createdAt: DateTime, scheduledFor: ScheduledDate)
      ensures Valid() && lines == []
      ensures Snapshot() == ContractRecord(id, warehouse, manager, createdAt, scheduledFor, Pending, [])
    {
      Id := id;
      Warehouse := warehouse;
      Manager := manager;
      CreatedAt := createdAt;
      ScheduledFor := scheduledFor;
      Status := Pending;
      lines := [];
    }

    /** `Create`: validates its arguments in the source's order. */
    static method Create(contractGuid: Guid, warehouseGuid: Guid, managerGuid: Guid,
                         scheduledFor: DateTime, created: Ticks, now: Ticks)
      returns (r: Result<UnloadingContract, ContractError>)
      ensures r.Failure? ==> CreateSpec(contractGuid, warehouseGuid, managerGuid, scheduledFor, created, now)
                             == Failure(r.error)
      ensures r.Success? ==> CreateSpec(contractGuid, warehouseGuid, managerGuid, scheduledFor, created, now)
                             == Success(r.value.Snapshot())
      ensures r.Success? ==> fresh(r.value) && r.value.Valid() && r.value.lines == []
    {
      var id :- ContractId.Of(contractGuid);
      var warehouse :- WarehouseId.Of(warehouseGuid);
      var manager :- ManagerId.Of(managerGuid);
      var createdAt := UtcAt(created);
      var scheduled :- ScheduledDate.Of(scheduledFor, now);
      var c := new UnloadingContract(id, warehouse, manager, createdAt, scheduled);
      return Success(c);
    }

    /** Materialises a stored contract, one new line object per stored
        line; `Snapshot()` gives the record back. */
    constructor Rehydrate(rec: ContractRecord)
      requires UniqueProducts(rec.lines)
      ensures Valid() && Snapshot() == rec
      ensures forall k :: 0 <= k < |lines| ==> fresh(lines[k])
    {
      Id := rec.id;
      Warehouse := rec.warehouse;
      Manager := rec.manager;
      CreatedAt := rec.createdAt;
      ScheduledFor := rec.scheduledFor;
      Status := rec.status;
      lines := [];
      new;
      var i := 0;
      while i < |rec.lines|
        invariant 0 <= i <= |rec.lines|
        invariant |lines| == i
        invariant forall k :: 0 <= k < i ==> lines[k].Record() == rec.lines[k]
        invariant forall k :: 0 <= k < i ==> fresh(lines[k])
        invariant Valid()
        invariant ScheduledFor == rec.scheduledFor && Status == rec.status
      {
        var l := new UnloadingLine.Create(rec.lines[i].id, rec.lines[i].product, rec.lines[i].quantity);
        lines := lines + [l];
        i := i + 1;
      }
      assert Records(lines) == rec.lines;
    }

    /** The position of the line for `product`, searched from the front. */
    method FindLine(product: ProductId) returns (k: Option<nat>)
      ensures k == IndexOfProduct(Records(lines), product)
    {
      var i := 0;
      while i < |lines|
        invariant 0 <= i <= |lines|
        invariant forall j :: 0 <= j < i ==> lines[j].Product != product
      {
        assert Records(lines)[i] == lines[i].Record();
        if lines[i].Product == product {
          return Some(i);
        }
        i := i + 1;
      }
      return None;
    }

    /** Raises the quantity of the line at `k` in place. The other line
        objects are for other products, hence distinct from it, so their
        records stay as they were. */
    method IncreaseLineAt(k: nat, quantity: Int32) returns (r: Outcome<ContractError>)
      requires Valid() && k < |lines|
      modifies lines[k]
      ensures Valid()
      ensures r == old(Records(lines))[k].quantity.Add(quantity).ToOutcome()
      ensures Records(lines) == if r.Pass? then old(Records(lines))[k := old(Records(lines))[k].(quantity := old(Records(lines))[k].quantity.Add(quantity).value)]
                                else old(Records(lines))
    {
      ghost var before := Records(lines);
      var line := lines[k];
      r := line.IncreaseQuantity(quantity);
      forall j | 0 <= j < |lines| && j != k
        ensures lines[j] != line
      {
        assert lines[j].Product != lines[k].Product;
      }
      if r.Pass? {
        assert Records(lines) == before[k := before[k].(quantity := line.Quantity)];
      } else {
        assert Records(lines) == before;
      }
    }

    method AddLine(productGuid: Guid, quantity: Int32, newLineId: Guid) returns (r: Outcome<ContractError>)
      requires Valid()
      modifies this, lines
      ensures Valid()
      ensures r == AddLineSpec(old(Snapshot()), productGuid, quantity, newLineId).ToOutcome()
      ensures Snapshot() == if r.Pass? then AddLineSpec(old(Snapshot()), productGuid, quantity, newLineId).value
                            else old(Snapshot())
    {
      if Status != Pending {
        return Fail(LinesOnlyWhilePending);
      }
      var p := ProductId.Of(productGuid);
      if p.Failure? {
        return Fail(p.error);
      }
      var product := p.value;
      var found := FindLine(product);
      ghost var before := Records(lines);
      if found.Some? {
        r := IncreaseLineAt(found.value, quantity);
      } else {
        r := AppendLine(newLineId, product, quantity);
      }
    }

    /** The branch of `AddLine` for a product without a line: a new line
        object with the validated quantity goes at the end. */
    method AppendLine(newLineId: Guid, product: ProductId, quantity: Int32) returns (r: Outcome<ContractError>)
      requires Valid() && IndexOfProduct(Records(lines), product).None?
      modifies this
      ensures Valid()
      ensures r == Quantity.Of(quantity).ToOutcome()
      ensures Snapshot() == if r.Pass? then old(Snapshot()).(lines := old(Snapshot()).lines + [LineRecord(newLineId, product, Quantity.Of(quantity).value)])
                            else old(Snapshot())
    {
      var q := Quantity.Of(quantity);
      if q.Failure? {
        return Fail(q.error);
      }
      ghost var before := Records(lines);
      var line := new UnloadingLine.Create(newLineId, product, q.value);
      lines := lines + [line];
      assert Records(lines) == before + [line.Record()];
      r := Pass;
    }

    method Reschedule(newDate: DateTime, now: Ticks) returns (r: Outcome<ContractError>)
      requires Valid()
      modifies this
      ensures Valid() && lines == old(lines)
      ensures r == RescheduleSpec(old(Snapshot()), newDate, now).ToOutcome()
      ensures Snapshot() == if r.Pass? then RescheduleSpec(old(Snapshot()), newDate, now).value
                            else old(Snapshot())
    {
      if Status != Pending {
        return Fail(RescheduleOnlyWhilePending);
      }
      var d := ScheduledDate.Of(newDate, now);
      if d.Failure? {
        return Fail(d.error);
      }
      ScheduledFor := d.value;
      r := Pass;
    }

    method Start() returns (r: Outcome<ContractError>)
      requires Valid()
      modifies this
      ensures Valid() && lines == old(lines)
      ensures r == StartSpec(old(Snapshot())).ToOutcome()
      ensures Snapshot() == if r.Pass? then StartSpec(old(Snapshot())).value else old(Snapshot())
    {
      if Status != Pending {
        return Fail(AlreadyStarted);
      }
      if |lines| == 0 {
        return Fail(NoLines);
      }
      Status := InProgress;
      r := Pass;
    }

    method Complete() returns (r: Outcome<ContractError>)
      requires Valid()
      modifies this
      ensures Valid() && lines == old(lines)
      ensures r == CompleteSpec(old(Snapshot())).ToOutcome()
      ensures Snapshot() == if r.Pass? then CompleteSpec(old(Snapshot())).value else old(Snapshot())
    {
      if Status != InProgress {
        return Fail(NotStarted);
      }
      Status := Completed;
      r := Pass;
    }

    method Cancel() returns (r: Outcome<ContractError>)
      requires Valid()
      modifies this
      ensures Valid() && lines == old(lines)
      ensures r == CancelSpec(old(Snapshot())).ToOutcome()
      ensures Snapshot() == if r.Pass? then CancelSpec(old(Snapshot())).value else old(Snapshot())
    {
      if Status == Completed {
        return Fail(AlreadyCompleted);
      }
      Status := Cancelled;
      r := Pass;
    }
  }
}
