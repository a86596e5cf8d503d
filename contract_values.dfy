/** The value objects of the contract-processing domain: the four GUID
    wrappers, `Quantity` and `ScheduledDate`, together with the contract
    status and the reasons the domain throws `UnloadingContractException`. */
module ContractValues {
  import opened Wrappers
  import opened DotNet

  /** `ContractStatus`: the aggregate's four-status lifecycle. */
  datatype ContractStatus = Pending | InProgress | Completed | Cancelled

  /** One constructor per distinct throw in the domain and the service;
      a status the message prints is a parameter.
      All are `UnloadingContractException` in the source except
      `NotFound` (an `InvalidOperationException` from loading) and
      `DuplicateKey` (the store refusing a second row with the same
      primary key). */
  datatype ContractError =
    | EmptyContractId
    | EmptyWarehouseId
    | EmptyManagerId
    | EmptyProductId
    | NegativeQuantity
    | NegativeResult
    | NotUtc
    | InThePast
    | LinesOnlyWhilePending
    | RescheduleOnlyWhilePending
    | AlreadyStarted
    | NoLines
    | NotStarted
    | AlreadyCompleted
    | TransitionRefused(from: ContractStatus, to: ContractStatus)
    | CancelRefused(from: ContractStatus)
    | NotFound
    | DuplicateKey

  // ------------------------------------------------------- GUID wrappers

  /** `ContractId`: a non-empty GUID, equal by value. */
  datatype ContractId = ContractId(value: NonEmptyGuid) {
    static function Of(id: Guid): (r: Result<ContractId, ContractError>)
      ensures r.Success? <==> id != EMPTY_GUID
      ensures r.Success? ==> r.value.value == id
      ensures r.Failure? ==> r.error == EmptyContractId
    {
      if id == EMPTY_GUID then Failure(EmptyContractId) else Success(ContractId(id))
    }

    /** `Equals` and `==`: same GUID, hence the same value. */
    predicate Equals(other: ContractId)
      ensures Equals(other) <==> this == other
    {
      value == other.value
    }

    predicate NotEquals(other: ContractId)
      ensures NotEquals(other) <==> this != other
    {
      value != other.value
    }
  }

  /** `WarehouseId`: a non-empty GUID, equal by value. */
  datatype WarehouseId = WarehouseId(value: NonEmptyGuid) {
    static function Of(id: Guid): (r: Result<WarehouseId, ContractError>)
      ensures r.Success? <==> id != EMPTY_GUID
      ensures r.Success? ==> r.value.value == id
      ensures r.Failure? ==> r.error == EmptyWarehouseId
    {
      if id == EMPTY_GUID then Failure(EmptyWarehouseId) else Success(WarehouseId(id))
    }

    predicate Equals(other: WarehouseId)
      ensures Equals(other) <==> this == other
    {
      value == other.value
    }

    predicate NotEquals(other: WarehouseId)
      ensures NotEquals(other) <==> this != other
    {
      value != other.value
    }
  }

  /** `ManagerId`: a non-empty GUID, equal by value. */
  datatype ManagerId = ManagerId(value: NonEmptyGuid) {
    static function Of(id: Guid): (r: Result<ManagerId, ContractError>)
      ensures r.Success? <==> id != EMPTY_GUID
      ensures r.Success? ==> r.value.value == id
      ensures r.Failure? ==> r.error == EmptyManagerId
    {
      if id == EMPTY_GUID then Failure(EmptyManagerId) else Success(ManagerId(id))
    }

    predicate Equals(other: ManagerId)
      ensures Equals(other) <==> this == other
    {
      value == other.value
    }

    predicate NotEquals(other: ManagerId)
      ensures NotEquals(other) <==> this != other
    {
      value != other.value
    }
  }

  /** `ProductId`: a non-empty GUID, equal by value; this equality is
      what makes `AddLine` merge lines of the same product. */
  datatype ProductId = ProductId(value: NonEmptyGuid) {
    static function Of(id: Guid): (r: Result<ProductId, ContractError>)
      ensures r.Success? <==> id != EMPTY_GUID
      ensures r.Success? ==> r.value.value == id
      ensures r.Failure? ==> r.error == EmptyProductId
    {
      if id == EMPTY_GUID then Failure(EmptyProductId) else Success(ProductId(id))
    }

    predicate Equals(other: ProductId)
      ensures Equals(other) <==> this == other
    {
      value == other.value
    }

    predicate NotEquals(other: ProductId)
      ensures NotEquals(other) <==> this != other
    {
      value != other.value
    }
  }

  // ------------------------------------------------------------ Quantity

  type NonNegativeInt32 = x: int | 0 <= x <= INT32_MAX

  /** `Quantity`: a C# `int` that the private constructor only receives
      from `Of`, hence never negative. */
  datatype Quantity = Quantity(value: NonNegativeInt32) {

    static function Of(value: Int32): (r: Result<Quantity, ContractError>)
      ensures r.Success? <==> value >= 0
      ensures r.Success? ==> r.value.value == value
      ensures r.Failure? ==> r.error == NegativeQuantity
    {
      if value < 0 then Failure(NegativeQuantity) else Success(Quantity(value))
    }

    /** `Add`: `Of(Value + other)` with the sum computed as an unchecked
        `int`. A sum above `int.MaxValue` wraps to a negative number, so
        the addition succeeds exactly when the true sum fits. */
    function Add(other: Int32): (r: Result<Quantity, ContractError>)
      ensures r.Success? <==> 0 <= value + other <= INT32_MAX
      ensures r.Success? ==> r.value.value == value + other
      ensures r.Failure? ==> r.error == NegativeQuantity
    {
      Of(Wrap32(value + other))
    }

    /** `Subtract`: refuses a (wrapped) negative difference, otherwise
        `Of(Value - other)`. */
    function Subtract(other: Int32): (r: Result<Quantity, ContractError>)
      ensures r.Success? <==> 0 <= value - other <= INT32_MAX
      ensures r.Success? ==> r.value.value == value - other
      ensures r.Failure? ==> r.error == NegativeResult
    {
      if Wrap32(value - other) < 0 then Failure(NegativeResult)
      else Of(Wrap32(value - other))
    }

    predicate Equals(other: Quantity)
      ensures Equals(other) <==> this == other
    {
      value == other.value
    }

    predicate NotEquals(other: Quantity)
      ensures NotEquals(other) <==> this != other
    {
      !Equals(other)
    }

    /** `CompareTo`: `Int32.CompareTo` on the values. */
    function CompareTo(other: Quantity): (c: int)
      ensures c in {-1, 0, 1}
      ensures c < 0 <==> value < other.value
      ensures c == 0 <==> this == other
    {
      CompareInts(value, other.value)
    }

    /** The operators `<`, `>`, `<=`, `>=` and their agreement with
        `CompareTo`. */
    predicate Less(other: Quantity)
      ensures Less(other) <==> CompareTo(other) < 0
    {
      value < other.value
    }

    predicate Greater(other: Quantity)
      ensures Greater(other) <==> CompareTo(other) > 0
    {
      value > other.value
    }

    predicate AtMost(other: Quantity)
      ensures AtMost(other) <==> CompareTo(other) <= 0
    {
      value <= other.value
    }

    predicate AtLeast(other: Quantity)
      ensures AtLeast(other) <==> CompareTo(other) >= 0
    {
      value >= other.value
    }
  }

  /** `CompareTo` is antisymmetric, as `IComparable` requires. */
  lemma CompareToAntisymmetric(a: Quantity, b: Quantity)
    ensures a.CompareTo(b) == -b.CompareTo(a)
  {
  }

  /** Adding `n` and then subtracting `n` gives back the quantity. */
  lemma AddThenSubtract(q: Quantity, n: Int32)
    requires q.Add(n).Success?
    ensures q.Add(n).value.Subtract(n) == Success(q)
  {
  }

  // ------------------------------------------------------- ScheduledDate

  /** `ScheduledDate`. The datatype constructor is the public constructor
      the persistence layer uses: it wraps any `DateTime` unchecked. */
  datatype ScheduledDate = ScheduledDate(value: DateTime) {

    /** `Of`: the date must be UTC and not before `now` (the clock read
        `DateTime.UtcNow`); the instant `now` itself is accepted. */
    static function Of(dt: DateTime, now: Ticks): (r: Result<ScheduledDate, ContractError>)
      ensures r.Success? <==> dt.kind == Utc && dt.ticks >= now
      ensures r.Success? ==> r.value.value == dt
      ensures r.Failure? ==> r.error == (if dt.kind != Utc then NotUtc else InThePast)
    {
      if dt.kind != Utc then Failure(NotUtc)
      else if dt.ticks < now then Failure(InThePast)
      else Success(ScheduledDate(dt))
    }

    /** `Equals(ScheduledDate?)`: never equal to null, otherwise
        `DateTime.Equals`, which compares ticks and ignores the kind. */
    predicate Equals(other: Option<ScheduledDate>)
      ensures Equals(other) <==> other.Some? && CompareTo(other) == 0
    {
      other.Some? && value.ticks == other.value.value.ticks
    }

    /** `CompareTo(ScheduledDate?)`: 1 against null, otherwise the
        `DateTime` order (by ticks). */
    function CompareTo(other: Option<ScheduledDate>): (c: int)
      ensures c in {-1, 0, 1}
      ensures other.None? ==> c == 1
      ensures other.Some? ==> (c < 0 <==> value.ticks < other.value.value.ticks)
      ensures other.Some? ==> (c > 0 <==> value.ticks > other.value.value.ticks)
    {
      if other.None? then 1 else CompareInts(value.ticks, other.value.value.ticks)
    }

    predicate Less(other: ScheduledDate)
      ensures Less(other) <==> CompareTo(Some(other)) < 0
    {
      value.ticks < other.value.ticks
    }

    predicate Greater(other: ScheduledDate)
      ensures Greater(other) <==> CompareTo(Some(other)) > 0
    {
      value.ticks > other.value.ticks
    }

    predicate AtMost(other: ScheduledDate)
      ensures AtMost(other) <==> CompareTo(Some(other)) <= 0
    {
      value.ticks <= other.value.ticks
    }

    predicate AtLeast(other: ScheduledDate)
      ensures AtLeast(other) <==> CompareTo(Some(other)) >= 0
    {
      value.ticks >= other.value.ticks
    }
  }

  /** The static `==` on `ScheduledDate?` (`object.Equals(left, right)`):
      two nulls are equal, null and non-null are not, otherwise
      `Equals`. `!=` is its negation. */
  predicate ScheduledDateOpEquals(left: Option<ScheduledDate>, right: Option<ScheduledDate>)
    ensures left.None? && right.None? ==> ScheduledDateOpEquals(left, right)
    ensures left.None? != right.None? ==> !ScheduledDateOpEquals(left, right)
    ensures left.Some? ==> (ScheduledDateOpEquals(left, right) <==> left.value.Equals(right))
  {
    if left == right then true
    else if left.None? || right.None? then false
    else left.value.Equals(right)
  }

  /** Equality of scheduled dates is coarser than equality of values:
      two dates at the same instant are equal whatever their kinds. */
  lemma EqualsIgnoresKind(t: Ticks)
    ensures ScheduledDate(DateTime(t, Local)).Equals(Some(ScheduledDate(DateTime(t, Utc))))
    ensures ScheduledDate(DateTime(t, Local)) != ScheduledDate(DateTime(t, Utc))
  {
  }

  /** For dates built by `Of` (both UTC), `Equals` is exactly equality of
      the values. */
  lemma {:induction false} ValidatedEqualsIsIdentity(a: DateTime, b: DateTime, now: Ticks)
    requires ScheduledDate.Of(a, now).Success? && ScheduledDate.Of(b, now).Success?
    ensures ScheduledDate.Of(a, now).value.Equals(Some(ScheduledDate.Of(b, now).value))
            <==> a == b
  {
    assert a.kind == Utc && b.kind == Utc;
  }
}
