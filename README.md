# Warehouse unloading contracts and organization, in Dafny

This project models the sequential domain logic of a warehouse back end
and proves properties of it. The logic has three parts.

- **Contract processing.** The `UnloadingContract` aggregate root owns
  `UnloadingLine` entities and uses the value objects `Quantity`,
  `ScheduledDate`, `ContractId`, `WarehouseId`, `ManagerId` and
  `ProductId`. A contract moves through Pending, InProgress, Completed
  and Cancelled. While it is Pending it holds at most one line per
  product; adding a product that is already present merges the
  quantities.
  - `unloading_contract.dfy` first states each aggregate method as a
    function on a `ContractRecord` snapshot and proves lemmas about those
    functions. The class `UnloadingContract` then updates its fields and
    its line objects in place, and each method is proved to move
    `Snapshot()` exactly as the function says.
- **The application service and the saga.**
  - `UnloadingContractService` loads a contract from a repository, runs
    one aggregate method and writes the contract back. Start, Complete
    and Cancel are guarded by a Stateless permit table. The repository is
    a map from the contract's GUID to its stored record.
  - `UnloadingContractStateMachine` is a MassTransit saga. It follows the
    contract's commands on its own and cancels an instance after one hour
    without activity. It is modelled as a class holding the fields of
    `UnloadingContractState`, and it talks to a `TimeoutScheduler` class
    that stands for the message scheduler.
- **Organization.** This part covers:
  - the string value objects `Address`, `StorageFacilityName` and
    `SectionCode`, which trim their input and reject blanks;
  - `FloorNumber` and `FloorCount`;
  - the GUID wrappers;
  - `Area`, of which only the positivity guard is modelled;
  - the `StorageSection` entity;
  - the `StorageFacility` aggregate, which keeps its section codes
    unique in a list it updates in place;
  - `Building.Create`.

Conventions shared by all files (`dotnet.dfy`):
- A GUID is an `int`, and 0 stands for `Guid.Empty`.
- A `DateTime` is a pair of ticks and kind. Equality and ordering compare
  ticks only, as .NET does.
- A .NET `string` is a sequence of UTF-16 code units. `IsWhiteSpace` is
  .NET's set of white-space characters, and `Trim` removes them from both
  ends.
- A `double` is a finite real, ±infinity or NaN, compared as IEEE does.
- A C# `int` is an unbounded integer in the 32-bit range. Wrap-around is
  written out explicitly (`Wrap32`) wherever unchecked arithmetic can
  overflow.
- A thrown exception is a `Failure`/`Fail` value. There is one error
  constructor per distinct exception message (a status the message
  prints is a parameter: `TransitionRefused(from, to)` for StartAsync's
  and CompleteAsync's "cannot move from … to …", `CancelRefused(from)`
  for CancelAsync's "cannot cancel from …"), so the model also checks
  the order in which guards are evaluated.

## Model

| member | source | states |
|---|---|---|
| ContractValues.ContractId.Of | src/ContractProcessing/Domain/ValueObjects/ContractId.cs:32-37 | succeeds iff the GUID is not empty, keeps the GUID, and otherwise fails with the empty-id error |
| ContractValues.ContractId.Equals | src/ContractProcessing/Domain/ValueObjects/ContractId.cs:43 | two ids are equal iff they are the same value (same GUID) |
| ContractValues.ContractId.NotEquals | src/ContractProcessing/Domain/ValueObjects/ContractId.cs:55-60 | `!=` holds exactly for two different values |
| ContractValues.WarehouseId.Of | src/ContractProcessing/Domain/ValueObjects/WarehouseId.cs:32-37 | succeeds iff the GUID is not empty and keeps it; error otherwise |
| ContractValues.WarehouseId.Equals | src/ContractProcessing/Domain/ValueObjects/WarehouseId.cs:40 | equal iff same GUID |
| ContractValues.WarehouseId.NotEquals | src/ContractProcessing/Domain/ValueObjects/WarehouseId.cs:55-60 | `!=` holds exactly for two different values |
| ContractValues.ManagerId.Of | src/ContractProcessing/Domain/ValueObjects/ManagerId.cs:32-37 | succeeds iff the GUID is not empty and keeps it; error otherwise |
| ContractValues.ManagerId.Equals | src/ContractProcessing/Domain/ValueObjects/ManagerId.cs:40 | equal iff same GUID |
| ContractValues.ManagerId.NotEquals | src/ContractProcessing/Domain/ValueObjects/ManagerId.cs:55-60 | `!=` holds exactly for two different values |
| ContractValues.ProductId.Of | src/ContractProcessing/Domain/ValueObjects/ProductId.cs:32-37 | succeeds iff the GUID is not empty and keeps it; error otherwise |
| ContractValues.ProductId.Equals | src/ContractProcessing/Domain/ValueObjects/ProductId.cs:40 | equal iff same GUID (the equality line merging relies on) |
| ContractValues.ProductId.NotEquals | src/ContractProcessing/Domain/ValueObjects/ProductId.cs:55-60 | `!=` holds exactly for two different values |
| ContractValues.Quantity.Of | src/ContractProcessing/Domain/ValueObjects/Quantity.cs:32-37 | fails iff the value is negative; otherwise the value is kept (every quantity is in 0..int.MaxValue by its type) |
| ContractValues.Quantity.Add | src/ContractProcessing/Domain/ValueObjects/Quantity.cs:44 | with 32-bit wrap-around: succeeds iff the true sum is in 0..int.MaxValue, then yields the sum; otherwise the negative-quantity error |
| ContractValues.Quantity.Subtract | src/ContractProcessing/Domain/ValueObjects/Quantity.cs:54-59 | with 32-bit wrap-around: succeeds iff the true difference is in 0..int.MaxValue, then yields it; otherwise the negative-result error |
| ContractValues.Quantity.Equals | src/ContractProcessing/Domain/ValueObjects/Quantity.cs:65 | equal iff the values are equal |
| ContractValues.Quantity.NotEquals | src/ContractProcessing/Domain/ValueObjects/Quantity.cs:80-85 | `!=` holds exactly for two different values |
| ContractValues.Quantity.CompareTo | src/ContractProcessing/Domain/ValueObjects/Quantity.cs:75 | result in {-1, 0, 1}; negative iff smaller value, zero iff equal |
| ContractValues.Quantity.Less | src/ContractProcessing/Domain/ValueObjects/Quantity.cs:90 | `<` agrees with `CompareTo` |
| ContractValues.Quantity.Greater | src/ContractProcessing/Domain/ValueObjects/Quantity.cs:95 | `>` agrees with `CompareTo` |
| ContractValues.Quantity.AtMost | src/ContractProcessing/Domain/ValueObjects/Quantity.cs:100 | `<=` agrees with `CompareTo` |
| ContractValues.Quantity.AtLeast | src/ContractProcessing/Domain/ValueObjects/Quantity.cs:105 | `>=` agrees with `CompareTo` |
| ContractValues.CompareToAntisymmetric | src/ContractProcessing/Domain/ValueObjects/Quantity.cs:75 | `a.CompareTo(b) == -b.CompareTo(a)` |
| ContractValues.AddThenSubtract | src/ContractProcessing/Domain/ValueObjects/Quantity.cs:44-59 | a successful `Add(n)` followed by `Subtract(n)` gives back the original quantity |
| ContractValues.ScheduledDate.Of | src/ContractProcessing/Domain/ValueObjects/ScheduledDate.cs:31-38 | succeeds iff the kind is UTC and the date is not before `now` (equal is accepted), keeping the date; the non-UTC error is checked before the in-the-past error |
| ContractValues.ScheduledDate.Equals | src/ContractProcessing/Domain/ValueObjects/ScheduledDate.cs:47-48 | never equal to null; otherwise equal iff `CompareTo` is 0 (same ticks) |
| ContractValues.ScheduledDate.CompareTo | src/ContractProcessing/Domain/ValueObjects/ScheduledDate.cs:54-58 | 1 against null; otherwise the sign of the tick difference |
| ContractValues.ScheduledDate.Less | src/ContractProcessing/Domain/ValueObjects/ScheduledDate.cs:73 | `<` agrees with `CompareTo` |
| ContractValues.ScheduledDate.Greater | src/ContractProcessing/Domain/ValueObjects/ScheduledDate.cs:78 | `>` agrees with `CompareTo` |
| ContractValues.ScheduledDate.AtMost | src/ContractProcessing/Domain/ValueObjects/ScheduledDate.cs:83 | `<=` agrees with `CompareTo` |
| ContractValues.ScheduledDate.AtLeast | src/ContractProcessing/Domain/ValueObjects/ScheduledDate.cs:88 | `>=` agrees with `CompareTo` |
| ContractValues.ScheduledDateOpEquals | src/ContractProcessing/Domain/ValueObjects/ScheduledDate.cs:63-68 | two nulls are equal, null and non-null are not, otherwise `Equals` |
| ContractValues.EqualsIgnoresKind | src/ContractProcessing/Domain/ValueObjects/ScheduledDate.cs:18-21 | the unchecked constructor can build dates that are `Equals` although they differ in kind |
| ContractValues.ValidatedEqualsIsIdentity | src/ContractProcessing/Domain/ValueObjects/ScheduledDate.cs:31-48 | for two dates accepted by `Of`, `Equals` holds iff the dates are identical |
| UnloadingLines.UnloadingLine.Create | src/ContractProcessing/Domain/Entity/UnloadingLine.cs:32-46 | stores exactly the given id, product and quantity |
| UnloadingLines.UnloadingLine.Record | src/ContractProcessing/Domain/Entity/UnloadingLine.cs:17-27 | the record holds the line's id, product and quantity |
| UnloadingLines.UnloadingLine.IncreaseQuantity | src/ContractProcessing/Domain/Entity/UnloadingLine.cs:52-55 | outcome is that of `Quantity.Add`; on success the quantity is old + n, on failure it is unchanged |
| UnloadingLines.UnloadingLine.DecreaseQuantity | src/ContractProcessing/Domain/Entity/UnloadingLine.cs:61-64 | outcome is that of `Quantity.Subtract`; on success the quantity is old − n, on failure it is unchanged |
| UnloadingLines.IncreaseThenDecrease | src/ContractProcessing/Domain/Entity/UnloadingLine.cs:52-64 | a successful increase by n followed by a decrease by n succeeds and restores the quantity |
| UnloadingContracts.IndexOfProduct | src/ContractProcessing/Domain/Aggregates/UnloadingContract.cs:89 | `FirstOrDefault`: the first position holding the product, or none iff no line holds it |
| UnloadingContracts.CreateSpec | src/ContractProcessing/Domain/Aggregates/UnloadingContract.cs:39-74 | succeeds iff the three GUIDs are non-empty and the date is UTC and not in the past; result is Pending with no lines and the given ids, date and creation time; the first empty id in argument order, then a non-UTC date, then a past date, names the error |
| UnloadingContracts.AddLineSpec | src/ContractProcessing/Domain/Aggregates/UnloadingContract.cs:84-97 | fails unless Pending (checked first), then on an empty product id; a success changes only the lines |
| UnloadingContracts.RescheduleSpec | src/ContractProcessing/Domain/Aggregates/UnloadingContract.cs:106-111 | succeeds iff Pending and the date is valid; then only `ScheduledFor` changes; Pending is checked before the date |
| UnloadingContracts.StartSpec | src/ContractProcessing/Domain/Aggregates/UnloadingContract.cs:119-126 | succeeds iff Pending with at least one line, moving only the status to InProgress; the already-started error is checked before the no-lines error |
| UnloadingContracts.CompleteSpec | src/ContractProcessing/Domain/Aggregates/UnloadingContract.cs:134-139 | succeeds iff InProgress, moving only the status to Completed |
| UnloadingContracts.CancelSpec | src/ContractProcessing/Domain/Aggregates/UnloadingContract.cs:147-152 | fails iff Completed; otherwise (Cancelled included) only the status becomes Cancelled |
| UnloadingContracts.AddLineMerges | src/ContractProcessing/Domain/Aggregates/UnloadingContract.cs:89-91 | a product already present: succeeds iff the sum fits, then that one line's quantity grows by `quantity` and the line count stays; otherwise the negative-quantity error |
| UnloadingContracts.AddLineAppends | src/ContractProcessing/Domain/Aggregates/UnloadingContract.cs:92-96 | a new product: succeeds iff the quantity is not negative, then exactly one line with the product and quantity is appended and earlier lines are untouched |
| UnloadingContracts.AddLineKeepsProductsUnique | src/ContractProcessing/Domain/Aggregates/UnloadingContract.cs:89-96 | a successful `AddLine` keeps one line per product |
| UnloadingContracts.TotalQuantityUpdate | src/ContractProcessing/Domain/Aggregates/UnloadingContract.cs:90-91 | replacing one line changes each product's total by that line's difference |
| UnloadingContracts.AddLineAddsToTotal | src/ContractProcessing/Domain/Aggregates/UnloadingContract.cs:89-96 | a successful `AddLine` adds `quantity` to its product's total and leaves other totals alone |
| UnloadingContracts.TotalIsLineQuantity | src/ContractProcessing/Domain/Aggregates/UnloadingContract.cs:89 | with unique products, a product's total is the quantity on its one line |
| UnloadingContracts.TotalIsAbsent | src/ContractProcessing/Domain/Aggregates/UnloadingContract.cs:89 | a product with no line has total 0 |
| UnloadingContracts.AddLinesAccumulate | src/ContractProcessing/Domain/Aggregates/UnloadingContract.cs:84-97 | after any sequence of successful `AddLine` calls products stay unique and each total grew by the sum of the amounts added for it |
| UnloadingContracts.FilledContractLines | src/ContractProcessing/Domain/Aggregates/UnloadingContract.cs:84-97 | starting from no lines, each line ends up holding the sum of the amounts added for its product |
| UnloadingContracts.AddLineTwiceMerges | src/ContractProcessing/Domain/Aggregates/UnloadingContract.cs:89-96 | adding a new product twice gives one line with the first call's id and the summed quantity |
| UnloadingContracts.CreateIsWellFormed | src/ContractProcessing/Domain/Aggregates/UnloadingContract.cs:62-74 | a created contract satisfies the invariant (unique products; started contracts have lines) |
| UnloadingContracts.ApplyKeepsWellFormed | src/ContractProcessing/Domain/Aggregates/UnloadingContract.cs:84-152 | every successful aggregate method keeps the invariant |
| UnloadingContracts.ApplyAllKeepsWellFormed | src/ContractProcessing/Domain/Aggregates/UnloadingContract.cs:84-152 | every sequence of successful calls keeps the invariant |
| UnloadingContracts.ApplyKeepsIdentity | src/ContractProcessing/Domain/Aggregates/UnloadingContract.cs:14-34 | no method changes the id, warehouse, manager or creation time |
| UnloadingContracts.FrozenOutsidePending | src/ContractProcessing/Domain/Aggregates/UnloadingContract.cs:84-111 | once a contract has left Pending, its lines and date never change and it never returns to Pending |
| UnloadingContracts.CompletedIsFinal | src/ContractProcessing/Domain/Aggregates/UnloadingContract.cs:84-152 | every non-empty sequence of calls on a Completed contract fails |
| UnloadingContracts.CancelledAcceptsOnlyCancel | src/ContractProcessing/Domain/Aggregates/UnloadingContract.cs:84-152 | a Cancelled contract accepts only `Cancel`, which changes nothing |
| UnloadingContracts.UnloadingContract.constructor | src/ContractProcessing/Domain/Aggregates/UnloadingContract.cs:39-52 | the private constructor: Pending, no lines, the given values |
| UnloadingContracts.UnloadingContract.Create | src/ContractProcessing/Domain/Aggregates/UnloadingContract.cs:62-74 | fails exactly as `CreateSpec` does; on success a fresh contract whose snapshot is `CreateSpec`'s result |
| UnloadingContracts.UnloadingContract.Rehydrate | src/ContractProcessing/Domain/Aggregates/UnloadingContract.cs:14-34 | materialising a stored record gives fresh line objects and a snapshot equal to the record |
| UnloadingContracts.UnloadingContract.FindLine | src/ContractProcessing/Domain/Aggregates/UnloadingContract.cs:89 | the loop finds the position `IndexOfProduct` names |
| UnloadingContracts.UnloadingContract.IncreaseLineAt | src/ContractProcessing/Domain/Aggregates/UnloadingContract.cs:90-91 | raises the one line in place; the other line records stay as they were |
| UnloadingContracts.UnloadingContract.AddLine | src/ContractProcessing/Domain/Aggregates/UnloadingContract.cs:84-97 | outcome and new snapshot are `AddLineSpec`'s; a failure changes nothing; one line per product is kept |
| UnloadingContracts.UnloadingContract.AppendLine | src/ContractProcessing/Domain/Aggregates/UnloadingContract.cs:92-96 | a new line object with the validated quantity goes at the end; a negative quantity changes nothing |
| UnloadingContracts.UnloadingContract.Reschedule | src/ContractProcessing/Domain/Aggregates/UnloadingContract.cs:106-111 | outcome and new snapshot are `RescheduleSpec`'s |
| UnloadingContracts.UnloadingContract.Start | src/ContractProcessing/Domain/Aggregates/UnloadingContract.cs:119-126 | outcome and new snapshot are `StartSpec`'s |
| UnloadingContracts.UnloadingContract.Complete | src/ContractProcessing/Domain/Aggregates/UnloadingContract.cs:134-139 | outcome and new snapshot are `CompleteSpec`'s |
| UnloadingContracts.UnloadingContract.Cancel | src/ContractProcessing/Domain/Aggregates/UnloadingContract.cs:147-152 | outcome and new snapshot are `CancelSpec`'s |
| ContractService.Load | src/ContractProcessing/Applications/AppServices/UnloadingContractService.cs:151-162 | succeeds iff the id is non-empty and stored, returning the stored contract; the empty-id error comes before not-found |
| ContractService.PermitTable | src/ContractProcessing/Applications/AppServices/UnloadingContractService.cs:60-72 | Start only from Pending, Complete only from InProgress, Cancel only from Pending or InProgress; the callback sets the status the table names |
| ContractService.StartAsyncSucceedsIff | src/ContractProcessing/Applications/AppServices/UnloadingContractService.cs:54-85 | succeeds iff Pending with a line, leaving it InProgress; a non-Pending contract is refused by the table with "cannot move from <status> to InProgress", a Pending one without lines by the aggregate |
| ContractService.CompleteAsyncSucceedsIff | src/ContractProcessing/Applications/AppServices/UnloadingContractService.cs:88-117 | succeeds iff InProgress, leaving it Completed; otherwise the table's "cannot move from <status> to Completed" |
| ContractService.CancelAsyncSucceedsIff | src/ContractProcessing/Applications/AppServices/UnloadingContractService.cs:120-149 | succeeds iff Pending or InProgress, leaving it Cancelled; Completed and Cancelled are refused with "cannot cancel from <status>" |
| ContractService.ServiceStricterThanAggregate | src/ContractProcessing/Applications/AppServices/UnloadingContractService.cs:120-149 | the aggregate cancels a Cancelled contract again but the service refuses; for every other case the two agree on success |
| ContractService.HandleTouchesOneEntry | src/ContractProcessing/Applications/AppServices/UnloadingContractService.cs:74-84 | a successful request changes only the named entry, keeping its id and creation time; all other entries are unchanged |
| ContractService.HandleKeepsStoreValid | src/ContractProcessing/Applications/AppServices/UnloadingContractService.cs:38-149 | every request keeps each stored contract filed under its own id and well-formed |
| ContractService.Fire | src/ContractProcessing/Applications/AppServices/UnloadingContractService.cs:68-82 | a trigger the table refuses changes nothing and gives the calling method's own refusal; a permitted one runs the aggregate method; outcome and snapshot follow `FireSpec` |
| ContractService.UnloadingContractService.constructor | src/ContractProcessing/Applications/AppServices/UnloadingContractService.cs:25-162 | the service starts over the given valid repository |
| ContractService.UnloadingContractService.LoadContract | src/ContractProcessing/Applications/AppServices/UnloadingContractService.cs:151-162 | fails as `Load` does; on success a fresh contract object whose snapshot is the stored record |
| ContractService.UnloadingContractService.CreateAsync | src/ContractProcessing/Applications/AppServices/UnloadingContractService.cs:25-35 | stores `CreateSpec`'s contract under its id and returns the id; a validation failure or an id already stored leaves the repository unchanged |
| ContractService.UnloadingContractService.AddLineAsync | src/ContractProcessing/Applications/AppServices/UnloadingContractService.cs:38-43 | outcome and new repository are `Handle`'s: unchanged on any failure, otherwise the one entry is replaced |
| ContractService.UnloadingContractService.RescheduleAsync | src/ContractProcessing/Applications/AppServices/UnloadingContractService.cs:46-51 | outcome and new repository are `Handle`'s |
| ContractService.UnloadingContractService.Transition | src/ContractProcessing/Applications/AppServices/UnloadingContractService.cs:54-149 | the shared load / fire / write-back sequence, with outcome and repository as `Handle` gives |
| ContractService.UnloadingContractService.StartAsync | src/ContractProcessing/Applications/AppServices/UnloadingContractService.cs:54-85 | outcome and new repository are `Handle`'s for Start |
| ContractService.UnloadingContractService.CompleteAsync | src/ContractProcessing/Applications/AppServices/UnloadingContractService.cs:88-117 | outcome and new repository are `Handle`'s for Complete |
| ContractService.UnloadingContractService.CancelAsync | src/ContractProcessing/Applications/AppServices/UnloadingContractService.cs:120-149 | outcome and new repository are `Handle`'s for Cancel |
| ContractSaga.ReplayStep | src/ContractProcessing/Applications/AppServices/Sagas/UnloadingContractStateMachine.cs:102-158 | accepting one more event moves the replayed state by the table and counts one more AddLine when it is one |
| ContractSaga.FinalStatesAcceptNothing | src/ContractProcessing/Applications/AppServices/Sagas/UnloadingContractStateMachine.cs:140-158 | Completed and Cancelled accept no event |
| ContractSaga.OnlyCreateLeavesInitial | src/ContractProcessing/Applications/AppServices/Sagas/UnloadingContractStateMachine.cs:102-114 | only CreateContract starts an instance; no event leads back to Initial |
| ContractSaga.AcceptingStates | src/ContractProcessing/Applications/AppServices/Sagas/UnloadingContractStateMachine.cs:116-158 | AddLine and Reschedule only in Created; Start in Created, LinesAdded, Rescheduled; Complete and Cancel only in InProgress; a timeout in every active state, leading to Cancelled |
| ContractSaga.FinalStatesAreStuck | src/ContractProcessing/Applications/AppServices/Sagas/UnloadingContractStateMachine.cs:140-158 | from a final state no non-empty history is accepted |
| ContractSaga.AtMostOneAddLine | src/ContractProcessing/Applications/AppServices/Sagas/UnloadingContractStateMachine.cs:116-120 | any accepted history holds at most one AddLine, exactly one in LinesAdded and none in Initial, Created or Rescheduled |
| ContractSaga.NeverBackToInitial | src/ContractProcessing/Applications/AppServices/Sagas/UnloadingContractStateMachine.cs:102-158 | an instance that accepted anything is no longer in Initial |
| ContractSaga.TimeoutScheduler.constructor | src/ContractProcessing/Applications/AppServices/Sagas/UnloadingContractStateMachine.cs:96-100 | the scheduler starts with nothing pending |
| ContractSaga.TimeoutScheduler.SchedulePublish | src/ContractProcessing/Applications/AppServices/Sagas/UnloadingContractStateMachine.cs:174-180 | returns a non-empty token never issued before and records it as pending at the given due time |
| ContractSaga.TimeoutScheduler.CancelScheduledSend | src/ContractProcessing/Applications/AppServices/Sagas/UnloadingContractStateMachine.cs:170-171 | removes the token if pending; an unknown token changes nothing |
| ContractSaga.TimeoutScheduler.Deliver | src/ContractProcessing/Applications/AppServices/Sagas/UnloadingContractStateMachine.cs:153-158 | only a pending token is delivered, and it is then no longer pending |
| ContractSaga.OnlyStoredTokenPending | src/ContractProcessing/Applications/AppServices/Sagas/UnloadingContractStateMachine.cs:163-191 | when only the stored token may be pending, cancelling it leaves nothing pending |
| ContractSaga.UnloadingContractSaga.constructor | src/ContractProcessing/Infrastructures/Sagas/UnloadingContractState.cs:11-52 | a new instance is Initial with no token, no lines and no history |
| ContractSaga.UnloadingContractSaga.RescheduleTimeout | src/ContractProcessing/Applications/AppServices/Sagas/UnloadingContractStateMachine.cs:163-181 | cancels the stored token, schedules a new timeout one hour after `now` and stores its new token; exactly that token is then pending |
| ContractSaga.UnloadingContractSaga.CancelTimeout | src/ContractProcessing/Applications/AppServices/Sagas/UnloadingContractStateMachine.cs:183-191 | cancels the stored token if any, leaving nothing pending and the token field as it was |
| ContractSaga.UnloadingContractSaga.CopyContract | src/ContractProcessing/Applications/AppServices/Sagas/UnloadingContractStateMachine.cs:104-111 | the `Then` activity sets warehouse, manager, creation time and date from the message and zero lines, and touches no other field |
| ContractSaga.UnloadingContractSaga.OnCreateContract | src/ContractProcessing/Applications/AppServices/Sagas/UnloadingContractStateMachine.cs:102-114 | accepted iff Initial; copies warehouse, manager, date and creation time, counts no lines, starts the timer and enters Created, leaving the start and completion times as they were; otherwise nothing changes |
| ContractSaga.UnloadingContractSaga.OnAddLine | src/ContractProcessing/Applications/AppServices/Sagas/UnloadingContractStateMachine.cs:116-120 | accepted iff Created; one more line, a new timer token, LinesAdded, every other data field as it was; otherwise nothing changes |
| ContractSaga.UnloadingContractSaga.OnReschedule | src/ContractProcessing/Applications/AppServices/Sagas/UnloadingContractStateMachine.cs:122-125 | accepted iff Created; the new date, a new timer token, Rescheduled, every other data field as it was; otherwise nothing changes |
| ContractSaga.UnloadingContractSaga.OnStart | src/ContractProcessing/Applications/AppServices/Sagas/UnloadingContractStateMachine.cs:127-138 | accepted iff Created, LinesAdded or Rescheduled; records the start time, cancels the timer, InProgress, every other data field as it was; otherwise nothing changes |
| ContractSaga.UnloadingContractSaga.OnComplete | src/ContractProcessing/Applications/AppServices/Sagas/UnloadingContractStateMachine.cs:140-146 | accepted iff InProgress; records the completion time, nothing pending, Completed, every other data field as it was; otherwise nothing changes |
| ContractSaga.UnloadingContractSaga.OnCancel | src/ContractProcessing/Applications/AppServices/Sagas/UnloadingContractStateMachine.cs:147-151 | accepted iff InProgress; nothing pending, Cancelled, every data field as it was; otherwise nothing changes |
| ContractSaga.UnloadingContractSaga.OnTimeout | src/ContractProcessing/Applications/AppServices/Sagas/UnloadingContractStateMachine.cs:153-158 | accepted iff the token is still pending, which happens only for the stored token of a waiting instance; then Cancelled with nothing pending and every data field as it was; otherwise the instance is unchanged |
| ContractSaga.ValidInstanceFacts | src/ContractProcessing/Infrastructures/Sagas/UnloadingContractState.cs:11-52 | in every reachable instance LinesCount is 0 or 1, and no timeout is pending in InProgress, Completed or Cancelled |
| OrganizationValues.StorageFacilityId.Of | src/Organization/Domain/Warehouse.Organization.Domain/ValueObjects/StorageFacilityId.cs:32-37 | succeeds iff the GUID is not empty and keeps it; error otherwise |
| OrganizationValues.StorageFacilityId.Equals | src/Organization/Domain/Warehouse.Organization.Domain/ValueObjects/StorageFacilityId.cs:46-47 | never equal to null; otherwise equal iff same GUID |
| OrganizationValues.StorageFacilityId.OpEquals | src/Organization/Domain/Warehouse.Organization.Domain/ValueObjects/StorageFacilityId.cs:55 | null-safe `==` |
| OrganizationValues.StorageFacilityId.OpNotEquals | src/Organization/Domain/Warehouse.Organization.Domain/ValueObjects/StorageFacilityId.cs:60 | `!=` holds exactly when the two operands differ, null counting as a value of its own |
| OrganizationValues.BuildingId.Of | src/Organization/Domain/Warehouse.Organization.Domain/ValueObjects/BuildingId.cs:32-37 | succeeds iff the GUID is not empty and keeps it; error otherwise |
| OrganizationValues.BuildingId.Equals | src/Organization/Domain/Warehouse.Organization.Domain/ValueObjects/BuildingId.cs:43-44 | never equal to null; otherwise equal iff same GUID |
| OrganizationValues.BuildingId.OpEquals | src/Organization/Domain/Warehouse.Organization.Domain/ValueObjects/BuildingId.cs:55 | null-safe `==` |
| OrganizationValues.BuildingId.OpNotEquals | src/Organization/Domain/Warehouse.Organization.Domain/ValueObjects/BuildingId.cs:60 | `!=` holds exactly when the two operands differ, null counting as a value of its own |
| OrganizationValues.SectionId.Of | src/Organization/Domain/Warehouse.Organization.Domain/ValueObjects/SectionId.cs:32-37 | succeeds iff the GUID is not empty and keeps it; error otherwise |
| OrganizationValues.SectionId.Equals | src/Organization/Domain/Warehouse.Organization.Domain/ValueObjects/SectionId.cs:46-47 | never equal to null; otherwise equal iff same GUID |
| OrganizationValues.SectionId.OpEquals | src/Organization/Domain/Warehouse.Organization.Domain/ValueObjects/SectionId.cs:55 | null-safe `==` |
| OrganizationValues.SectionId.OpNotEquals | src/Organization/Domain/Warehouse.Organization.Domain/ValueObjects/SectionId.cs:60 | `!=` holds exactly when the two operands differ, null counting as a value of its own |
| OrganizationValues.Address.Of | src/Organization/Domain/Warehouse.Organization.Domain/ValueObjects/Address.cs:53-72 | succeeds iff all five parts are non-blank, storing each trimmed; the first blank part in the order country, region, city, street, building number names the error |
| OrganizationValues.Address.Equals | src/Organization/Domain/Warehouse.Organization.Domain/ValueObjects/Address.cs:86-94 | never equal to null; otherwise equal iff all five parts are equal |
| OrganizationValues.AddressOpEquals | src/Organization/Domain/Warehouse.Organization.Domain/ValueObjects/Address.cs:116 | null-safe `==`: equal iff both null or both the same address |
| OrganizationValues.AddressOpNotEquals | src/Organization/Domain/Warehouse.Organization.Domain/ValueObjects/Address.cs:124 | `!=` holds exactly when the two operands differ, null counting as a value of its own |
| OrganizationValues.AddressOfIsIdempotent | src/Organization/Domain/Warehouse.Organization.Domain/ValueObjects/Address.cs:55-71 | every stored part is non-empty and trimmed, so validating an address's parts again gives the same address |
| OrganizationValues.ToStringLayout | src/Organization/Domain/Warehouse.Organization.Domain/ValueObjects/Address.cs:107-108 | the display string is five parts and four ", " separators long, opens with the street and a separator and closes with a separator and the country |
| OrganizationValues.StorageFacilityName.Of | src/Organization/Domain/Warehouse.Organization.Domain/ValueObjects/StorageFacilityName.cs:15-45 | succeeds iff non-blank and at most 100 code units after trimming, storing the trimmed text; blank is reported before too-long |
| OrganizationValues.StorageFacilityName.Equals | src/Organization/Domain/Warehouse.Organization.Domain/ValueObjects/StorageFacilityName.cs:54-55 | ordinal equality; never equal to null |
| OrganizationValues.FacilityNameOpEquals | src/Organization/Domain/Warehouse.Organization.Domain/ValueObjects/StorageFacilityName.cs:63 | null-safe `==` |
| OrganizationValues.FacilityNameOpNotEquals | src/Organization/Domain/Warehouse.Organization.Domain/ValueObjects/StorageFacilityName.cs:68 | `!=` holds exactly when the two operands differ, null counting as a value of its own |
| OrganizationValues.FacilityNameOfIsIdempotent | src/Organization/Domain/Warehouse.Organization.Domain/ValueObjects/StorageFacilityName.cs:34-45 | validating an accepted name again gives the same name |
| OrganizationValues.FacilityNameIgnoresPadding | src/Organization/Domain/Warehouse.Organization.Domain/ValueObjects/StorageFacilityName.cs:34-42 | white space added at either end of a name changes neither the outcome nor the stored name |
| OrganizationValues.PaddedNameAccepted | src/Organization/Domain/Warehouse.Organization.Domain/ValueObjects/StorageFacilityName.cs:39-42 | the length is checked after trimming: a 100-unit name padded to 102 is accepted as the 100-unit name |
| OrganizationValues.SectionCode.Of | src/Organization/Domain/Warehouse.Organization.Domain/ValueObjects/SectionCode.cs:32-37 | succeeds iff non-blank, storing the trimmed text; error otherwise |
| OrganizationValues.SectionCode.Equals | src/Organization/Domain/Warehouse.Organization.Domain/ValueObjects/SectionCode.cs:46-47 | ordinal equality; never equal to null |
| OrganizationValues.SectionCodeOpEquals | src/Organization/Domain/Warehouse.Organization.Domain/ValueObjects/SectionCode.cs:55 | null-safe `==` |
| OrganizationValues.SectionCodeOpNotEquals | src/Organization/Domain/Warehouse.Organization.Domain/ValueObjects/SectionCode.cs:60 | `!=` holds exactly when the two operands differ, null counting as a value of its own |
| OrganizationValues.SectionCodeOfIsIdempotent | src/Organization/Domain/Warehouse.Organization.Domain/ValueObjects/SectionCode.cs:32-37 | validating an accepted code again gives the same code |
| OrganizationValues.SectionCodeIgnoresPadding | src/Organization/Domain/Warehouse.Organization.Domain/ValueObjects/SectionCode.cs:34-36 | inputs that differ only in white space added at either end give the same code or the same error |
| OrganizationValues.FloorNumber.Of | src/Organization/Domain/Warehouse.Organization.Domain/ValueObjects/FloorNumber.cs:33-38 | fails iff negative (floor 0 accepted); keeps the value |
| OrganizationValues.FloorNumber.Equals | src/Organization/Domain/Warehouse.Organization.Domain/ValueObjects/FloorNumber.cs:47-48 | equal iff same value; never equal to null |
| OrganizationValues.FloorNumber.CompareTo | src/Organization/Domain/Warehouse.Organization.Domain/ValueObjects/FloorNumber.cs:54-58 | 1 against null; otherwise integer order on the values |
| OrganizationValues.FloorNumber.Less | src/Organization/Domain/Warehouse.Organization.Domain/ValueObjects/FloorNumber.cs:73 | `<` agrees with `CompareTo` |
| OrganizationValues.FloorNumber.Greater | src/Organization/Domain/Warehouse.Organization.Domain/ValueObjects/FloorNumber.cs:78 | `>` agrees with `CompareTo` |
| OrganizationValues.FloorNumber.AtMost | src/Organization/Domain/Warehouse.Organization.Domain/ValueObjects/FloorNumber.cs:83 | `<=` agrees with `CompareTo` |
| OrganizationValues.FloorNumber.AtLeast | src/Organization/Domain/Warehouse.Organization.Domain/ValueObjects/FloorNumber.cs:88 | `>=` agrees with `CompareTo` |
| OrganizationValues.FloorCount.Of | src/Organization/Domain/Warehouse.Organization.Domain/ValueObjects/FloorCount.cs:32-37 | fails iff not positive; keeps the value |
| OrganizationValues.FloorCount.Equals | src/Organization/Domain/Warehouse.Organization.Domain/ValueObjects/FloorCount.cs:46-47 | equal iff same value; never equal to null |
| OrganizationValues.FloorCount.CompareTo | src/Organization/Domain/Warehouse.Organization.Domain/ValueObjects/FloorCount.cs:53-57 | 1 against null; otherwise integer order on the values |
| OrganizationValues.FloorCount.Less | src/Organization/Domain/Warehouse.Organization.Domain/ValueObjects/FloorCount.cs:72 | `<` agrees with `CompareTo` |
| OrganizationValues.FloorCount.Greater | src/Organization/Domain/Warehouse.Organization.Domain/ValueObjects/FloorCount.cs:77 | `>` agrees with `CompareTo` |
| OrganizationValues.FloorCount.AtMost | src/Organization/Domain/Warehouse.Organization.Domain/ValueObjects/FloorCount.cs:82 | `<=` agrees with `CompareTo` |
| OrganizationValues.FloorCount.AtLeast | src/Organization/Domain/Warehouse.Organization.Domain/ValueObjects/FloorCount.cs:87 | `>=` agrees with `CompareTo` |
| OrganizationValues.Area.Of | src/Organization/Domain/Warehouse.Organization.Domain/ValueObjects/Area.cs:33-38 | refuses exactly the values for which `value <= 0` holds under IEEE comparison |
| OrganizationValues.AreaGuard | src/Organization/Domain/Warehouse.Organization.Domain/ValueObjects/Area.cs:35 | a finite area is accepted iff positive; NaN and +infinity pass the guard, −infinity does not |
| Organization.StorageSection.Create | src/Organization/Domain/Warehouse.Organization.Domain/Entities/StorageSection.cs:32-49 | stores exactly the given id, code and area |
| Organization.StorageSection.Record | src/Organization/Domain/Warehouse.Organization.Domain/Entities/StorageSection.cs:13-23 | the record holds the section's id, code and area |
| Organization.StorageSection.Resize | src/Organization/Domain/Warehouse.Organization.Domain/Entities/StorageSection.cs:55-58 | the area becomes the new area; id and code are constants |
| Organization.ResizeTwice | src/Organization/Domain/Warehouse.Organization.Domain/Entities/StorageSection.cs:55-58 | resizing twice to the same area leaves the state that resizing once does: only the area changed |
| Organization.CreateFacilitySpec | src/Organization/Domain/Warehouse.Organization.Domain/Aggregates/StorageFacility.cs:64-71 | succeeds iff id, name, building and floor all validate, storing the validated values and no sections; errors in argument order |
| Organization.NewSection | src/Organization/Domain/Warehouse.Organization.Domain/Aggregates/StorageFacility.cs:86-87 | a new section succeeds iff the GUID is non-empty and the area passes; the section id is checked first |
| Organization.AddSectionSpec | src/Organization/Domain/Warehouse.Organization.Domain/Aggregates/StorageFacility.cs:81-88 | succeeds iff the code is non-blank, its trimmed form is new, and the section validates; then exactly one section is appended at the end and nothing else changes; each refusal names its check |
| Organization.AddSectionKeepsCodesDistinct | src/Organization/Domain/Warehouse.Organization.Domain/Aggregates/StorageFacility.cs:83-87 | a successful `AddSection` keeps the section codes pairwise distinct |
| Organization.SameCodeTwiceRejected | src/Organization/Domain/Warehouse.Organization.Domain/Aggregates/StorageFacility.cs:83-85 | after a code was added, a second code that trims to the same text is refused as a duplicate |
| Organization.AddSectionRefusalIsFirstFailedCheck | src/Organization/Domain/Warehouse.Organization.Domain/Aggregates/StorageFacility.cs:81-88 | a refusal is blank code, duplicate code, empty section id or non-positive area, and names the first failed check |
| Organization.StorageFacility.constructor | src/Organization/Domain/Warehouse.Organization.Domain/Aggregates/StorageFacility.cs:48-54 | stores the four values and starts with no sections |
| Organization.StorageFacility.Create | src/Organization/Domain/Warehouse.Organization.Domain/Aggregates/StorageFacility.cs:64-71 | fails exactly as `CreateFacilitySpec`; on success a fresh facility whose snapshot is its result |
| Organization.StorageFacility.ContainsCode | src/Organization/Domain/Warehouse.Organization.Domain/Aggregates/StorageFacility.cs:84-85 | the loop finds the code iff some section holds it |
| Organization.StorageFacility.Append | src/Organization/Domain/Warehouse.Organization.Domain/Aggregates/StorageFacility.cs:86-87 | appends one section object whose code is new, keeping the codes distinct |
| Organization.StorageFacility.AddNewSection | src/Organization/Domain/Warehouse.Organization.Domain/Aggregates/StorageFacility.cs:86-87 | outcome is `NewSection`'s; on success one fresh section is appended, on failure nothing changes |
| Organization.StorageFacility.AddSection | src/Organization/Domain/Warehouse.Organization.Domain/Aggregates/StorageFacility.cs:81-88 | outcome and new snapshot are `AddSectionSpec`'s; on success one fresh section object is appended, on failure the list is unchanged; codes stay distinct |
| Organization.CreateBuilding | src/Organization/Domain/Warehouse.Organization.Domain/Aggregates/Building.cs:49-62 | succeeds iff the id is non-empty, the address validates and the floor count is positive, storing the validated values; errors in the order id, address, floors |

## Left out

- HTTP controllers, program start-up, broker configuration, command handlers, request records and FluentValidation validators are not part of this model. They route, wire or carry data.
- EF Core persistence is replaced by a map from the contract GUID to its record. `DuplicateKey` stands for the database's refusal of a second row with the same primary key.
- Async, cancellation tokens, optimistic locking and every other form of concurrency are left out. Each service call and each saga event runs alone.
- The wall clock (`DateTime.UtcNow`) and `Guid.NewGuid()` are parameters:
  - `now` and `created` for the clocks;
  - `newLineId` and `newGuid` for new GUIDs.
- `ContractDate.Now` is taken as the UTC date at `created`.
- The source reads the clock twice in `Create`, once for the creation time and once for the date check. `CreateSpec` takes the two reads as separate parameters, `created` and `now`, and nothing relates them.
- MassTransit is modelled only by its visible effect, whether an event is accepted:
  - Saga correlation, durable delivery, redelivery and the saga repository are left out.
  - An event with no handler in the current state is modelled as not accepted (`accepted == false`, nothing changes).
  - Completed and Cancelled stand for "entered and finalized". The library's deletion of a finalized instance is not modelled.
- ContractSaga.UnloadingContractSaga.OnTimeout: the source's delivery filter for a token is modelled by the scheduler delivering only pending tokens. Token matching inside the library is not modelled.
- Stateless is modelled only through its permit table and the `OnTransitioned` callback. Its internal state storage and the exception type for an unpermitted trigger are left out; a refused trigger is the calling service method's own message (`Refusal`).
- `Area` arithmetic (`Add`, `Subtract`, `CompareTo`, `ToString` with its number format) is left out because it is floating-point arithmetic. Only the `Of` guard is modelled, on a `Double` that is finite, ±infinity or NaN. As a result NaN and +infinity pass `Area.Of`, exactly as the IEEE comparison `value <= 0` lets them through.
- OrganizationValues.ToStringLayout: states the length and the opening and closing pieces of `Address.ToString`. The positions of the three middle parts are not stated separately.
- The saga's `LinesCount` is an unbounded `int` in the model. `ValidInstanceFacts` shows it never exceeds 1, so the 32-bit counter of the source cannot overflow.
- Exception types are merged into error values:
  - `UnloadingContractException` and `InvalidOperationException` become `ContractError` constructors.
  - `WarehouseInfrastructureException` becomes `OrgError` constructors, one per message.
- The `Equals(object)` overloads and `GetHashCode` are left out. The model is typed, so an object of another type cannot be passed; hash codes carry no behaviour of their own.
