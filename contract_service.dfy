/** `UnloadingContractService`: loads a contract from the repository,
    runs one aggregate method (guarded, for Start/Complete/Cancel, by a
    Stateless permit table) and writes the contract back. The repository
    is a map from the contract's GUID (its primary key) to the stored
    contract. */
module ContractService {
  import opened Wrappers
  import opened DotNet
  import opened ContractValues
  import opened UnloadingContracts

  /** `UnloadingTrigger`: the triggers the service fires. */
  datatype UnloadingTrigger = StartTrigger | CompleteTrigger | CancelTrigger

  /** The permit table every transition method configures:
      Pending permits Start (to InProgress) and Cancel (to Cancelled),
      InProgress permits Complete (to Completed) and Cancel. Anything
      else is refused by the machine. */
  function Permit(status: ContractStatus, trigger: UnloadingTrigger): Option<ContractStatus> {
    match (status, trigger)
    case (Pending, StartTrigger) => Some(InProgress)
    case (Pending, CancelTrigger) => Some(Cancelled)
    case (InProgress, CompleteTrigger) => Some(Completed)
    case (InProgress, CancelTrigger) => Some(Cancelled)
    case _ => None
  }

  /** The aggregate method the `OnTransitioned` callback calls. */
  function Callback(c: ContractRecord, trigger: UnloadingTrigger): Result<ContractRecord, ContractError> {
    match trigger
    case StartTrigger => StartSpec(c)
    case CompleteTrigger => CompleteSpec(c)
    case CancelTrigger => CancelSpec(c)
  }

  /** The error each service method throws when the machine refuses its
      trigger: StartAsync and CompleteAsync say "cannot move from
      <status> to InProgress/Completed", CancelAsync "cannot cancel from
      <status>". */
  function Refusal(status: ContractStatus, trigger: UnloadingTrigger): ContractError {
    match trigger
    case StartTrigger => TransitionRefused(status, InProgress)
    case CompleteTrigger => TransitionRefused(status, Completed)
    case CancelTrigger => CancelRefused(status)
  }

  /** `machine.Fire(trigger)`: a refused trigger becomes the calling
      service method's own error; a permitted one runs the aggregate
      method, whose own exception propagates unchanged. */
  function FireSpec(c: ContractRecord, trigger: UnloadingTrigger): Result<ContractRecord, ContractError> {
    if Permit(c.status, trigger).None? then Failure(Refusal(c.status, trigger))
    else Callback(c, trigger)
  }

  /** `LoadContract`: an empty id is the domain's error, an unknown one
      `InvalidOperationException`. */
  function Load(store: map<Guid, ContractRecord>, id: Guid): (r: Result<ContractRecord, ContractError>)
    ensures r.Success? <==> id != EMPTY_GUID && id in store
    ensures r.Success? ==> r.value == store[id]
    ensures r.Failure? ==> r.error == (if id == EMPTY_GUID then EmptyContractId else NotFound)
  {
    var cid :- ContractId.Of(id);
    if id in store then Success(store[id]) else Failure(NotFound)
  }

  /** The requests that load, change and write back one contract. */
  datatype Request =
    | AddLineRequest(productGuid: Guid, quantity: Int32, newLineId: Guid)
    | RescheduleRequest(newDate: DateTime, now: Ticks)
    | StartRequest
    | CompleteRequest
    | CancelRequest

  function Step(c: ContractRecord, req: Request): Result<ContractRecord, ContractError> {
    match req
    case AddLineRequest(p, q, lineId) => AddLineSpec(c, p, q, lineId)
    case RescheduleRequest(d, now) => RescheduleSpec(c, d, now)
    case StartRequest => FireSpec(c, StartTrigger)
    case CompleteRequest => FireSpec(c, CompleteTrigger)
    case CancelRequest => FireSpec(c, CancelTrigger)
  }

  /** The repository after a request: unchanged unless loading and the
      step both succeed, then the one entry is replaced. */
  function Handle(store: map<Guid, ContractRecord>, id: Guid, req: Request): Result<map<Guid, ContractRecord>, ContractError> {
    var c :- Load(store, id);
    var c' :- Step(c, req);
    Success(store[id := c'])
  }

  /** The repository's invariant: every entry is filed under its own id
      and is a well-formed contract. */
  predicate StoreValid(store: map<Guid, ContractRecord>) {
    forall k :: k in store ==> store[k].id.value == k && WellFormed(store[k])
  }

  // -------------------------------------------------------------- lemmas

  /** The permit table allows Start only from Pending, Complete only from
      InProgress and Cancel only from Pending or InProgress, and names
      the status the aggregate method then sets. */
  lemma PermitTable(s: ContractStatus, t: UnloadingTrigger)
    ensures Permit(s, t).Some? <==> (t == StartTrigger && s == Pending)
                                    || (t == CompleteTrigger && s == InProgress)
                                    || (t == CancelTrigger && (s == Pending || s == InProgress))
    ensures forall c: ContractRecord :: c.status == s && Permit(s, t).Some? && Callback(c, t).Success?
              ==> Callback(c, t).value.status == Permit(s, t).value
  {
  }

  /** `StartAsync` succeeds iff the contract is Pending with a line, and
      leaves it InProgress with nothing else changed. */
  lemma StartAsyncSucceedsIff(c: ContractRecord)
    ensures Step(c, StartRequest).Success? <==> c.status == Pending && |c.lines| > 0
    ensures Step(c, StartRequest).Success? ==> Step(c, StartRequest).value == c.(status := InProgress)
    ensures c.status != Pending ==> Step(c, StartRequest) == Failure(TransitionRefused(c.status, InProgress))
    ensures c.status == Pending && c.lines == [] ==> Step(c, StartRequest) == Failure(NoLines)
  {
  }

  /** `CompleteAsync` succeeds iff the contract is InProgress. */
  lemma CompleteAsyncSucceedsIff(c: ContractRecord)
    ensures Step(c, CompleteRequest).Success? <==> c.status == InProgress
    ensures Step(c, CompleteRequest).Success? ==> Step(c, CompleteRequest).value == c.(status := Completed)
    ensures Step(c, CompleteRequest).Failure? ==> Step(c, CompleteRequest).error == TransitionRefused(c.status, Completed)
  {
  }

  /** `CancelAsync` succeeds iff the contract is Pending or InProgress. */
  lemma CancelAsyncSucceedsIff(c: ContractRecord)
    ensures Step(c, CancelRequest).Success? <==> c.status == Pending || c.status == InProgress
    ensures Step(c, CancelRequest).Success? ==> Step(c, CancelRequest).value == c.(status := Cancelled)
    ensures Step(c, CancelRequest).Failure? ==> Step(c, CancelRequest).error == CancelRefused(c.status)
  {
  }

  /** The service is stricter than the aggregate: the aggregate cancels a
      Cancelled contract again, the service refuses. Elsewhere they agree. */
  lemma ServiceStricterThanAggregate(c: ContractRecord)
    ensures c.status == Cancelled ==> CancelSpec(c).Success? && Step(c, CancelRequest).Failure?
    ensures c.status != Cancelled ==> (CancelSpec(c).Success? <==> Step(c, CancelRequest).Success?)
    ensures StartSpec(c).Success? <==> Step(c, StartRequest).Success?
    ensures CompleteSpec(c).Success? <==> Step(c, CompleteRequest).Success?
  {
  }

  /** A request touches at most the entry it names: on failure the
      repository is unchanged, on success only that entry is replaced,
      keeping its id and the contract's identity. */
  lemma HandleTouchesOneEntry(store: map<Guid, ContractRecord>, id: Guid, req: Request)
    requires Handle(store, id, req).Success?
    ensures id in store && Handle(store, id, req).value.Keys == store.Keys
    ensures forall k :: k in store && k != id ==> Handle(store, id, req).value[k] == store[k]
    ensures Handle(store, id, req).value[id].id == store[id].id
    ensures Handle(store, id, req).value[id].createdAt == store[id].createdAt
  {
    var c := store[id];
    match req
    case AddLineRequest(p, q, lineId) =>
    case RescheduleRequest(d, now) =>
    case StartRequest =>
    case CompleteRequest =>
    case CancelRequest =>
  }

  /** Every request keeps the repository's invariant. */
  lemma HandleKeepsStoreValid(store: map<Guid, ContractRecord>, id: Guid, req: Request)
    requires StoreValid(store) && Handle(store, id, req).Success?
    ensures StoreValid(Handle(store, id, req).value)
  {
    var c := store[id];
    match req
    case AddLineRequest(p, q, lineId) =>
      ApplyKeepsWellFormed(c, AddLine(p, q, lineId));
    case RescheduleRequest(d, now) =>
      ApplyKeepsWellFormed(c, Reschedule(d, now));
    case StartRequest =>
      ApplyKeepsWellFormed(c, Start);
    case CompleteRequest =>
      ApplyKeepsWellFormed(c, Complete);
    case CancelRequest =>
      ApplyKeepsWellFormed(c, Cancel);
  }

  // ------------------------------------------------------------- service

  /** Stateless's `Fire` with the `OnTransitioned` callback: refuses a
      trigger the table does not permit, otherwise calls the aggregate. */
  method Fire(contract: UnloadingContract, trigger: UnloadingTrigger) returns (r: Outcome<ContractError>)
    requires contract.Valid()
    modifies contract
    ensures contract.Valid() && contract.lines == old(contract.lines)
    ensures r == FireSpec(old(contract.Snapshot()), trigger).ToOutcome()
    ensures contract.Snapshot() == if r.Pass? then FireSpec(old(contract.Snapshot()), trigger).value
                                   else old(contract.Snapshot())
  {
    if Permit(contract.Status, trigger).None? {
      return Fail(Refusal(contract.Status, trigger));
    }
    match trigger {
      case StartTrigger => r := contract.Start();
      case CompleteTrigger => r := contract.Complete();
      case CancelTrigger => r := contract.Cancel();
    }
  }

  class UnloadingContractService {
    var store: map<Guid, ContractRecord>

    ghost predicate Valid()
      reads this
    {
      StoreValid(store)
    }

    constructor(initial: map<Guid, ContractRecord>)
      requires StoreValid(initial)
      ensures Valid() && store == initial
    {
      store := initial;
    }

    /** `LoadContract`: the stored contract, materialised as a fresh
        object whose snapshot is the stored record. */
    method LoadContract(id: Guid) returns (r: Result<UnloadingContract, ContractError>)
      requires Valid()
      ensures r.Failure? ==> Load(store, id) == Failure(r.error)
      ensures r.Success? ==> Load(store, id) == Success(r.value.Snapshot())
      ensures r.Success? ==> fresh(r.value) && r.value.Valid()
      ensures r.Success? ==> forall k :: 0 <= k < |r.value.lines| ==> fresh(r.value.lines[k])
    {
      var cid := ContractId.Of(id);
      if cid.Failure? {
        return Failure(cid.error);
      }
      if id !in store {
        return Failure(NotFound);
      }
      var contract := new UnloadingContract.Rehydrate(store[id]);
      return Success(contract);
    }

    /** `CreateAsync`: builds the contract and adds it; a second contract
        with the same primary key is refused by the store. Returns the
        contract's id. */
    method CreateAsync(contractGuid: Guid, warehouseGuid: Guid, managerGuid: Guid,
                       scheduledFor: DateTime, created: Ticks, now: Ticks) returns (r: Result<Guid, ContractError>)
      requires Valid()
      modifies this
      ensures Valid()
      ensures var spec := CreateSpec(contractGuid, warehouseGuid, managerGuid, scheduledFor, created, now);
              if spec.Failure? then r == Failure(spec.error) && store == old(store)
              else if contractGuid in old(store) then r == Failure(DuplicateKey) && store == old(store)
              else r == Success(contractGuid) && store == old(store)[contractGuid := spec.value]
    {
      var created' := UnloadingContract.Create(contractGuid, warehouseGuid, managerGuid, scheduledFor, created, now);
      if created'.Failure? {
        return Failure(created'.error);
      }
      var contract := created'.value;
      if contract.Id.value in store {
        return Failure(DuplicateKey);
      }
      store := store[contract.Id.value := contract.Snapshot()];
      return Success(contract.Id.value);
    }

    method AddLineAsync(contractGuid: Guid, productGuid: Guid, quantity: Int32, newLineId: Guid) returns (r: Outcome<ContractError>)
      requires Valid()
      modifies this
      ensures Valid()
      ensures var h := Handle(old(store), contractGuid, AddLineRequest(productGuid, quantity, newLineId));
              r == h.ToOutcome() && store == if h.Success? then h.value else old(store)
    {
      var loaded := LoadContract(contractGuid);
      if loaded.Failure? {
        return Fail(loaded.error);
      }
      var contract := loaded.value;
      r := contract.AddLine(productGuid, quantity, newLineId);
      if r.Pass? {
        HandleKeepsStoreValid(store, contractGuid, AddLineRequest(productGuid, quantity, newLineId));
        store := store[contractGuid := contract.Snapshot()];
      }
    }

    method RescheduleAsync(contractGuid: Guid, newDate: DateTime, now: Ticks) returns (r: Outcome<ContractError>)
      requires Valid()
      modifies this
      ensures Valid()
      ensures var h := Handle(old(store), contractGuid, RescheduleRequest(newDate, now));
              r == h.ToOutcome() && store == if h.Success? then h.value else old(store)
    {
      var loaded := LoadContract(contractGuid);
      if loaded.Failure? {
        return Fail(loaded.error);
      }
      var contract := loaded.value;
      r := contract.Reschedule(newDate, now);
      if r.Pass? {
        HandleKeepsStoreValid(store, contractGuid, RescheduleRequest(newDate, now));
        store := store[contractGuid := contract.Snapshot()];
      }
    }

    /** `StartAsync`, `CompleteAsync` and `CancelAsync`: the same
        load / fire / write-back sequence with their own trigger. */
    method Transition(contractGuid: Guid, trigger: UnloadingTrigger, ghost req: Request) returns (r: Outcome<ContractError>)
      requires Valid()
      requires req == match trigger
                      case StartTrigger => StartRequest
                      case CompleteTrigger => CompleteRequest
                      case CancelTrigger => CancelRequest
      modifies this
      ensures Valid()
      ensures var h := Handle(old(store), contractGuid, req);
              r == h.ToOutcome() && store == if h.Success? then h.value else old(store)
    {
      var loaded := LoadContract(contractGuid);
      if loaded.Failure? {
        return Fail(loaded.error);
      }
      var contract := loaded.value;
      r := Fire(contract, trigger);
      if r.Pass? {
        HandleKeepsStoreValid(store, contractGuid, req);
        store := store[contractGuid := contract.Snapshot()];
      }
    }

    method StartAsync(contractGuid: Guid) returns (r: Outcome<ContractError>)
      requires Valid()
      modifies this
      ensures Valid()
      ensures var h := Handle(old(store), contractGuid, StartRequest);
              r == h.ToOutcome() && store == if h.Success? then h.value else old(store)
    {
      r := Transition(contractGuid, StartTrigger, StartRequest);
    }

    method CompleteAsync(contractGuid: Guid) returns (r: Outcome<ContractError>)
      requires Valid()
      modifies this
      ensures Valid()
      ensures var h := Handle(old(store), contractGuid, CompleteRequest);
              r == h.ToOutcome() && store == if h.Success? then h.value else old(store)
    {
      r := Transition(contractGuid, CompleteTrigger, CompleteRequest);
    }

    method CancelAsync(contractGuid: Guid) returns (r: Outcome<ContractError>)
      requires Valid()
      modifies this
      ensures Valid()
      ensures var h := Handle(old(store), contractGuid, CancelRequest);
              r == h.ToOutcome() && store == if h.Success? then h.value else old(store)
    {
      r := Transition(contractGuid, CancelTrigger, CancelRequest);
    }
  }
}
