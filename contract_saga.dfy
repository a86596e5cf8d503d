/** `UnloadingContractStateMachine`: the saga that follows a contract's
    commands, independently of the aggregate, and cancels it after one
    hour without activity.

    The transition table is a pure function (`Transition`), and the
    saga instance is a class holding the fields of
    `UnloadingContractState`; its methods, one per event, are proved to
    follow the table and to keep the timer bookkeeping consistent with a
    `TimeoutScheduler` that stands for MassTransit's message scheduler. */
module ContractSaga {
  import opened Wrappers
  import opened DotNet

  /** The saga's states; `Initial` is where an instance starts. Completed
      and Cancelled are entered together with `Finalize()`. */
  datatype SagaState = Initial | Created | LinesAdded | Rescheduled | InProgress | Completed | Cancelled

  datatype SagaEvent = CreateContract | AddLine | Reschedule | Start | Complete | Cancel | TimeoutExpired

  /** The Initially / During / DuringAny declarations: the state an
      accepted event leads to, `None` for an event the state has no
      handler for. */
  function Transition(s: SagaState, e: SagaEvent): Option<SagaState> {
    match (s, e)
    case (Initial, CreateContract) => Some(Created)
    case (Created, AddLine) => Some(LinesAdded)
    case (Created, Reschedule) => Some(Rescheduled)
    case (Created, Start) => Some(InProgress)
    case (LinesAdded, Start) => Some(InProgress)
    case (Rescheduled, Start) => Some(InProgress)
    case (InProgress, Complete) => Some(Completed)
    case (InProgress, Cancel) => Some(Cancelled)
    case (Created, TimeoutExpired) => Some(Cancelled)
    case (LinesAdded, TimeoutExpired) => Some(Cancelled)
    case (Rescheduled, TimeoutExpired) => Some(Cancelled)
    case (InProgress, TimeoutExpired) => Some(Cancelled)
    case _ => None
  }

  /** The states `DuringAny` covers: all but Initial and the final ones. */
  predicate IsActive(s: SagaState) {
    s in {Created, LinesAdded, Rescheduled, InProgress}
  }

  /** The states that wait for activity under a running timer. */
  predicate IsWaiting(s: SagaState) {
    s in {Created, LinesAdded, Rescheduled}
  }

  /** The state reached by accepting `es` in order from `s`, if every
      event is accepted. */
  function Replay(s: SagaState, es: seq<SagaEvent>): Option<SagaState>
    decreases |es|
  {
    if es == [] then Some(s)
    else
      match Replay(s, es[..|es| - 1])
      case None => None
      case Some(t) => Transition(t, es[|es| - 1])
  }

  function Count(es: seq<SagaEvent>, e: SagaEvent): (n: nat)
    ensures n <= |es|
    decreases |es|
  {
    if es == [] then 0
    else Count(es[..|es| - 1], e) + (if es[|es| - 1] == e then 1 else 0)
  }

  /** `Count` is the multiplicity of `e` among the events. */
  lemma {:induction false} CountIsMultiplicity(es: seq<SagaEvent>, e: SagaEvent)
    ensures Count(es, e) == multiset(es)[e]
    decreases |es|
  {
    if es != [] {
      assert es == es[..|es| - 1] + [es[|es| - 1]];
      CountIsMultiplicity(es[..|es| - 1], e);
    }
  }

  /** One more event: its transition from the replayed state, and one
      more AddLine when it is one. */
  lemma ReplayStep(es: seq<SagaEvent>, e: SagaEvent)
    ensures Replay(Initial, es + [e]) == if Replay(Initial, es).Some? then Transition(Replay(Initial, es).value, e) else None
    ensures Count(es + [e], AddLine) == Count(es, AddLine) + (if e == AddLine then 1 else 0)
  {
    assert (es + [e])[..|es|] == es;
  }

  // ----------------------------------------------------- the table's laws

  /** Completed and Cancelled have no handlers. */
  lemma FinalStatesAcceptNothing(s: SagaState, e: SagaEvent)
    requires s == Completed || s == Cancelled
    ensures Transition(s, e).None?
  {
  }

  /** Only CreateContract starts an instance, and nothing leads back to
      Initial. */
  lemma OnlyCreateLeavesInitial(s: SagaState, e: SagaEvent)
    ensures Transition(Initial, e).Some? <==> e == CreateContract
    ensures Transition(s, e) != Some(Initial)
  {
  }

  /** Which states accept each command. */
  lemma AcceptingStates(s: SagaState)
    ensures Transition(s, AddLine).Some? <==> s == Created
    ensures Transition(s, Reschedule).Some? <==> s == Created
    ensures Transition(s, Start).Some? <==> IsWaiting(s)
    ensures Transition(s, Complete).Some? <==> s == InProgress
    ensures Transition(s, Cancel).Some? <==> s == InProgress
    ensures Transition(s, TimeoutExpired).Some? <==> IsActive(s)
    ensures Transition(s, TimeoutExpired).Some? ==> Transition(s, TimeoutExpired) == Some(Cancelled)
  {
  }

  /** A final state stays where it is: no non-empty history continues it. */
  lemma {:induction false} FinalStatesAreStuck(s: SagaState, es: seq<SagaEvent>)
    requires s == Completed || s == Cancelled
    requires Replay(s, es).Some?
    ensures es == []
    decreases |es|
  {
    if es != [] {
      var front := es[..|es| - 1];
      FinalStatesAreStuck(s, front);
    }
  }

  /** From Initial, at most one AddLine is ever accepted: it takes Created
      to LinesAdded, from which there is no way back to Created. */
  lemma {:induction false} AtMostOneAddLine(es: seq<SagaEvent>)
    requires Replay(Initial, es).Some?
    ensures Count(es, AddLine) <= 1
    ensures Replay(Initial, es).value in {Initial, Created, Rescheduled} ==> Count(es, AddLine) == 0
    ensures Replay(Initial, es).value == LinesAdded ==> Count(es, AddLine) == 1
    decreases |es|
  {
    if es != [] {
      AtMostOneAddLine(es[..|es| - 1]);
    }
  }

  /** An instance that has accepted anything has left Initial for good. */
  lemma {:induction false} NeverBackToInitial(es: seq<SagaEvent>)
    requires Replay(Initial, es).Some? && es != []
    ensures Replay(Initial, es).value != Initial
  {
    var front := es[..|es| - 1];
    OnlyCreateLeavesInitial(Replay(Initial, front).value, es[|es| - 1]);
  }

  // ------------------------------------------------------------ scheduler

  /** MassTransit's message scheduler, reduced to what the saga sees: the
      messages still due (token to due time) and a supply of fresh
      tokens. Cancelling an unknown token does nothing. */
  class TimeoutScheduler {
    var pending: map<Guid, int>
    var nextToken: int

    ghost predicate Valid()
      reads this
    {
      nextToken > 0 && forall t :: t in pending ==> 0 < t < nextToken
    }

    constructor()
      ensures Valid() && pending == map[]
    {
      pending := map[];
      nextToken := 1;
    }

    /** `SchedulePublish`: a new token, never issued before. */
    method SchedulePublish(due: int) returns (token: Guid)
      requires Valid()
      modifies this
      ensures Valid()
      ensures token == old(nextToken) && nextToken == old(nextToken) + 1
      ensures token != EMPTY_GUID && token !in old(pending)
      ensures pending == old(pending)[token := due]
    {
      token := nextToken;
      nextToken := nextToken + 1;
      pending := pending[token := due];
    }

    /** `CancelScheduledSend`: drops the token if it is still pending. */
    method CancelScheduledSend(token: Guid)
      requires Valid()
      modifies this
      ensures Valid() && nextToken == old(nextToken)
      ensures pending == old(pending) - {token}
    {
      pending := pending - {token};
    }

    /** The scheduler sends a due message: only a pending token is
        delivered, and then it is no longer pending. */
    method Deliver(token: Guid) returns (delivered: bool)
      requires Valid()
      modifies this
      ensures Valid() && nextToken == old(nextToken)
      ensures delivered <==> token in old(pending)
      ensures pending == old(pending) - {token}
    {
      delivered := token in pending;
      pending := pending - {token};
    }
  }

  // ------------------------------------------------------------ the saga

  /** When only the stored token may be pending, cancelling (or
      delivering) that token leaves nothing pending. */
  lemma OnlyStoredTokenPending(pending: map<Guid, int>, stored: Option<Guid>)
    requires forall t :: t in pending ==> stored.Some? && stored.value == t
    ensures stored.None? ==> pending == map[]
    ensures stored.Some? ==> pending - {stored.value} == map[]
  {
    if stored.None? {
      assert forall t :: t !in pending;
      assert pending.Keys == {};
    } else {
      assert forall t :: t !in pending - {stored.value};
      assert (pending - {stored.value}).Keys == {};
    }
  }

  /** One saga instance: the fields of `UnloadingContractState`, the
      scheduler it talks to, and (ghost) the events it has accepted. */
  /** The instance invariant on plain values: the state is the replay of
      the accepted events, the line count counts the accepted AddLine
      events, and the only message that may still be pending is the one
      whose token is stored, pending exactly while the saga waits. */
  ghost predicate Consistent(state: SagaState, history: seq<SagaEvent>, linesCount: int,
                             token: Option<Guid>, pending: map<Guid, int>, nextToken: int)
  {
    && Replay(Initial, history) == Some(state)
    && linesCount == Count(history, AddLine)
    && (forall t :: t in pending ==> token.Some? && token.value == t)
    && (token.Some? ==> 0 < token.value < nextToken)
    && (IsWaiting(state) <==> pending != map[])
  }

  /** Accepting an event keeps the invariant, once the timer bookkeeping
      of the new state is in place. */
  lemma StepKeepsConsistent(state: SagaState, history: seq<SagaEvent>, linesCount: int, e: SagaEvent,
                            state': SagaState, history': seq<SagaEvent>, linesCount': int,
                            token: Option<Guid>, pending: map<Guid, int>, nextToken: int)
    requires Replay(Initial, history) == Some(state) && linesCount == Count(history, AddLine)
    requires Transition(state, e) == Some(state')
    requires history' == history + [e] && linesCount' == linesCount + (if e == AddLine then 1 else 0)
    requires forall t :: t in pending ==> token.Some? && token.value == t
    requires token.Some? ==> 0 < token.value < nextToken
    requires IsWaiting(state') <==> pending != map[]
    ensures Consistent(state', history', linesCount', token, pending, nextToken)
  {
    ReplayStep(history, e);
  }

  /** The first event counts no lines: an instance still in Initial has
      accepted no AddLine. */
  lemma CreateKeepsConsistent(history: seq<SagaEvent>, linesCount: int, state': SagaState,
                              history': seq<SagaEvent>, linesCount': int,
                              token: Option<Guid>, pending: map<Guid, int>, nextToken: int)
    requires Replay(Initial, history) == Some(Initial) && linesCount == Count(history, AddLine)
    requires state' == Created && history' == history + [CreateContract] && linesCount' == 0
    requires forall t :: t in pending ==> token.Some? && token.value == t
    requires token.Some? ==> 0 < token.value < nextToken
    requires pending != map[]
    ensures Consistent(state', history', linesCount', token, pending, nextToken)
  {
    AtMostOneAddLine(history);
    StepKeepsConsistent(Initial, history, linesCount, CreateContract, state', history', linesCount',
                        token, pending, nextToken);
  }

  /** The data fields of `UnloadingContractState`: everything an instance
      holds besides its state and its correlation id. */
  datatype SagaData = SagaData(
    timeoutTokenId: Option<Guid>,
    warehouseId: Guid,
    managerId: Guid,
    createdAt: DateTime,
    scheduledFor: DateTime,
    linesCount: int,
    startedAt: Option<DateTime>,
    completedAt: Option<DateTime>)

  class UnloadingContractSaga {
    const CorrelationId: Guid
    const Scheduler: TimeoutScheduler
    var CurrentState: SagaState
    var TimeoutTokenId: Option<Guid>
    var WarehouseId: Guid
    var ManagerId: Guid
    var CreatedAt: DateTime
    var ScheduledFor: DateTime
    var LinesCount: int
    var StartedAt: Option<DateTime>
    var CompletedAt: Option<DateTime>
    ghost var History: seq<SagaEvent>

    /** The scheduler is consistent and the fields satisfy `Consistent`. */
    ghost predicate Valid()
      reads this, Scheduler
    {
      && Scheduler.Valid()
      && Consistent(CurrentState, History, LinesCount, TimeoutTokenId, Scheduler.pending, Scheduler.nextToken)
    }

    function Data(): SagaData
      reads this
    {
      SagaData(TimeoutTokenId, WarehouseId, ManagerId, CreatedAt, ScheduledFor, LinesCount, StartedAt, CompletedAt)
    }

    /** A new instance, created by MassTransit for an `Initially` event. */
    constructor(correlationId: Guid, scheduler: TimeoutScheduler)
      requires scheduler.Valid() && scheduler.pending == map[]
      ensures Valid() && CurrentState == Initial && History == []
      ensures CorrelationId == correlationId && Scheduler == scheduler
      ensures TimeoutTokenId == None && LinesCount == 0
    {
      CorrelationId := correlationId;
      Scheduler := scheduler;
      CurrentState := Initial;
      TimeoutTokenId := None;
      WarehouseId := EMPTY_GUID;
      ManagerId := EMPTY_GUID;
      CreatedAt := DateTime(0, Unspecified);
      ScheduledFor := DateTime(0, Unspecified);
      LinesCount := 0;
      StartedAt := None;
      CompletedAt := None;
      History := [];
    }

    /** `RescheduleTimeout`: cancels the stored token if there is one,
        schedules the timeout one hour after `now` and stores its token.
        The `Schedule` activity of `CreateContract` has the same effect. */
    method RescheduleTimeout(now: Ticks)
      requires Scheduler.Valid()
      requires forall t :: t in Scheduler.pending ==> TimeoutTokenId.Some? && TimeoutTokenId.value == t
      requires TimeoutTokenId.Some? ==> TimeoutTokenId.value < Scheduler.nextToken
      modifies this`TimeoutTokenId, Scheduler
      ensures Scheduler.Valid()
      ensures TimeoutTokenId == Some(old(Scheduler.nextToken)) && Scheduler.nextToken == old(Scheduler.nextToken) + 1
      ensures TimeoutTokenId.Some? && TimeoutTokenId.value != EMPTY_GUID
      ensures old(TimeoutTokenId) != TimeoutTokenId
      ensures Scheduler.pending == map[TimeoutTokenId.value := now + ONE_HOUR_TICKS]
      ensures TimeoutTokenId.value in Scheduler.pending && Scheduler.pending != map[]
    {
      OnlyStoredTokenPending(Scheduler.pending, TimeoutTokenId);
      if TimeoutTokenId.Some? {
        Scheduler.CancelScheduledSend(TimeoutTokenId.value);
      }
      var token := Scheduler.SchedulePublish(now + ONE_HOUR_TICKS);
      TimeoutTokenId := Some(token);
    }

    /** `CancelTimeout`: cancels the stored token if there is one; the
        token stays stored. */
    method CancelTimeout()
      requires Scheduler.Valid()
      requires forall t :: t in Scheduler.pending ==> TimeoutTokenId.Some? && TimeoutTokenId.value == t
      modifies Scheduler
      ensures Scheduler.Valid() && Scheduler.nextToken == old(Scheduler.nextToken)
      ensures Scheduler.pending == map[]
    {
      OnlyStoredTokenPending(Scheduler.pending, TimeoutTokenId);
      if TimeoutTokenId.Some? {
        Scheduler.CancelScheduledSend(TimeoutTokenId.value);
      }
    }

    /** The `Then` activity of `CreateContract`: copies the message and
        counts no lines. */
    method CopyContract(warehouseId: Guid, managerId: Guid, createdAt: DateTime, scheduledFor: DateTime)
      modifies this`WarehouseId, this`ManagerId, this`CreatedAt, this`ScheduledFor, this`LinesCount
      ensures Data() == old(Data()).(warehouseId := warehouseId, managerId := managerId, createdAt := createdAt,
                                     scheduledFor := scheduledFor, linesCount := 0)
    {
      WarehouseId, ManagerId, CreatedAt, ScheduledFor, LinesCount := warehouseId, managerId, createdAt, scheduledFor, 0;
    }

    /** `Initially(When(CreateContract))`: copies the message, counts no
        lines, starts the timer and enters Created. */
    method OnCreateContract(warehouseId: Guid, managerId: Guid, scheduledFor: DateTime, now: Ticks)
      returns (accepted: bool)
      requires Valid()
      modifies this, Scheduler
      ensures Valid()
      ensures accepted <==> old(CurrentState) == Initial
      ensures accepted ==> CurrentState == Created && History == old(History) + [CreateContract]
      ensures accepted ==> Data() == SagaData(TimeoutTokenId, warehouseId, managerId, UtcAt(now), scheduledFor, 0,
                                              old(StartedAt), old(CompletedAt))
      ensures accepted ==> TimeoutTokenId.Some?
                           && Scheduler.pending == map[TimeoutTokenId.value := now + ONE_HOUR_TICKS]
      ensures !accepted ==> unchanged(this, Scheduler)
    {
      if CurrentState != Initial {
        return false;
      }
      ghost var history0, lines0 := History, LinesCount;
      CopyContract(warehouseId, managerId, UtcAt(now), scheduledFor);
      RescheduleTimeout(now);
      CurrentState, History := Created, History + [CreateContract];
      CreateKeepsConsistent(history0, lines0, CurrentState, History, LinesCount,
                            TimeoutTokenId, Scheduler.pending, Scheduler.nextToken);
      accepted := true;
    }

    /** `During(Created, When(AddLine))`: one more line, a fresh timer,
        LinesAdded. */
    method OnAddLine(now: Ticks) returns (accepted: bool)
      requires Valid()
      modifies this, Scheduler
      ensures Valid()
      ensures accepted <==> old(CurrentState) == Created
      ensures accepted ==> CurrentState == LinesAdded && History == old(History) + [AddLine]
      ensures accepted ==> Data() == old(Data()).(timeoutTokenId := TimeoutTokenId, linesCount := old(LinesCount) + 1)
      ensures accepted ==> TimeoutTokenId.Some? && TimeoutTokenId != old(TimeoutTokenId)
                           && Scheduler.pending == map[TimeoutTokenId.value := now + ONE_HOUR_TICKS]
      ensures !accepted ==> unchanged(this, Scheduler)
    {
      if CurrentState != Created {
        return false;
      }
      ghost var state0, history0, lines0 := CurrentState, History, LinesCount;
      LinesCount := LinesCount + 1;
      RescheduleTimeout(now);
      CurrentState, History := LinesAdded, History + [AddLine];
      StepKeepsConsistent(state0, history0, lines0, AddLine, CurrentState, History, LinesCount,
                          TimeoutTokenId, Scheduler.pending, Scheduler.nextToken);
      accepted := true;
    }

    /** `During(Created, When(Reschedule))`: the new date, a fresh timer,
        Rescheduled. */
    method OnReschedule(newDate: DateTime, now: Ticks) returns (accepted: bool)
      requires Valid()
      modifies this, Scheduler
      ensures Valid()
      ensures accepted <==> old(CurrentState) == Created
      ensures accepted ==> CurrentState == Rescheduled && History == old(History) + [Reschedule]
      ensures accepted ==> Data() == old(Data()).(timeoutTokenId := TimeoutTokenId, scheduledFor := newDate)
      ensures accepted ==> TimeoutTokenId.Some? && TimeoutTokenId != old(TimeoutTokenId)
                           && Scheduler.pending == map[TimeoutTokenId.value := now + ONE_HOUR_TICKS]
      ensures !accepted ==> unchanged(this, Scheduler)
    {
      if CurrentState != Created {
        return false;
      }
      ghost var state0, history0, lines0 := CurrentState, History, LinesCount;
      ScheduledFor := newDate;
      RescheduleTimeout(now);
      CurrentState, History := Rescheduled, History + [Reschedule];
      StepKeepsConsistent(state0, history0, lines0, Reschedule, CurrentState, History, LinesCount,
                          TimeoutTokenId, Scheduler.pending, Scheduler.nextToken);
      accepted := true;
    }

    /** `When(Start)` in Created, LinesAdded and Rescheduled: records the
        start time, cancels the timer, InProgress. */
    method OnStart(now: Ticks) returns (accepted: bool)
      requires Valid()
      modifies this, Scheduler
      ensures Valid()
      ensures accepted <==> IsWaiting(old(CurrentState))
      ensures accepted ==> CurrentState == InProgress && History == old(History) + [Start]
      ensures accepted ==> Data() == old(Data()).(startedAt := Some(UtcAt(now)))
      ensures accepted ==> Scheduler.pending == map[]
      ensures !accepted ==> unchanged(this, Scheduler)
    {
      if !IsWaiting(CurrentState) {
        return false;
      }
      ghost var state0, history0, lines0 := CurrentState, History, LinesCount;
      StartedAt := Some(UtcAt(now));
      CancelTimeout();
      CurrentState, History := InProgress, History + [Start];
      StepKeepsConsistent(state0, history0, lines0, Start, CurrentState, History, LinesCount,
                          TimeoutTokenId, Scheduler.pending, Scheduler.nextToken);
      accepted := true;
    }

    /** `During(InProgress, When(Complete))`: records the completion time
        and finalizes as Completed. */
    method OnComplete(now: Ticks) returns (accepted: bool)
      requires Valid()
      modifies this, Scheduler
      ensures Valid()
      ensures accepted <==> old(CurrentState) == InProgress
      ensures accepted ==> CurrentState == Completed && History == old(History) + [Complete]
      ensures accepted ==> Data() == old(Data()).(completedAt := Some(UtcAt(now)))
      ensures accepted ==> Scheduler.pending == map[]
      ensures !accepted ==> unchanged(this, Scheduler)
    {
      if CurrentState != InProgress {
        return false;
      }
      ghost var state0, history0, lines0 := CurrentState, History, LinesCount;
      CompletedAt := Some(UtcAt(now));
      CancelTimeout();
      CurrentState, History := Completed, History + [Complete];
      StepKeepsConsistent(state0, history0, lines0, Complete, CurrentState, History, LinesCount,
                          TimeoutTokenId, Scheduler.pending, Scheduler.nextToken);
      accepted := true;
    }

    /** `During(InProgress, When(Cancel))`: finalizes as Cancelled. */
    method OnCancel() returns (accepted: bool)
      requires Valid()
      modifies this, Scheduler
      ensures Valid()
      ensures accepted <==> old(CurrentState) == InProgress
      ensures accepted ==> CurrentState == Cancelled && History == old(History) + [Cancel]
      ensures accepted ==> Data() == old(Data()) && Scheduler.pending == map[]
      ensures !accepted ==> unchanged(this, Scheduler)
    {
      if CurrentState != InProgress {
        return false;
      }
      ghost var state0, history0, lines0 := CurrentState, History, LinesCount;
      CancelTimeout();
      CurrentState, History := Cancelled, History + [Cancel];
      StepKeepsConsistent(state0, history0, lines0, Cancel, CurrentState, History, LinesCount,
                          TimeoutTokenId, Scheduler.pending, Scheduler.nextToken);
      accepted := true;
    }

    /** The scheduler fires `token`: a cancelled or unknown token is not
        delivered; a delivered one reaches `DuringAny(When(TimeoutExpired))`,
        which finalizes the instance as Cancelled. Because Start cancels
        the timer, only a waiting instance can time out. */
    method OnTimeout(token: Guid) returns (accepted: bool)
      requires Valid()
      modifies this, Scheduler
      ensures Valid()
      ensures accepted <==> token in old(Scheduler.pending)
      ensures accepted ==> IsWaiting(old(CurrentState)) && old(TimeoutTokenId) == Some(token)
      ensures accepted ==> CurrentState == Cancelled && History == old(History) + [TimeoutExpired]
      ensures accepted ==> Data() == old(Data()) && Scheduler.pending == map[]
      ensures !accepted ==> unchanged(this) && Scheduler.pending == old(Scheduler.pending)
    {
      OnlyStoredTokenPending(Scheduler.pending, TimeoutTokenId);
      var delivered := Scheduler.Deliver(token);
      if !delivered {
        return false;
      }
      ghost var state0, history0, lines0 := CurrentState, History, LinesCount;
      CurrentState, History := Cancelled, History + [TimeoutExpired];
      StepKeepsConsistent(state0, history0, lines0, TimeoutExpired, CurrentState, History, LinesCount,
                          TimeoutTokenId, Scheduler.pending, Scheduler.nextToken);
      accepted := true;
    }
  }

  /** What the invariant gives a running instance: at most one AddLine was
      accepted, and a final instance has no pending timeout. */
  lemma ValidInstanceFacts(state: SagaState, history: seq<SagaEvent>, linesCount: int, pending: map<Guid, int>)
    requires Replay(Initial, history) == Some(state)
    requires linesCount == Count(history, AddLine)
    requires IsWaiting(state) <==> pending != map[]
    ensures 0 <= linesCount <= 1
    ensures (state == Completed || state == Cancelled) ==> pending == map[]
    ensures state == InProgress ==> pending == map[]
  {
    AtMostOneAddLine(history);
  }
}
