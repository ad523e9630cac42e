/** The launch coordinator's lease: any number of executions of one state machine over one lease row.  Each service
    call is one atomic step; executions interleave at every step, and any of them may be stopped. */
module LaunchLease {
  import opened Options

  datatype Schema = ActionSchema | MaintenanceSchema | OtherSchema

  /** The reviewed operations; all worker actions but three are dispatched alike. */
  datatype Operation =
    | CleanUp | CleanUpExpired | Watchdog
    | RestoreState | RollbackPrimaryState | CutoverRestoredState
    | WorkerAction(id: nat)
    | Unreviewed

  datatype State =
    | ValidateOperation | RejectOperation
    | AcquireActionLease | LeaseRejected
    | SelectMutationAuthorizations | AuthorizePrimarySelectorRecovery | AuthorizeRestoredSelectorCutover
    | RunActionWorker | MarkActionComplete | MarkActionFailed
    | ReturnActionResult | CompletionRejected | ActionWorkerFailed | UnfencedWorkerFailure
    | RunCleanupWorker | RunCleanupMaintenanceWorker | CheckCleanupContinuation | PrepareCleanupContinuation
    | CleanupReturned | CleanupWorkerFailed
    | StoppedOutside

  datatype Execution = Execution(
    schema: Schema, operation: Operation, owner: string, idempotencyKey: string,
    state: State, fence: nat)   // fence 0 until the lease is acquired

  datatype Status = Active | Available | Failed

  datatype Lease = Lease(owner: string, idempotencyKey: string, status: Status, fence: nat)

  /** The lease row and the executions, with two records of the past: which execution made each
      acquisition, and how each fence was released. */
  datatype Coordinator = Coordinator(
    lease: Option<Lease>, executions: seq<Execution>, acquired: seq<nat>, released: map<nat, Status>)

  datatype Event =
    | Submit(schema: Schema, operation: Operation, owner: string, idempotencyKey: string)
    | Advance(i: nat, ok: bool)   // the call this execution waits for returns, or raises
    | ReplyLost(i: nat)           // it takes effect, and this execution gets an error all the same
    | Stop(i: nat)                // a timeout or an operator ends the execution

  predicate Ended(s: State) {
    match s
    case RejectOperation => true
    case LeaseRejected => true
    case ReturnActionResult => true
    case CompletionRejected => true
    case ActionWorkerFailed => true
    case UnfencedWorkerFailure => true
    case CleanupReturned => true
    case CleanupWorkerFailed => true
    case StoppedOutside => true
    case _ => false
  }

  /** The states an execution is in only after it has acquired the lease, other than a stop. */
  predicate Acquired(s: State) {
    match s
    case SelectMutationAuthorizations => true
    case AuthorizePrimarySelectorRecovery => true
    case AuthorizeRestoredSelectorCutover => true
    case RunActionWorker => true
    case MarkActionComplete => true
    case MarkActionFailed => true
    case ReturnActionResult => true
    case CompletionRejected => true
    case ActionWorkerFailed => true
    case UnfencedWorkerFailure => true
    case _ => false
  }

  /** Ended by its own transitions after having acquired the lease. */
  predicate Concluded(s: State) {
    match s
    case ReturnActionResult => true
    case CompletionRejected => true
    case ActionWorkerFailed => true
    case UnfencedWorkerFailure => true
    case _ => false
  }

  function Route(schema: Schema, operation: Operation): State {
    match (schema, operation)
    case (ActionSchema, CleanUp) => RunCleanupWorker
    case (ActionSchema, RestoreState) => AcquireActionLease
    case (ActionSchema, RollbackPrimaryState) => AcquireActionLease
    case (ActionSchema, CutoverRestoredState) => AcquireActionLease
    case (ActionSchema, WorkerAction(_)) => AcquireActionLease
    case (MaintenanceSchema, CleanUpExpired) => RunCleanupMaintenanceWorker
    case (MaintenanceSchema, Watchdog) => RunCleanupWorker
    case _ => RejectOperation
  }

  function Selection(operation: Operation): State {
    match operation
    case RestoreState => AuthorizePrimarySelectorRecovery
    case RollbackPrimaryState => AuthorizePrimarySelectorRecovery
    case CutoverRestoredState => AuthorizeRestoredSelectorCutover
    case _ => RunActionWorker
  }

  predicate Acquirable(lease: Option<Lease>, owner: string, key: string) {
    lease.Some? ==>
      lease.value.status.Available? || (lease.value.owner == owner && lease.value.idempotencyKey == key)
  }

  /** The condition both mark steps carry. */
  predicate HoldsLease(c: Coordinator, x: Execution) {
    c.lease.Some? && c.lease.value.owner == x.owner && c.lease.value.fence == x.fence && c.lease.value.status.Active?
  }

  function WithState(c: Coordinator, i: nat, s: State): Coordinator
    requires i < |c.executions|
  {
    c.(executions := c.executions[i := c.executions[i].(state := s)])
  }

  function Acquire(c: Coordinator, i: nat, s: State): Coordinator
    requires i < |c.executions|
  {
    var x := c.executions[i];
    var fence := (if c.lease.Some? then c.lease.value.fence else 0) + 1;
    c.(lease := Some(Lease(x.owner, x.idempotencyKey, Active, fence)),
       executions := c.executions[i := x.(state := s, fence := fence)],
       acquired := c.acquired + [i])
  }

  function Release(c: Coordinator, i: nat, status: Status, s: State): Coordinator
    requires i < |c.executions| && c.lease.Some?
  {
    WithState(c, i, s).(lease := Some(c.lease.value.(status := status)),
                        released := c.released[c.lease.value.fence := status])
  }

  /** Where a step goes when it leaves the lease alone; the call it waited for returned or raised. */
  function Reply(x: Execution, ok: bool): State {
    match x.state
    case ValidateOperation => Route(x.schema, x.operation)
    case AcquireActionLease => LeaseRejected
    case SelectMutationAuthorizations => Selection(x.operation)
    case AuthorizePrimarySelectorRecovery => if ok then RunActionWorker else MarkActionFailed
    case AuthorizeRestoredSelectorCutover => if ok then RunActionWorker else MarkActionFailed
    case RunActionWorker => if ok then MarkActionComplete else MarkActionFailed
    case MarkActionComplete => CompletionRejected
    case MarkActionFailed => UnfencedWorkerFailure
    case RunCleanupWorker => if ok then CleanupReturned else CleanupWorkerFailed
    case RunCleanupMaintenanceWorker => if ok then CheckCleanupContinuation else CleanupWorkerFailed
    case CheckCleanupContinuation => if ok then PrepareCleanupContinuation else CleanupReturned
    case PrepareCleanupContinuation => RunCleanupMaintenanceWorker
    case _ => x.state
  }

  /** The mark steps raise exactly when their condition does not hold. */
  function Moved(c: Coordinator, i: nat, ok: bool): Coordinator
    requires i < |c.executions|
  {
    var x := c.executions[i];
    if x.state.AcquireActionLease? && ok && Acquirable(c.lease, x.owner, x.idempotencyKey) then Acquire(c, i, SelectMutationAuthorizations)
    else if x.state.MarkActionComplete? && HoldsLease(c, x) then Release(c, i, Available, ReturnActionResult)
    else if x.state.MarkActionFailed? && HoldsLease(c, x) then Release(c, i, Failed, ActionWorkerFailed)
    else WithState(c, i, Reply(x, ok))
  }

  predicate Authorizing(s: State) {
    s.AuthorizePrimarySelectorRecovery? || s.AuthorizeRestoredSelectorCutover?
  }

  /** An acquisition or a transaction that took effect unheard; the execution fails, and the lease stays. */
  function Unheard(c: Coordinator, i: nat): Coordinator
    requires i < |c.executions|
  {
    var x := c.executions[i];
    if x.state.AcquireActionLease? && Acquirable(c.lease, x.owner, x.idempotencyKey) then Acquire(c, i, LeaseRejected)
    else if Authorizing(x.state) then WithState(c, i, Reply(x, false))
    else c
  }

  function Next(c: Coordinator, event: Event): Coordinator {
    match event
    case Submit(schema, operation, owner, key) =>
      c.(executions := c.executions + [Execution(schema, operation, owner, key, ValidateOperation, 0)])
    case Advance(i, ok) => if i < |c.executions| then Moved(c, i, ok) else c
    case ReplyLost(i) => if i < |c.executions| then Unheard(c, i) else c
    case Stop(i) =>
      if i < |c.executions| && !Ended(c.executions[i].state) then WithState(c, i, StoppedOutside) else c
  }

  const START := Coordinator(None, [], [], map[])

  function After(events: seq<Event>): Coordinator {
    if events == [] then START else Next(After(events[..|events| - 1]), events[|events| - 1])
  }

  // ----- the invariant -----

  /** The execution fence f was handed to. */
  function Holder(c: Coordinator, f: nat): Execution
    requires Fenced(c) && 1 <= f <= |c.acquired|
  {
    c.executions[c.acquired[f - 1]]
  }

  predicate Off(s: State) {
    s.StoppedOutside? || s.LeaseRejected?
  }

  predicate SameHolder(x: Execution, y: Execution) {
    x.owner == y.owner && x.idempotencyKey == y.idempotencyKey
  }

  /** Fence f was handed out by acquisition f, to one execution, and each execution acquired once; only one that
      was stopped, or rejected because it never heard of its lease, may hold a fence without going on. */
  predicate Fenced(c: Coordinator) {
    && (forall k :: 0 <= k < |c.acquired| ==>
          c.acquired[k] < |c.executions| && c.executions[c.acquired[k]].fence == k + 1)
    && (forall i :: 0 <= i < |c.executions| && c.executions[i].fence > 0 ==>
          c.executions[i].fence <= |c.acquired| && c.acquired[c.executions[i].fence - 1] == i)
    && (forall i :: 0 <= i < |c.executions| && !Off(c.executions[i].state) ==>
          (c.executions[i].fence > 0 <==> Acquired(c.executions[i].state)))
  }

  /** The row carries the latest acquisition and how it was released, if it was. */
  predicate Current(c: Coordinator)
    requires Fenced(c)
  {
    && (c.lease.None? <==> c.acquired == [])
    && (c.lease.Some? ==>
          && var l := c.lease.value;
             && l.fence == |c.acquired| > 0
             && l.owner == Holder(c, l.fence).owner
             && l.idempotencyKey == Holder(c, l.fence).idempotencyKey
             && (l.status.Active? <==> l.fence !in c.released)
             && (l.fence in c.released ==> c.released[l.fence] == l.status))
    && (forall f :: f in c.released ==> 1 <= f <= |c.acquired|)
  }

  /** The next acquisition was by the same holder, or after this one completed. */
  predicate PassedOn(c: Coordinator, f: nat)
    requires Fenced(c) && 1 <= f < |c.acquired|
  {
    SameHolder(Holder(c, f), Holder(c, f + 1)) || (f in c.released && c.released[f].Available?)
  }

  predicate HandedOver(c: Coordinator)
    requires Fenced(c)
  {
    forall f :: 1 <= f < |c.acquired| ==> PassedOn(c, f)
  }

  /** How each acquirer ended and how its fence was released agree, and one that lost the fence was
      superseded. */
  predicate Settled(released: map<nat, Status>, latest: nat, x: Execution) {
    && (x.state.ReturnActionResult? <==> x.fence in released && released[x.fence].Available?)
    && (x.state.ActionWorkerFailed? <==> x.fence in released && released[x.fence].Failed?)
    && (x.fence in released ==> !released[x.fence].Active?)
    && (x.state.CompletionRejected? || x.state.UnfencedWorkerFailure? ==> x.fence < latest)
  }

  predicate Accounted(c: Coordinator) {
    forall i :: 0 <= i < |c.executions| ==> Settled(c.released, |c.acquired|, c.executions[i])
  }

  predicate Invariant(c: Coordinator) {
    Fenced(c) && Current(c) && HandedOver(c) && Accounted(c)
  }

  // ----- every step keeps the invariant -----

  lemma StateChangeFences(c: Coordinator, i: nat, s: State)
    requires Fenced(c) && i < |c.executions|
    requires Off(s) || (Acquired(s) <==> Acquired(c.executions[i].state))
    requires Off(c.executions[i].state) ==> Off(s)
    ensures Fenced(WithState(c, i, s))
  {
  }

  lemma StateChangePasses(c: Coordinator, i: nat, s: State, f: nat)
    requires Fenced(c) && i < |c.executions| && Fenced(WithState(c, i, s))
    requires 1 <= f < |c.acquired| && PassedOn(c, f)
    ensures PassedOn(WithState(c, i, s), f)
  {
  }

  lemma StateChangeAccounts(c: Coordinator, i: nat, s: State)
    requires Accounted(c) && i < |c.executions|
    requires Settled(c.released, |c.acquired|, c.executions[i].(state := s))
    ensures Accounted(WithState(c, i, s))
  {
    var c' := WithState(c, i, s);
    forall k | 0 <= k < |c'.executions| ensures Settled(c'.released, |c'.acquired|, c'.executions[k]) {
      assert Settled(c.released, |c.acquired|, c.executions[k]);
    }
  }

  lemma StateChangeKeeps(c: Coordinator, i: nat, s: State)
    requires Invariant(c) && i < |c.executions|
    requires Off(s) || (Acquired(s) <==> Acquired(c.executions[i].state))
    requires Off(c.executions[i].state) ==> Off(s)
    requires Settled(c.released, |c.acquired|, c.executions[i].(state := s))
    ensures Invariant(WithState(c, i, s))
  {
    StateChangeFences(c, i, s);
    StateChangeAccounts(c, i, s);
    forall f | 1 <= f < |c.acquired| ensures PassedOn(WithState(c, i, s), f) {
      assert PassedOn(c, f);
      StateChangePasses(c, i, s, f);
    }
  }

  lemma AcquireFences(c: Coordinator, i: nat, s: State)
    requires Fenced(c) && Current(c) && i < |c.executions| && c.executions[i].state.AcquireActionLease?
    requires s.SelectMutationAuthorizations? || s.LeaseRejected?
    ensures Fenced(Acquire(c, i, s))
  {
  }

  lemma AcquireKeeps(c: Coordinator, i: nat, s: State)
    requires Invariant(c) && i < |c.executions| && c.executions[i].state.AcquireActionLease?
    requires Acquirable(c.lease, c.executions[i].owner, c.executions[i].idempotencyKey)
    requires s.SelectMutationAuthorizations? || s.LeaseRejected?
    ensures Invariant(Acquire(c, i, s))
  {
    AcquireFences(c, i, s);
    var c' := Acquire(c, i, s);
    forall k | 0 <= k < |c'.executions| ensures Settled(c'.released, |c'.acquired|, c'.executions[k]) {
      assert Settled(c.released, |c.acquired|, c.executions[k]);
    }
    forall f | 1 <= f < |c'.acquired| ensures PassedOn(c', f) {
      if f < |c.acquired| {
        assert PassedOn(c, f);
      }
    }
  }

  lemma OnlyOneHolds(c: Coordinator, i: nat, k: nat)
    requires Fenced(c) && i < |c.executions| && k < |c.executions| && k != i && c.executions[i].fence > 0
    ensures c.executions[k].fence != c.executions[i].fence
  {
  }

  lemma ReleaseAccounts(c: Coordinator, i: nat, status: Status, s: State)
    requires Fenced(c) && Accounted(c) && i < |c.executions| && HoldsLease(c, c.executions[i])
    requires Acquired(c.executions[i].state)
    requires (status.Available? && s.ReturnActionResult?) || (status.Failed? && s.ActionWorkerFailed?)
    ensures Accounted(Release(c, i, status, s))
  {
    var x := c.executions[i];
    assert x.fence > 0;
    var c' := Release(c, i, status, s);
    forall k | 0 <= k < |c'.executions| ensures Settled(c'.released, |c'.acquired|, c'.executions[k]) {
      assert Settled(c.released, |c.acquired|, c.executions[k]);
      if k != i {
        OnlyOneHolds(c, i, k);
        assert c'.executions[k] == c.executions[k];
      }
    }
  }

  lemma ReleaseFences(c: Coordinator, i: nat, status: Status, s: State)
    requires Fenced(c) && i < |c.executions| && HoldsLease(c, c.executions[i])
    requires Acquired(c.executions[i].state) && Acquired(s) && !s.StoppedOutside?
    ensures Fenced(Release(c, i, status, s))
  {
    StateChangeFences(c, i, s);
    assert Fenced(WithState(c, i, s));
  }

  lemma ReleasePasses(c: Coordinator, i: nat, status: Status, s: State, f: nat)
    requires Fenced(c) && i < |c.executions| && HoldsLease(c, c.executions[i]) && Fenced(Release(c, i, status, s))
    requires 1 <= f < |c.acquired| && PassedOn(c, f) && c.lease.value.fence == |c.acquired|
    ensures PassedOn(Release(c, i, status, s), f)
  {
  }

  lemma ReleaseKeeps(c: Coordinator, i: nat, status: Status, s: State)
    requires Invariant(c) && i < |c.executions| && HoldsLease(c, c.executions[i])
    requires Acquired(c.executions[i].state)
    requires (status.Available? && s.ReturnActionResult?) || (status.Failed? && s.ActionWorkerFailed?)
    ensures Invariant(Release(c, i, status, s))
  {
    ReleaseFences(c, i, status, s);
    ReleaseAccounts(c, i, status, s);
    forall f | 1 <= f < |c.acquired| ensures PassedOn(Release(c, i, status, s), f) {
      assert PassedOn(c, f);
      ReleasePasses(c, i, status, s, f);
    }
  }

  lemma SubmitKeeps(c: Coordinator, x: Execution)
    requires Invariant(c) && x.state.ValidateOperation? && x.fence == 0
    ensures Invariant(c.(executions := c.executions + [x]))
  {
    var c' := c.(executions := c.executions + [x]);
    assert Fenced(c');
    forall k | 0 <= k < |c'.executions| ensures Settled(c'.released, |c'.acquired|, c'.executions[k]) {
      assert k < |c.executions| ==> Settled(c.released, |c.acquired|, c.executions[k]);
    }
    forall f | 1 <= f < |c'.acquired| ensures PassedOn(c', f) {
      assert PassedOn(c, f);
    }
  }

  lemma ReplyStaysOnItsSide(x: Execution, ok: bool)
    ensures Acquired(Reply(x, ok)) <==> Acquired(x.state)
    ensures Concluded(Reply(x, ok)) ==>
              || Reply(x, ok) == x.state
              || (x.state.MarkActionComplete? && Reply(x, ok).CompletionRejected?)
              || (x.state.MarkActionFailed? && Reply(x, ok).UnfencedWorkerFailure?)
    ensures Concluded(x.state) ==> Reply(x, ok) == x.state
    ensures Off(x.state) ==> Reply(x, ok) == x.state
    ensures Off(Reply(x, ok)) ==> Reply(x, ok) == x.state || Reply(x, ok).LeaseRejected?
  {
  }

  lemma MovedKeeps(c: Coordinator, i: nat, ok: bool)
    requires Invariant(c) && i < |c.executions|
    ensures Invariant(Moved(c, i, ok))
  {
    var x := c.executions[i];
    ReplyStaysOnItsSide(x, ok);
    assert Settled(c.released, |c.acquired|, x);
    if x.state.AcquireActionLease? && ok && Acquirable(c.lease, x.owner, x.idempotencyKey) {
      AcquireKeeps(c, i, SelectMutationAuthorizations);
    } else if x.state.MarkActionComplete? && HoldsLease(c, x) {
      ReleaseKeeps(c, i, Available, ReturnActionResult);
    } else if x.state.MarkActionFailed? && HoldsLease(c, x) {
      ReleaseKeeps(c, i, Failed, ActionWorkerFailed);
    } else {
      StateChangeKeeps(c, i, Reply(x, ok));
    }
  }

  lemma UnheardKeeps(c: Coordinator, i: nat)
    requires Invariant(c) && i < |c.executions|
    ensures Invariant(Unheard(c, i))
  {
    var x := c.executions[i];
    assert Settled(c.released, |c.acquired|, x);
    if x.state.AcquireActionLease? && Acquirable(c.lease, x.owner, x.idempotencyKey) {
      AcquireKeeps(c, i, LeaseRejected);
    } else if Authorizing(x.state) {
      StateChangeKeeps(c, i, Reply(x, false));
    }
  }

  lemma NextKeeps(c: Coordinator, event: Event)
    requires Invariant(c)
    ensures Invariant(Next(c, event))
  {
    match event
    case Submit(schema, operation, owner, key) =>
      SubmitKeeps(c, Execution(schema, operation, owner, key, ValidateOperation, 0));
    case Stop(i) =>
      if i < |c.executions| && !Ended(c.executions[i].state) {
        StateChangeKeeps(c, i, StoppedOutside);
      }
    case Advance(i, ok) =>
      if i < |c.executions| {
        MovedKeeps(c, i, ok);
      }
    case ReplyLost(i) =>
      if i < |c.executions| {
        UnheardKeeps(c, i);
      }
  }

  lemma {:induction false} RunsKeep(events: seq<Event>)
    ensures Invariant(After(events))
    decreases |events|
  {
    if events != [] {
      RunsKeep(events[..|events| - 1]);
      NextKeeps(After(events[..|events| - 1]), events[|events| - 1]);
    }
  }

  // ----- what every run guarantees -----

  /** No two executions of a run ever hold the same fence. */
  lemma FencesAreUnique(events: seq<Event>, i: nat, j: nat)
    requires var c := After(events);
             i < |c.executions| && j < |c.executions| && c.executions[i].fence == c.executions[j].fence > 0
    ensures i == j
  {
    RunsKeep(events);
  }

  /** A step either leaves the fence alone or acquires: then the new fence exceeds every fence ever
      handed out, and a lease that was active or failed stays with its owner and idempotency key. */
  lemma StepRaisesFence(events: seq<Event>, event: Event)
    ensures var c, c' := After(events), Next(After(events), event);
            || (c'.acquired == c.acquired && (c.lease.Some? <==> c'.lease.Some?)
                && (c.lease.Some? ==> c'.lease.value == c.lease.value.(status := c'.lease.value.status)))
            || (&& (event.Advance? || event.ReplyLost?) && event.i < |c.executions| && c'.lease.Some?
                && c'.acquired == c.acquired + [event.i]
                && c'.lease.value.status.Active? && c'.lease.value.fence == c'.executions[event.i].fence
                && c'.lease.value.owner == c.executions[event.i].owner
                && c'.lease.value.idempotencyKey == c.executions[event.i].idempotencyKey
                && (forall x | x in c.executions :: x.fence < c'.lease.value.fence)
                && (c.lease.Some? && !c.lease.value.status.Available? ==>
                      && c'.lease.value.owner == c.lease.value.owner
                      && c'.lease.value.idempotencyKey == c.lease.value.idempotencyKey))
  {
    RunsKeep(events);
  }

  /** Only the execution holding the current fence takes the lease out of active. */
  lemma OnlyTheHolderReleases(events: seq<Event>, event: Event)
    requires var c, c' := After(events), Next(After(events), event);
             c.lease.Some? && c.lease.value.status.Active? && c'.lease.Some? && !c'.lease.value.status.Active?
    ensures var c := After(events);
            && event.Advance? && event.i < |c.executions|
            && c.executions[event.i].fence == c.lease.value.fence
            && c.executions[event.i].owner == c.lease.value.owner
            && (c.executions[event.i].state.MarkActionComplete? || c.executions[event.i].state.MarkActionFailed?)
  {
    RunsKeep(events);
  }

  /** An execution that acquired the lease and concluded by itself has let go of it: it released its
      fence the way it ended, or a later acquisition superseded it. */
  lemma ConcludedLetsGo(events: seq<Event>, i: nat)
    requires i < |After(events).executions| && Concluded(After(events).executions[i].state)
    ensures var c := After(events); var x := c.executions[i];
            && x.fence > 0 && c.lease.Some?
            && (c.lease.value.fence > x.fence || (c.lease.value.fence == x.fence && !c.lease.value.status.Active?))
            && match x.state {
                 case ReturnActionResult => x.fence in c.released && c.released[x.fence].Available?
                 case ActionWorkerFailed => x.fence in c.released && c.released[x.fence].Failed?
                 case _ => x.fence !in c.released && c.lease.value.fence > x.fence
               }
  {
    RunsKeep(events);
    assert Settled(After(events).released, |After(events).acquired|, After(events).executions[i]);
  }

  /** An execution that is rejected without having heard of its acquisition leaves the lease active, for
      its own owner and idempotency key to acquire again. */
  lemma UnheardLeaseStays(events: seq<Event>, i: nat)
    requires i < |After(events).executions|
    requires After(events).executions[i].state.LeaseRejected? && After(events).executions[i].fence > 0
    ensures var c := After(events); var x := c.executions[i];
            && c.lease.Some? && x.fence !in c.released
            && (c.lease.value.fence > x.fence
                || (c.lease.value.fence == x.fence && c.lease.value.status.Active?
                    && forall owner, key :: Acquirable(c.lease, owner, key) <==> owner == x.owner && key == x.idempotencyKey))
  {
    RunsKeep(events);
    assert Settled(After(events).released, |After(events).acquired|, After(events).executions[i]);
  }

  /** Whenever the lease goes to a different owner or key, some acquisition in between completed. */
  lemma {:induction false} HandoverNeedsCompletion(events: seq<Event>, f: nat, g: nat) returns (h: nat)
    requires Invariant(After(events)) && 1 <= f < g <= |After(events).acquired|
    requires !SameHolder(Holder(After(events), f), Holder(After(events), g))
    ensures var c := After(events); f <= h < g && h in c.released && c.released[h].Available?
    decreases g - f
  {
    var c := After(events);
    assert PassedOn(c, g - 1);
    if g - 1 in c.released && c.released[g - 1].Available? {
      h := g - 1;
    } else {
      h := HandoverNeedsCompletion(events, f, g - 1);
    }
  }

  lemma {:induction false} FenceNeverFalls(events: seq<Event>, more: seq<Event>)
    ensures After(events).acquired <= After(events + more).acquired
    decreases |more|
  {
    if more == [] {
      assert events + more == events;
    } else {
      var fewer := more[..|more| - 1];
      FenceNeverFalls(events, fewer);
      assert (events + more)[..|events + more| - 1] == events + fewer;
      StepRaisesFence(events + fewer, more[|more| - 1]);
    }
  }
}
