/** The mutation authorizations beside the lease: an execution of a selector operation files six of them
    in one transaction before its worker runs. */
module LaunchFiling {
  import opened LaunchAuthorizations
  import opened LaunchLease

  datatype Authorization = Authorization(owner: string, fence: nat, edge: Edge)

  datatype Desk = Desk(coordinator: Coordinator, table: map<string, Authorization>)

  /** The edges an operation needs authorized before its worker runs. */
  function Edges(operation: Operation): seq<Edge> {
    match operation
    case RestoreState => PRIMARY_RECOVERY
    case RollbackPrimaryState => PRIMARY_RECOVERY
    case CutoverRestoredState => RESTORED_CUTOVER
    case _ => []
  }

  /** The edges the transaction of this state puts. */
  function Transaction(s: State): seq<Edge> {
    match s
    case AuthorizePrimarySelectorRecovery => PRIMARY_RECOVERY
    case AuthorizeRestoredSelectorCutover => RESTORED_CUTOVER
    case _ => []
  }

  /** All the puts of one transaction. */
  function Filed(table: map<string, Authorization>, owner: string, fence: nat, edges: seq<Edge>): map<string, Authorization> {
    if edges == [] then table
    else
      var e := edges[|edges| - 1];
      Filed(table, owner, fence, edges[..|edges| - 1])[AuthorizationId(owner, fence, e) := Authorization(owner, fence, e)]
  }

  /** The transaction takes effect, whether or not the execution hears of it. */
  predicate Files(event: Event) {
    (event.Advance? && event.ok) || event.ReplyLost?
  }

  function TableAfter(d: Desk, event: Event): map<string, Authorization> {
    var xs := d.coordinator.executions;
    if Files(event) && event.i < |xs| && Authorizing(xs[event.i].state) then
      Filed(d.table, xs[event.i].owner, xs[event.i].fence, Transaction(xs[event.i].state))
    else d.table
  }

  function Next(d: Desk, event: Event): Desk {
    Desk(LaunchLease.Next(d.coordinator, event), TableAfter(d, event))
  }

  function After(events: seq<Event>): Desk {
    if events == [] then Desk(START, map[]) else Next(After(events[..|events| - 1]), events[|events| - 1])
  }

  lemma {:induction false} SameCoordinator(events: seq<Event>)
    ensures After(events).coordinator == LaunchLease.After(events)
    decreases |events|
  {
    if events != [] {
      SameCoordinator(events[..|events| - 1]);
    }
  }

  // ----- what the table holds -----

  predicate Covered(table: map<string, Authorization>, x: Execution, e: Edge) {
    var id := AuthorizationId(x.owner, x.fence, e);
    id in table && table[id] == Authorization(x.owner, x.fence, e)
  }

  predicate Covers(table: map<string, Authorization>, x: Execution, edges: seq<Edge>) {
    forall e | e in edges :: Covered(table, x, e)
  }

  predicate BeforeFiling(s: State) {
    s.SelectMutationAuthorizations? || Authorizing(s)
  }

  /** Filed under its own identifier, for an acquisition already past its transaction. */
  predicate WellFiled(c: Coordinator, id: string, a: Authorization)
    requires Fenced(c)
  {
    && id == AuthorizationId(a.owner, a.fence, a.edge)
    && 1 <= a.fence <= |c.acquired|
    && a.owner == Holder(c, a.fence).owner
    && !BeforeFiling(Holder(c, a.fence).state)
  }

  predicate Sorted(d: Desk)
    requires Fenced(d.coordinator)
  {
    forall id | id in d.table :: WellFiled(d.coordinator, id, d.table[id])
  }

  /** A worker runs, and an action is complete, only with all of its operation's edges authorized. */
  predicate Ready(table: map<string, Authorization>, x: Execution) {
    && (x.state.RunActionWorker? || x.state.MarkActionComplete? || x.state.ReturnActionResult? ==>
          Covers(table, x, Edges(x.operation)))
    && (Authorizing(x.state) ==> Transaction(x.state) == Edges(x.operation))
  }

  predicate AllReady(d: Desk) {
    forall x | x in d.coordinator.executions :: Ready(d.table, x)
  }

  predicate Kept(d: Desk) {
    LaunchLease.Invariant(d.coordinator) && Sorted(d) && AllReady(d)
  }

  lemma {:induction false} FiledHolds(table: map<string, Authorization>, x: Execution, edges: seq<Edge>)
    ensures var t := Filed(table, x.owner, x.fence, edges);
            && Covers(t, x, edges)
            && (forall id | id in t ::
                  || (id in table && t[id] == table[id])
                  || (t[id].owner == x.owner && t[id].fence == x.fence
                      && id == AuthorizationId(x.owner, x.fence, t[id].edge)))
            && (forall id | id in table :: id in t)
    decreases |edges|
  {
    if edges != [] {
      var rest, last := edges[..|edges| - 1], edges[|edges| - 1];
      FiledHolds(table, x, rest);
      var t := Filed(table, x.owner, x.fence, edges);
      forall e | e in edges ensures Covered(t, x, e) {
        if e != last {
          assert e in rest;
          if AuthorizationId(x.owner, x.fence, e) == AuthorizationId(x.owner, x.fence, last) {
            IdsAreInjective(x.owner, x.fence, e, x.owner, x.fence, last);
          }
        }
      }
    }
  }

  // ----- every step keeps it -----

  /** The execution at this place after one step. */
  function Became(c: Coordinator, event: Event, k: nat): Execution
    requires k < |c.executions|
  {
    var x := c.executions[k];
    if event == Stop(k) && !Ended(x.state) then x.(state := StoppedOutside)
    else if event.Advance? && event.i == k then
      if x.state.AcquireActionLease? && event.ok && Acquirable(c.lease, x.owner, x.idempotencyKey) then
        x.(state := SelectMutationAuthorizations, fence := Acquire(c, k, SelectMutationAuthorizations).lease.value.fence)
      else if x.state.MarkActionComplete? && HoldsLease(c, x) then x.(state := ReturnActionResult)
      else if x.state.MarkActionFailed? && HoldsLease(c, x) then x.(state := ActionWorkerFailed)
      else x.(state := Reply(x, event.ok))
    else if event == ReplyLost(k) && x.state.AcquireActionLease? && Acquirable(c.lease, x.owner, x.idempotencyKey) then
      x.(state := LeaseRejected, fence := Acquire(c, k, LeaseRejected).lease.value.fence)
    else if event == ReplyLost(k) && Authorizing(x.state) then x.(state := Reply(x, false))
    else x
  }

  lemma StepOn(c: Coordinator, event: Event, k: nat)
    requires k < |c.executions|
    ensures k < |LaunchLease.Next(c, event).executions|
    ensures LaunchLease.Next(c, event).executions[k] == Became(c, event, k)
  {
  }

  lemma StepBackward(c: Coordinator, event: Event, k: nat)
    requires LaunchLease.Next(c, event).executions != c.executions && k < |LaunchLease.Next(c, event).executions|
    ensures k < |c.executions| || LaunchLease.Next(c, event).executions[k].state.ValidateOperation?
  {
  }

  lemma AcquirersStay(c: Coordinator, event: Event, k: nat)
    requires k < |c.executions| && Fenced(c) && c.executions[k].fence > 0
    ensures Became(c, event, k).owner == c.executions[k].owner && Became(c, event, k).fence == c.executions[k].fence
    ensures !BeforeFiling(c.executions[k].state) ==> !BeforeFiling(Became(c, event, k).state)
  {
  }

  lemma WorkersCome(c: Coordinator, event: Event, k: nat)
    requires k < |c.executions|
    ensures var x, x' := c.executions[k], Became(c, event, k);
            && (Authorizing(x.state) && x'.state.RunActionWorker? ==>
                  event == Advance(k, true) && x' == x.(state := RunActionWorker))
            && (x'.state.RunActionWorker? && !Authorizing(x.state) ==>
                  x' == x || (x' == x.(state := RunActionWorker) && Edges(x.operation) == []))
            && (x'.state.MarkActionComplete? ==> x.state.RunActionWorker? || x.state.MarkActionComplete?)
            && (x'.state.ReturnActionResult? ==> x.state.MarkActionComplete? || x.state.ReturnActionResult?)
            && (x'.state.MarkActionComplete? || x'.state.ReturnActionResult? ==> x' == x.(state := x'.state))
            && (Authorizing(x'.state) ==> x' == x || Transaction(x'.state) == Edges(x'.operation))
  {
  }

  /** What is on file under another acquisition has another identifier. */
  lemma OtherIdentifier(c: Coordinator, i: nat, id: string, a: Authorization, e: Edge)
    requires Fenced(c) && i < |c.executions| && Authorizing(c.executions[i].state)
    requires WellFiled(c, id, a)
    ensures id != AuthorizationId(c.executions[i].owner, c.executions[i].fence, e)
  {
    var x := c.executions[i];
    if id == AuthorizationId(x.owner, x.fence, e) {
      IdsAreInjective(a.owner, a.fence, a.edge, x.owner, x.fence, e);
      FilerHolds(c, i);
    }
  }

  lemma {:induction false} FilingKeepsOthers(table: map<string, Authorization>, owner: string, fence: nat,
                                             edges: seq<Edge>, id: string)
    requires id in table && forall e | e in edges :: id != AuthorizationId(owner, fence, e)
    ensures id in Filed(table, owner, fence, edges) && Filed(table, owner, fence, edges)[id] == table[id]
    decreases |edges|
  {
    if edges != [] {
      FilingKeepsOthers(table, owner, fence, edges[..|edges| - 1], id);
    }
  }

  lemma NotOverwritten(c: Coordinator, i: nat, table: map<string, Authorization>, edges: seq<Edge>, id: string)
    requires Fenced(c) && i < |c.executions| && Authorizing(c.executions[i].state)
    requires id in table && WellFiled(c, id, table[id])
    ensures var x := c.executions[i]; var t := Filed(table, x.owner, x.fence, edges);
            id in t && t[id] == table[id]
  {
    var x := c.executions[i];
    forall e | e in edges ensures id != AuthorizationId(x.owner, x.fence, e) {
      OtherIdentifier(c, i, id, table[id], e);
    }
    FilingKeepsOthers(table, x.owner, x.fence, edges, id);
  }

  lemma StaysOnFile(d: Desk, event: Event, id: string)
    requires Fenced(d.coordinator) && id in d.table && WellFiled(d.coordinator, id, d.table[id])
    ensures id in TableAfter(d, event) && TableAfter(d, event)[id] == d.table[id]
  {
    var c := d.coordinator;
    if Files(event) && event.i < |c.executions| && Authorizing(c.executions[event.i].state) {
      NotOverwritten(c, event.i, d.table, Transaction(c.executions[event.i].state), id);
    }
  }

  /** A transaction writes only identifiers that are not on file, so nothing is ever overwritten or
      removed, whatever colons the owners contain. */
  lemma NothingOverwritten(d: Desk, event: Event)
    requires Fenced(d.coordinator) && Sorted(d)
    ensures forall id | id in d.table :: id in TableAfter(d, event) && TableAfter(d, event)[id] == d.table[id]
  {
    forall id | id in d.table ensures id in TableAfter(d, event) && TableAfter(d, event)[id] == d.table[id] {
      assert WellFiled(d.coordinator, id, d.table[id]);
      StaysOnFile(d, event, id);
    }
  }

  lemma AcquisitionsStay(c: Coordinator, event: Event)
    ensures c.acquired <= LaunchLease.Next(c, event).acquired
  {
  }

  lemma WellFiledStays(c: Coordinator, event: Event, id: string, a: Authorization)
    requires Fenced(c) && Fenced(LaunchLease.Next(c, event)) && WellFiled(c, id, a)
    ensures WellFiled(LaunchLease.Next(c, event), id, a)
  {
    AcquisitionsStay(c, event);
    var k := c.acquired[a.fence - 1];
    StepOn(c, event, k);
    AcquirersStay(c, event, k);
  }

  lemma FilingMovesOn(c: Coordinator, event: Event, i: nat)
    requires Files(event) && event.i == i < |c.executions| && Authorizing(c.executions[i].state)
    ensures LaunchLease.Next(c, event) == WithState(c, i, Reply(c.executions[i], event.Advance?))
    ensures !BeforeFiling(Reply(c.executions[i], event.Advance?)) && Acquired(Reply(c.executions[i], event.Advance?))
  {
  }

  lemma FilerHolds(c: Coordinator, i: nat)
    requires Fenced(c) && i < |c.executions| && Acquired(c.executions[i].state)
    ensures var fence := c.executions[i].fence; 1 <= fence <= |c.acquired| && Holder(c, fence) == c.executions[i]
  {
  }

  lemma NewIsWellFiled(c: Coordinator, event: Event, i: nat, id: string, a: Authorization)
    requires LaunchLease.Invariant(c) && LaunchLease.Invariant(LaunchLease.Next(c, event))
    requires Files(event) && event.i == i < |c.executions| && Authorizing(c.executions[i].state)
    requires a.owner == c.executions[i].owner && a.fence == c.executions[i].fence
    requires id == AuthorizationId(a.owner, a.fence, a.edge)
    ensures WellFiled(LaunchLease.Next(c, event), id, a)
  {
    FilingMovesOn(c, event, i);
    FilerHolds(c, i);
    FilerHolds(LaunchLease.Next(c, event), i);
  }

  lemma StaysSorted(d: Desk, event: Event)
    requires Kept(d) && LaunchLease.Invariant(LaunchLease.Next(d.coordinator, event))
    ensures forall id | id in TableAfter(d, event) ::
              WellFiled(LaunchLease.Next(d.coordinator, event), id, TableAfter(d, event)[id])
  {
    var c, t := d.coordinator, TableAfter(d, event);
    NothingOverwritten(d, event);
    forall id | id in t ensures WellFiled(LaunchLease.Next(c, event), id, t[id]) {
      if id in d.table {
        WellFiledStays(c, event, id, d.table[id]);
      } else {
        var x := c.executions[event.i];
        FiledHolds(d.table, x, Transaction(x.state));
        NewIsWellFiled(c, event, event.i, id, t[id]);
      }
    }
  }

  lemma ReadyStays(d: Desk, event: Event, k: nat)
    requires Kept(d) && k < |d.coordinator.executions|
    ensures Ready(TableAfter(d, event), Became(d.coordinator, event, k))
  {
    var x, x' := d.coordinator.executions[k], Became(d.coordinator, event, k);
    assert Ready(d.table, x);
    NothingOverwritten(d, event);
    WorkersCome(d.coordinator, event, k);
    if x'.state.RunActionWorker? && Authorizing(x.state) {
      FiledHolds(d.table, x, Transaction(x.state));
    }
    if x'.state.RunActionWorker? || x'.state.MarkActionComplete? || x'.state.ReturnActionResult? {
      forall e | e in Edges(x.operation) ensures Covered(TableAfter(d, event), x', e) {
        assert Covered(TableAfter(d, event), x, e) || Covered(d.table, x, e);
      }
    }
  }

  lemma StaysReady(d: Desk, event: Event)
    requires Kept(d)
    ensures AllReady(Next(d, event))
  {
    var c := d.coordinator;
    var xs := LaunchLease.Next(c, event).executions;
    forall k | 0 <= k < |xs| ensures Ready(TableAfter(d, event), xs[k]) {
      if k < |c.executions| {
        StepOn(c, event, k);
        ReadyStays(d, event, k);
      } else {
        StepBackward(c, event, k);
      }
    }
  }

  lemma NextKeeps(d: Desk, event: Event)
    requires Kept(d)
    ensures Kept(Next(d, event))
  {
    LaunchLease.NextKeeps(d.coordinator, event);
    StaysSorted(d, event);
    StaysReady(d, event);
  }

  lemma {:induction false} RunsKeep(events: seq<Event>)
    ensures Kept(After(events))
    decreases |events|
  {
    if events != [] {
      RunsKeep(events[..|events| - 1]);
      NextKeeps(After(events[..|events| - 1]), events[|events| - 1]);
    } else {
      LaunchLease.RunsKeep([]);
    }
  }

  // ----- what every run guarantees -----

  /** A worker runs only with every authorization of its operation on file under its owner and fence. */
  lemma WorkersAreAuthorized(events: seq<Event>, x: Execution)
    requires x in After(events).coordinator.executions && x.state.RunActionWorker?
    ensures forall e | e in Edges(x.operation) :: Covered(After(events).table, x, e)
  {
    RunsKeep(events);
    assert Ready(After(events).table, x);
  }

  /** For the three selector operations these are six different records. */
  lemma SixRecords(x: Execution, j: nat, k: nat)
    requires x.operation.RestoreState? || x.operation.RollbackPrimaryState? || x.operation.CutoverRestoredState?
    ensures |Edges(x.operation)| == 6
    ensures j < k < 6 ==> AuthorizationId(x.owner, x.fence, Edges(x.operation)[j])
                          != AuthorizationId(x.owner, x.fence, Edges(x.operation)[k])
  {
    var edges := Edges(x.operation);
    if j < k < 6 && AuthorizationId(x.owner, x.fence, edges[j]) == AuthorizationId(x.owner, x.fence, edges[k]) {
      IdsAreInjective(x.owner, x.fence, edges[j], x.owner, x.fence, edges[k]);
    }
  }

  lemma TableGrows(d: Desk, event: Event, id: string)
    requires Kept(d) && id in d.table
    ensures id in Next(d, event).table && Next(d, event).table[id] == d.table[id]
  {
    NothingOverwritten(d, event);
  }

  /** From this desk on, further events. */
  function Onward(d: Desk, more: seq<Event>): Desk
    decreases |more|
  {
    if more == [] then d else Next(Onward(d, more[..|more| - 1]), more[|more| - 1])
  }

  lemma {:induction false} OnwardKeeps(d: Desk, more: seq<Event>, id: string)
    requires Kept(d) && id in d.table
    ensures Kept(Onward(d, more)) && id in Onward(d, more).table && Onward(d, more).table[id] == d.table[id]
    decreases |more|
  {
    if more != [] {
      var before := Onward(d, more[..|more| - 1]);
      OnwardKeeps(d, more[..|more| - 1], id);
      NextKeeps(before, more[|more| - 1]);
      TableGrows(before, more[|more| - 1], id);
    }
  }

  lemma {:induction false} RunsGoOnward(events: seq<Event>, more: seq<Event>)
    ensures After(events + more) == Onward(After(events), more)
    decreases |more|
  {
    if more == [] {
      assert events + more == events;
    } else {
      assert (events + more)[..|events + more| - 1] == events + more[..|more| - 1];
      RunsGoOnward(events, more[..|more| - 1]);
    }
  }

  /** Over any continuation of a run, every authorization on file stays as it was written. */
  lemma AuthorizationsAreForever(events: seq<Event>, more: seq<Event>, id: string)
    requires id in After(events).table
    ensures id in After(events + more).table && After(events + more).table[id] == After(events).table[id]
  {
    RunsKeep(events);
    OnwardKeeps(After(events), more, id);
    RunsGoOnward(events, more);
  }
}
