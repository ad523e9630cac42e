/** Runs of the recovery commands when the operator lets every stack settle before the next command.
    Each command may be cut short after any write and any command may follow. */
module RecoveryRuns {
  import opened Options
  import opened RecoveryModel
  import opened RecoveryTraces

  // ----- the invariant -----

  predicate RuntimePlaced(e: Evidence, runtime: Selector, alone: bool) {
    match e.phase
    case Quiescing => runtime == Before(e) || (alone && runtime == Blocked(e))
    case ControlPlaneQuiesced | QuiescedPhase => runtime == Before(e) || runtime == Blocked(e)
    case Selecting | ControlPlaneSelected | SelectedPhase =>
      e.target.Some? && (runtime == Before(e) || runtime == Blocked(e) || runtime == Chosen(e))
    case StartingValidation =>
      e.target.Some? &&
      (runtime == Before(e) || runtime == Blocked(e) || runtime == Chosen(e) || runtime == Trial(e))
    case ValidationPhase => e.target.Some? && runtime == Trial(e)
    case Promoting => e.target.Some? && (runtime == Trial(e) || runtime == Promotion(e))
    case Promoted => e.target.Some? && runtime == Promotion(e)
    case Aborted => runtime == Before(e)
    case Complete => runtime == Before(e) || (e.target.Some? && runtime == Promotion(e))
  }

  predicate ControlPlaced(e: Evidence, runtime: Selector, c: ControlPlane) {
    match e.phase
    case Quiescing => c.selector == Before(e) || (c.selector == Blocked(e) && Quiet(c.service))
    case ControlPlaneQuiesced | QuiescedPhase => c.selector == Blocked(e) && Quiet(c.service)
    case Selecting | ControlPlaneSelected | SelectedPhase | StartingValidation =>
      && Quiet(c.service)
      && e.target.Some?
      && (c.selector == Blocked(e) || c.selector == Chosen(e))
      && (runtime == Before(e) ==> c.selector == Blocked(e))
      && (runtime == Chosen(e) || runtime == Trial(e) ==> c.selector == Chosen(e))
    case ValidationPhase | Promoting => Quiet(c.service) && e.target.Some? && c.selector == Chosen(e)
    case Promoted =>
      e.target.Some? && (c.selector == Promotion(e) || (c.selector == Chosen(e) && Quiet(c.service)))
    case Aborted => c.selector == Before(e) || (c.selector == Blocked(e) && Quiet(c.service))
    case Complete => c.selector == runtime
  }

  predicate WellRecorded(w: World, e: Evidence) {
    && !e.tableBefore.Foreign?
    && e.approval != e.approvalBefore
    && e.approval.Change?
    && (e.target.Some? ==>
          && e.target.value != e.tableBefore
          && !e.target.value.Foreign?)
    && (w.control.Some? <==> e.controlPlane.Some?)
    && (w.control.Some? ==>
          && e.controlPlane.value.table == e.tableBefore
          && e.controlPlane.value.maxCapacity == w.control.value.service.maxCapacity)
    && (e.phase in {Quiescing, ControlPlaneQuiesced, QuiescedPhase} ==> e.target.None?)
  }

  /** Every world a disciplined run can reach. */
  predicate Consistent(w: World) {
    match w.evidence
       case None =>
         && w.runtime.mode.Normal?
         && !w.runtime.table.Foreign?
         && (w.control.Some? ==> w.control.value.selector == w.runtime)
       case Some(e) =>
         && WellRecorded(w, e)
         && RuntimePlaced(e, w.runtime, w.control.None?)
         && (w.control.Some? ==> ControlPlaced(e, w.runtime, w.control.value))
  }

  /** Nothing has been recorded yet and both planes are normal on one table. */
  predicate Initial(w: World) {
    w.evidence.None? && Consistent(w)
  }

  // ----- steps and runs -----

  /** Tasks and autoscaling move on their own, but a service that is scaled to zero with every
      scaling path suspended never gains a task, and only an unsuspended service changes its count. */
  predicate ServiceDrifts(s: Service, s': Service) {
    && s'.minCapacity == s.minCapacity && s'.maxCapacity == s.maxCapacity && s'.suspended == s.suspended
    && (s.suspended == ALL_SUSPENDED ==> s'.desired == s.desired)
    && (s.suspended == ALL_SUSPENDED && s.desired == 0 ==>
          s'.running <= s.running && s'.pending <= s.pending)
  }

  /** The world without its task counts, which are all that moves on its own once stacks are settled. */
  function Bare(w: World): World {
    if w.control.None? then w
    else WithService(w, w.control.value.service.(desired := 0, pending := 0, running := 0))
  }

  predicate QuietOrNormal(c: ControlPlane) {
    c.selector.mode.Normal? || Quiet(c.service)
  }

  /** The first world differs from the second at most in task counts, and a blocked control plane that is
      quiet in the second is quiet in the first. */
  predicate SameButTasks(a: World, b: World) {
    && Bare(a) == Bare(b)
    && (b.control.Some? && QuietOrNormal(b.control.value) ==> QuietOrNormal(a.control.value))
  }

  datatype Event =
    | Run(command: Command, at: nat)      // the command stops after this entry of its trace
    | Drift(service: Service)             // tasks start or stop, autoscaling acts
    | Restore(table: Table, info: TableInfo)   // a restore appears or a table's settings change

  ghost predicate Step(w: World, event: Event, w': World) {
    match event
    case Run(c, at) =>
      && Accepts(c, w) && Permitted(c, w)
      && (c.Cleanup? || (c.Quiesce? && c.newFile) || Recorded(w))
      && at < |Trace(c, w)| && w' == Trace(c, w)[at]
    case Drift(s) =>
      w.control.Some? && ServiceDrifts(w.control.value.service, s) && w' == WithService(w, s)
    case Restore(table, info) => w' == w.(tables := w.tables[table := info])
  }

  function Earlier(events: seq<Event>): seq<Event>
    requires events != []
  {
    events[..|events| - 1]
  }

  function Latest(events: seq<Event>): Event
    requires events != []
  {
    events[|events| - 1]
  }

  /** The events, in order, lead from the first world to the second. */
  ghost predicate Reaches(w: World, events: seq<Event>, w': World)
    decreases |events|
  {
    if events == [] then w' == w
    else exists m :: Reaches(w, Earlier(events), m) && Step(m, Latest(events), w')
  }

  // ----- every entry of every trace keeps the invariant -----

  lemma QuiesceStays(w: World, approval: Approval, newFile: bool, at: nat)
    requires Consistent(w) && QuiesceAccepts(w, approval, newFile) && (newFile ==> Finished(w))
    requires !newFile ==> Recorded(w)
    requires at < 9
    ensures Consistent(QuiesceTrace(w, approval, newFile)[at])
  {
    var t := QuiesceTrace(w, approval, newFile);
    assert Consistent(t[1]);
    assert Consistent(t[4]);
    assert Consistent(t[5]);
    assert Consistent(t[6]);
    assert Consistent(t[7]);
    assert Consistent(t[8]);
  }

  lemma SelectMovesControl(w: World, table: Table)
    requires Consistent(w) && SelectAccepts(w, table)
    ensures var t := SelectTrace(w, table); Consistent(t[1]) && Consistent(t[2]) && Consistent(t[3])
  {
    var t := SelectTrace(w, table);
    assert Consistent(t[1]);
    assert Consistent(t[2]);
  }

  lemma SelectMovesRuntime(w: World, table: Table)
    requires Consistent(w) && SelectAccepts(w, table) && Consistent(SelectTrace(w, table)[3])
    ensures var t := SelectTrace(w, table); Consistent(t[4]) && Consistent(t[5])
  {
    var t := SelectTrace(w, table);
    assert Consistent(t[4]);
  }

  lemma SelectStays(w: World, table: Table, at: nat)
    requires Consistent(w) && SelectAccepts(w, table) && at < 6
    ensures Consistent(SelectTrace(w, table)[at])
  {
    SelectMovesControl(w, table);
    SelectMovesRuntime(w, table);
  }

  lemma StartStays(w: World, table: Table, at: nat)
    requires Consistent(w) && StartAccepts(w, table) && at < 4
    ensures Consistent(StartTrace(w, table)[at])
  {
  }

  lemma PromoteStays(w: World, table: Table, at: nat)
    requires Consistent(w) && PromoteAccepts(w, table) && at < 4
    ensures Consistent(PromoteTrace(w, table)[at])
  {
  }

  lemma AbortBeforeSelectionStays(w: World, at: nat)
    requires Consistent(w) && AbortAccepts(w) && at < 8
    requires QuiesceRetryable(w.evidence.value.phase)
    ensures Consistent(AbortTrace(w)[at])
  {
    var t := AbortTrace(w);
    assert Consistent(t[3]);
    assert Consistent(t[6]);
  }

  lemma AbortAfterSelectionStays(w: World, at: nat)
    requires Consistent(w) && AbortAccepts(w) && at < 8
    requires !QuiesceRetryable(w.evidence.value.phase)
    ensures Consistent(AbortTrace(w)[at])
  {
    assert AbortTrace(w)[3] == w;
    AbortTakesBackStays(w);
    AbortReturnsStays(w);
  }

  lemma AbortTakesBackStays(w: World)
    requires Consistent(w) && AbortAccepts(w) && !QuiesceRetryable(w.evidence.value.phase)
    ensures Consistent(AbortTrace(w)[4])
  {
  }

  lemma AbortReturnsStays(w: World)
    requires Consistent(w) && AbortAccepts(w) && !QuiesceRetryable(w.evidence.value.phase)
    requires Consistent(AbortTrace(w)[4])
    ensures var t := AbortTrace(w); Consistent(t[5]) && Consistent(t[6]) && Consistent(t[7])
  {
    assert Consistent(AbortTrace(w)[5]);
  }

  lemma AbortStays(w: World, at: nat)
    requires Consistent(w) && AbortAccepts(w) && at < 8
    ensures Recorded(w) && Consistent(AbortTrace(w)[at])
  {
    if QuiesceRetryable(w.evidence.value.phase) {
      AbortBeforeSelectionStays(w, at);
    } else {
      AbortAfterSelectionStays(w, at);
    }
  }

  lemma ResumeStays(w: World, at: nat)
    requires Consistent(w) && ResumeAccepts(w) && at < 6
    ensures Recorded(w) && Consistent(ResumeTrace(w)[at])
  {
  }

  lemma StepKeepsConsistent(w: World, event: Event, w': World)
    requires Consistent(w) && Step(w, event, w')
    ensures Consistent(w')
  {
    match event
    case Run(Quiesce(a, n), at) => QuiesceStays(w, a, n, at);
    case Run(Select(t), at) => SelectStays(w, t, at);
    case Run(Start(t), at) => StartStays(w, t, at);
    case Run(Promote(t), at) => PromoteStays(w, t, at);
    case Run(Abort, at) => AbortStays(w, at);
    case Run(Resume, at) => ResumeStays(w, at);
    case Run(Cleanup(t), at) =>
    case Drift(_) =>
    case Restore(_, _) =>
  }

  lemma TasksKeepConsistent(a: World, b: World)
    requires SameButTasks(a, b) && Consistent(b)
    ensures Consistent(a)
  {
  }

  lemma ConsistentIsSafe(w: World)
    requires Consistent(w)
    ensures Safe(w)
  {
  }

  /** Safety over whole runs: whatever commands the operator runs, in whatever order, each cut short
      after any of its writes, a serving runtime never disagrees with an active control plane. */
  lemma {:induction false} RunsAreSafe(w: World, events: seq<Event>, w': World)
    requires Initial(w) && Reaches(w, events, w')
    ensures Consistent(w') && Safe(w')
    decreases |events|
  {
    if events != [] {
      var m :| Reaches(w, Earlier(events), m) && Step(m, Latest(events), w');
      RunsAreSafe(w, Earlier(events), m);
      StepKeepsConsistent(m, Latest(events), w');
    }
    ConsistentIsSafe(w');
  }
}
