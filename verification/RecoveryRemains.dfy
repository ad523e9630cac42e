/** What a dead command leaves, with its last update perhaps still in flight, and what the next command can
    make of it. */
module RecoveryRemains {
  import opened Options
  import opened RecoveryModel
  import opened RecoveryTraces
  import opened RecoveryRuns
  import opened RecoveryProgress
  import opened RecoveryInFlight
  import opened RecoveryGuards
  import opened RecoveryStanding
  import opened RecoveryCourses
  import opened RecoverySessions
  import opened RecoveryHarm
  import opened RecoveryVerdict
  import opened RecoveryEndings

  /** The command has died here: at an entry of its trace, or with the update to the next in flight. */
  ghost predicate DiedAt(c: Command, w: World, at: nat, l: Live)
    requires Runnable(c, w)
  {
    && at < |Trace(c, w)| && l.world == Trace(c, w)[at]
    && (Settled(l)
        || (at + 1 < |Trace(c, w)| && (l.runtimeUpdate.Some? <==> l.controlUpdate.None?)
            && (l.controlUpdate.Some? ==> l.world.control.Some?)
            && Landed(l) == Trace(c, w)[at + 1] && Landed(l) != l.world))
  }

  ghost predicate LeftBehind(l: Live) {
    exists c, w, at :: Consistent(w) && Runnable(c, w) && Permitted(c, w) && DiedAt(c, w, at, l)
  }

  // ----- what each command leaves in flight -----

  lemma QuiesceLeavesControl(w: World, approval: Approval, newFile: bool, at: nat, l: Live)
    requires Consistent(w) && Runnable(Quiesce(approval, newFile), w) && (newFile ==> Finished(w))
    requires DiedAt(Quiesce(approval, newFile), w, at, l) && l.controlUpdate.Some?
    ensures Standing(l)
  {
    QuiesceStays(w, approval, newFile, at);
    assert at == 4;
  }

  lemma QuiesceLeavesRuntime(w: World, approval: Approval, newFile: bool, at: nat, l: Live)
    requires Consistent(w) && Runnable(Quiesce(approval, newFile), w) && (newFile ==> Finished(w))
    requires DiedAt(Quiesce(approval, newFile), w, at, l) && l.runtimeUpdate.Some?
    ensures Standing(l)
  {
    QuiesceStays(w, approval, newFile, at);
    assert at == 6;
  }

  lemma SelectLeaves(w: World, table: Table, at: nat, l: Live)
    requires Consistent(w) && Runnable(Select(table), w)
    requires DiedAt(Select(table), w, at, l) && !Settled(l)
    ensures Standing(l)
  {
    SelectStays(w, table, at);
    assert at == (if l.controlUpdate.Some? then 1 else 3);
  }

  lemma StartLeaves(w: World, table: Table, at: nat, l: Live)
    requires Consistent(w) && Runnable(Start(table), w)
    requires DiedAt(Start(table), w, at, l) && !Settled(l)
    ensures Standing(l)
  {
    StartStays(w, table, at);
    assert at == 1;
  }

  lemma PromoteLeaves(w: World, table: Table, at: nat, l: Live)
    requires Consistent(w) && Runnable(Promote(table), w)
    requires DiedAt(Promote(table), w, at, l) && !Settled(l)
    ensures Standing(l)
  {
    PromoteStays(w, table, at);
    assert at == 1;
  }

  lemma AbortLeavesRuntime(w: World, at: nat, l: Live)
    requires Consistent(w) && Runnable(Abort, w)
    requires DiedAt(Abort, w, at, l) && l.runtimeUpdate.Some?
    ensures Standing(l)
  {
    AbortStays(w, at);
    assert at == 3 || at == 5;
  }

  lemma AbortLeavesControl(w: World, at: nat, l: Live)
    requires Consistent(w) && Runnable(Abort, w)
    requires DiedAt(Abort, w, at, l) && l.controlUpdate.Some?
    ensures Standing(l)
  {
    AbortStays(w, at);
    assert at == 4;
  }

  lemma ResumeLeaves(w: World, at: nat, l: Live)
    requires Consistent(w) && Runnable(Resume, w)
    requires DiedAt(Resume, w, at, l) && !Settled(l)
    ensures Standing(l)
  {
    assert at == 0;
  }

  lemma LeftInFlight(c: Command, w: World, at: nat, l: Live)
    requires Consistent(w) && Runnable(c, w) && Permitted(c, w) && DiedAt(c, w, at, l) && !Settled(l)
    ensures Standing(l)
  {
    match c
    case Quiesce(approval, newFile) =>
      if l.controlUpdate.Some? {
        QuiesceLeavesControl(w, approval, newFile, at, l);
      } else {
        QuiesceLeavesRuntime(w, approval, newFile, at, l);
      }
    case Select(table) => SelectLeaves(w, table, at, l);
    case Start(table) => StartLeaves(w, table, at, l);
    case Promote(table) => PromoteLeaves(w, table, at, l);
    case Abort =>
      if l.controlUpdate.Some? {
        AbortLeavesControl(w, at, l);
      } else {
        AbortLeavesRuntime(w, at, l);
      }
    case Resume => ResumeLeaves(w, at, l);
    case Cleanup(_) => assert false;
  }

  /** Every stack that a command leaves which began on settled stacks stands, in every phase and whatever is
      in flight: what a session may start from is not assumed. */
  lemma LeftStands(l: Live)
    requires LeftBehind(l)
    ensures Standing(l)
  {
    var c, w, at :| Consistent(w) && Runnable(c, w) && Permitted(c, w) && DiedAt(c, w, at, l);
    if Settled(l) {
      StepKeepsConsistent(w, Run(c, at), l.world);
      SettledStands(l);
    } else {
      LeftInFlight(c, w, at, l);
    }
  }

  /** Over every session on what a dead command left, in which no command begins with an update harmful to it
      in flight: once the stacks settle, some command can go on, or only the record of no task refuses it;
      and at every point the planes are safe. */
  lemma SessionsGoOn(l: Live, points: seq<Point>, q: Point)
    requires LeftBehind(l) && Session(l, points, q)
    ensures Safe(q.live.world) && (Settled(q.live) ==> !Stranded(q.live.world))
  {
    LeftStands(l);
    SessionIsSound(l, points, q);
    StandingIsSafe(q.live);
    if Settled(q.live) {
      StandingIsNotStranded(q.live);
    }
  }

  lemma StandingIsSafe(l: Live)
    requires Standing(l)
    ensures Safe(l.world)
  {
  }

  /** Abort over one dead command: the three updates of quiesce and select, and no other, strand it. */
  lemma AbortStrandsOnlyForward(l: Live)
    requires LeftBehind(l) && l.world.evidence.Some? && Abortable(l.world.evidence.value.phase)
    ensures NeverStrands(Abort, l) <==> !BlockingRuntime(l) && !MovingControl(l) && !MovingRuntime(l)
    ensures AlwaysRecovers(l) <==> !BlockingRuntime(l) && !MovingControl(l)
  {
    LeftStands(l);
    AbortBegins(l);
    StrandsExactlyWhenHarmful(Abort, l);
    AbortRecoversUnlessOvertaken(l);
  }

  lemma AbortBegins(l: Live)
    requires l.world.evidence.Some? && Abortable(l.world.evidence.value.phase)
    ensures Starts(Abort, l)
  {
    var e := l.world.evidence.value;
    assert Begins(Abort, l, if l.world.control.Some? && e.phase in {Quiescing, ControlPlaneQuiesced}
                            then EmptyAgain(0) else ReadBack);
  }

  // ----- select over a dead abort -----

  /** Abort has died with its return of the runtime in flight, both planes blocked. */
  function DeadReturn(w: World): Live
    requires Runnable(Abort, w)
  {
    Live(AbortTrace(w)[5], Some(Before(w.evidence.value)), None)
  }

  lemma DeadReturnIsLeft(w: World)
    requires Consistent(w) && Runnable(Abort, w) && SelectRetryable(w.evidence.value.phase)
    requires w.control.Some? && !w.runtime.mode.Normal?
    ensures DiedAt(Abort, w, 5, DeadReturn(w)) && LeftBehind(DeadReturn(w)) && Standing(DeadReturn(w))
    ensures DeadReturn(w).world.runtime == Blocked(w.evidence.value)
    ensures DeadReturn(w).world.control.Some?
            && DeadReturn(w).world.control.value.selector == Blocked(w.evidence.value)
  {
    assert DiedAt(Abort, w, 5, DeadReturn(w));
    AbortLeavesRuntime(w, 5, DeadReturn(w));
  }

  /** From every world where select can run beside a control plane: abort may die with its return of the
      runtime in flight.  Running abort again is harmless, but select is accepted, and the guard lets its
      update of the control plane through; what is left to it then can strand both planes. */
  lemma SelectOverDeadReturn(w: World, table: Table)
    requires Consistent(w) && SelectAccepts(w, table) && w.control.Some?
    ensures Runnable(Abort, w)
    ensures var l := DeadReturn(w);
            && LeftBehind(l) && NeverStrands(Abort, l) && AlwaysRecovers(l)
            && Proceeds(Select(table), l.world) && !NeverStrands(Select(table), l)
            && ControlGuardAdmits(l.world.control.value.selector, Selector(Selected, table, w.evidence.value.approval),
                                  l.world.control.value.service, l.world.runtime)
  {
    SelectIsNeverTurnedAway(w, table);
    AbortRefusedOnlyByValidation(w);
    var l := DeadReturn(w);
    DeadReturnIsLeft(w);
    AbortStrandsOnlyForward(l);
    assert Begins(Select(table), l, Vet(table, Quiesced));
    StrandsExactlyWhenHarmful(Select(table), l);
  }

  /** Abort has died with its reversal of the control plane in flight, the runtime blocked. */
  function DeadReversal(w: World): Live
    requires Runnable(Abort, w)
  {
    Live(AbortTrace(w)[4], None, Some(Blocked(w.evidence.value)))
  }

  lemma DeadReversalIsLeft(w: World)
    requires Consistent(w) && Runnable(Abort, w) && SelectRetryable(w.evidence.value.phase)
    requires w.control.Some? && w.control.value.selector.mode.Selected?
    ensures DiedAt(Abort, w, 4, DeadReversal(w)) && LeftBehind(DeadReversal(w)) && Standing(DeadReversal(w))
    ensures DeadReversal(w).world.runtime == Blocked(w.evidence.value)
    ensures DeadReversal(w).world.control == w.control && DeadReversal(w).world.evidence == w.evidence
  {
    assert DiedAt(Abort, w, 4, DeadReversal(w));
    AbortLeavesControl(w, 4, DeadReversal(w));
  }

  /** Where select has moved the control plane and not yet the runtime. */
  lemma MovedControl(w: World, table: Table)
    requires Consistent(w) && SelectAccepts(w, table) && w.control.Some?
    ensures var m := SelectTrace(w, table)[3];
            && Consistent(m) && Runnable(Abort, m) && m.evidence.Some? && m.control.Some? && Usable(m, table)
            && Selects(m.evidence.value.phase) && m.evidence.value.target == Some(table)
            && m.evidence.value.approval == w.evidence.value.approval
            && m.control.value.selector == Chosen(m.evidence.value)
  {
    SelectIsNeverTurnedAway(w, table);
    SelectStays(w, table, 3);
    AbortRefusedOnlyByValidation(SelectTrace(w, table)[3]);
  }

  lemma SelectionIsAdmitted(w: World, e: Evidence)
    requires WellRecorded(w, e) && e.target.Some? && w.control.Some? && Quiet(w.control.value.service)
    requires w.runtime == Blocked(e) && w.control.value.selector == Chosen(e)
    ensures RuntimeGuardAdmits(w.runtime, Chosen(e), w.control)
  {
  }

  lemma DeadReversalAdmitsSelect(m: World, table: Table)
    requires Consistent(m) && Runnable(Abort, m) && m.control.Some? && Usable(m, table)
    requires Selects(m.evidence.value.phase) && m.evidence.value.target == Some(table)
    requires m.control.value.selector == Chosen(m.evidence.value)
    ensures var l := DeadReversal(m);
            && Standing(l) && LeftBehind(l) && Starts(Select(table), l) && ReversingControl(l)
            && Proceeds(Select(table), l.world)
            && RuntimeGuardAdmits(l.world.runtime, Chosen(m.evidence.value), l.world.control)
  {
    var l := DeadReversal(m);
    DeadReversalIsLeft(m);
    SelectionIsAdmitted(l.world, m.evidence.value);
    assert Begins(Select(table), l, Vet(table, Quiesced));
  }

  /** From every world where select can run beside a control plane: once it has moved the control plane,
      abort may die with the reversal in flight.  Running abort again is harmless.  But select is accepted,
      the guard lets its update of the runtime through, and it may report success: when the reversal lands
      then, nothing serves and every command refuses. */
  lemma SelectOverDeadReversal(w: World, table: Table) returns (points: seq<Point>, q: Point)
    requires Consistent(w) && SelectAccepts(w, table) && w.control.Some?
    ensures Runnable(Abort, SelectTrace(w, table)[3])
    ensures var l := DeadReversal(SelectTrace(w, table)[3]);
            && LeftBehind(l) && NeverStrands(Abort, l) && AlwaysRecovers(l) && Proceeds(Select(table), l.world)
            && RuntimeGuardAdmits(l.world.runtime, Selector(Selected, table, w.evidence.value.approval), l.world.control)
            && Comes(Select(table), l, points, q)
    ensures q.stage.Idle? && Settled(q.live) && !Serving(q.live.world.runtime) && Stranded(q.live.world)
    ensures q.live.world.evidence.Some? && q.live.world.evidence.value.phase.SelectedPhase?
  {
    var m := SelectTrace(w, table)[3];
    MovedControl(w, table);
    DeadReversalAdmitsSelect(m, table);
    AbortStrandsOnlyForward(DeadReversal(m));
    points, q := SelectOverReversal(DeadReversal(m), table);
  }

  // ----- resume over a dead quiesce -----

  /** Quiesce has died with its update of the control plane in flight. */
  function DeadStop(w: World, approval: Approval): Live
    requires Runnable(Quiesce(approval, true), w)
  {
    var m := QuiesceTrace(w, approval, true)[4];
    Live(m, None, Some(Blocked(m.evidence.value)))
  }

  lemma DeadStopIsLeft(w: World, approval: Approval)
    requires Consistent(w) && Finished(w) && QuiesceAccepts(w, approval, true) && w.control.Some?
    ensures DiedAt(Quiesce(approval, true), w, 4, DeadStop(w, approval)) && LeftBehind(DeadStop(w, approval))
    ensures Standing(DeadStop(w, approval)) && !Harmful(Abort, DeadStop(w, approval))
  {
    var c := Quiesce(approval, true);
    assert DiedAt(c, w, 4, DeadStop(w, approval)) && Permitted(c, w);
    QuiesceLeavesControl(w, approval, true, 4, DeadStop(w, approval));
  }

  /** Quiesce's update of the control plane is in flight, with both planes still normal and nothing running. */
  predicate StopInFlight(l: Live, e: Evidence) {
    && l.world.evidence == Some(e) && e.phase.Quiescing? && WellRecorded(l.world, e) && Recorded(l.world)
    && l.world.runtime == Before(e) && l.world.control.Some?
    && l.world.control.value.selector == Before(e) && Quiet(l.world.control.value.service)
  }

  lemma AbortPassesTheStop(l: Live, e: Evidence) returns (points: seq<Point>)
    requires StopInFlight(l, e)
    ensures Comes(Abort, l, points, Point(Idle, Noted(l, Aborted)))
  {
    var start := Point(EmptyAgain(0), l);
    points := AbortEmptiesOnce(start, [], l, e);
    points := AbortLooks(start, points, l, e);
    points := AbortLooksAgain(start, points, l, Normal, e);
    points := AbortGoes(start, points, Point(Return(Normal), l), Point(NoteAborted, l), e);
    points := AbortGoes(start, points, Point(NoteAborted, l), Point(Idle, Noted(l, Aborted)), e);
    assert Begins(Abort, l, EmptyAgain(0));
  }

  /** Abort reads two normal planes, issues nothing and completes, and the update is still in flight. */
  lemma AbortLeavesTheStop(w: World, approval: Approval) returns (points: seq<Point>)
    requires Consistent(w) && Finished(w) && QuiesceAccepts(w, approval, true) && w.control.Some?
    ensures var l := DeadStop(w, approval); Comes(Abort, l, points, Point(Idle, Noted(l, Aborted)))
  {
    var l := DeadStop(w, approval);
    DeadStopIsLeft(w, approval);
    points := AbortPassesTheStop(l, l.world.evidence.value);
  }

  /** From every world where a serving service can be quiesced: quiesce may die with its update of the control
      plane in flight, and an abort, harmless in itself, may complete before it lands.  Resume is accepted
      then, and can end stranded. */
  lemma ResumeOverDeadStop(w: World, approval: Approval) returns (points: seq<Point>)
    requires Consistent(w) && Finished(w) && QuiesceAccepts(w, approval, true) && w.control.Some?
    requires w.control.value.service.desired >= 1
    ensures var l := DeadStop(w, approval);
            && LeftBehind(l) && NeverStrands(Abort, l)
            && Comes(Abort, l, points, Point(Idle, Noted(l, Aborted)))
            && Proceeds(Resume, Noted(l, Aborted).world) && !NeverStrands(Resume, Noted(l, Aborted))
  {
    var l := DeadStop(w, approval);
    DeadStopIsLeft(w, approval);
    HarmlessNeverStrands(Abort, l);
    points := AbortLeavesTheStop(w, approval);
    var s :| Begins(Abort, l, s) && Runs(Point(s, l), points, Point(Idle, Noted(l, Aborted)));
    BeginningIsSound(Abort, l, s);
    RunIsSound(Point(s, l), points, Point(Idle, Noted(l, Aborted)));
    assert Begins(Resume, Noted(l, Aborted), CheckControl(l.world.runtime));
    StrandsExactlyWhenHarmful(Resume, Noted(l, Aborted));
  }
}
