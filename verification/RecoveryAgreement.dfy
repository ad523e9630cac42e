/** The actions agree with the traces: on settled stacks, with every update landing, the actions of each
    command lead through its trace to its end. */
module RecoveryAgreement {
  import opened Options
  import opened RecoveryModel
  import opened RecoveryTraces
  import opened RecoveryRuns
  import opened RecoveryProgress
  import opened RecoveryInFlight
  import opened RecoveryStanding
  import opened RecoveryCourses
  import opened RecoveryHarm

  function Still(w: World): Live { Live(w, None, None) }

  /** A command that began at the one point can be at this stage of these stacks. */
  ghost predicate Gets(p: Point, s: Stage, l: Live) {
    exists points :: Runs(p, points, Point(s, l))
  }

  lemma Getting(p: Point)
    ensures Gets(p, p.stage, p.live)
  {
    assert Runs(p, [], Point(p.stage, p.live));
  }

  lemma Moving(p: Point, from: Stage, l: Live, to: Stage, l': Live)
    requires Gets(p, from, l) && Moves(Point(from, l), Point(to, l'))
    ensures Gets(p, to, l')
  {
    var points :| Runs(p, points, Point(from, l));
    points := OneMore(p, points, Point(from, l), Point(to, l'));
  }

  lemma Waiting(p: Point, s: Stage, l: Live, l': Live)
    requires Gets(p, s, l) && Elapses(l, l')
    ensures Gets(p, s, l')
  {
    Moving(p, s, l, s, l');
  }

  /** What is left of a service that was told to stop goes away. */
  lemma Draining(p: Point, s: Stage, w: World)
    requires Gets(p, s, Still(w)) && w.control.Some? && Emptied(w.control.value.service)
    ensures Gets(p, s, Still(Stable(w)))
  {
    Waiting(p, s, Still(w), Still(Stable(w)));
  }

  lemma LandingRuntime(p: Point, s: Stage, w: World, to: Selector)
    requires Gets(p, s, Live(w, Some(to), None)) && RuntimeTransition(w.runtime.mode, to.mode)
    ensures Gets(p, s, Still(LandRuntime(w, to)))
  {
    RuntimeLands(Live(w, Some(to), None), to);
    Waiting(p, s, Live(w, Some(to), None), Still(LandRuntime(w, to)));
  }

  lemma LandingControl(p: Point, s: Stage, w: World, to: Selector)
    requires w.control.Some? && ControlTransition(w.control.value.selector.mode, to.mode)
    requires Gets(p, s, Live(w, None, Some(to)))
    ensures Gets(p, s, Still(LandControl(w, to)))
  {
    ControlLands(Live(w, None, Some(to)), to);
    Waiting(p, s, Live(w, None, Some(to)), Still(LandControl(w, to)));
  }

  // ----- quiesce -----

  lemma Quiesces(p: Point, from: Stage, l: Live, to: Stage, l': Live, e: Evidence)
    requires Gets(p, from, l) && l.world.evidence == Some(e) && QuiesceActs(e, Point(from, l), Point(to, l'))
    ensures Gets(p, to, l')
  {
    Moving(p, from, l, to, l');
  }

  lemma QuiesceEmpties(p: Point, w: World, e: Evidence)
    requires w.evidence == Some(e) && w.control.Some? && e.controlPlane.Some? && Gets(p, Empty(0), Still(w))
    ensures Gets(p, CheckEmptied, Still(Stable(DesiredAt(ScalingSuspended(w), 0))))
  {
    var w2 := ScalingSuspended(w);
    var w3 := DesiredAt(w2, 0);
    Quiesces(p, Empty(0), Still(w), Empty(1), Still(w2), e);
    Quiesces(p, Empty(1), Still(w2), Empty(2), Still(w3), e);
    Draining(p, Empty(2), w3);
    Quiesces(p, Empty(2), Still(Stable(w3)), CheckEmptied, Still(Stable(w3)), e);
  }

  function ControlStopped(w: World, e: Evidence): World
    requires w.control.Some?
  {
    if w.control.value.selector.mode.Normal? then LandControl(w, Blocked(e)) else w
  }

  lemma QuiesceBlocks(p: Point, w: World, e: Evidence)
    requires w.evidence == Some(e) && w.control.Some? && Quiet(w.control.value.service)
    requires w.control.value.selector == Before(e) || w.control.value.selector == Blocked(e)
    requires Gets(p, CheckEmptied, Still(w))
    ensures Gets(p, CheckBlocked, Still(ControlStopped(w, e)))
  {
    if w.control.value.selector.mode.Normal? {
      Quiesces(p, CheckEmptied, Still(w), BlockControl, Still(w), e);
      Quiesces(p, BlockControl, Still(w), AwaitBlocked, Live(w, None, Some(Blocked(e))), e);
      LandingControl(p, AwaitBlocked, w, Blocked(e));
      Quiesces(p, AwaitBlocked, Still(ControlStopped(w, e)), CheckBlocked, Still(ControlStopped(w, e)), e);
    } else {
      Quiesces(p, CheckEmptied, Still(w), CheckBlocked, Still(w), e);
    }
  }

  lemma QuiesceNotes(p: Point, w: World, e: Evidence)
    requires w.evidence == Some(e) && w.control.Some? && Quiet(w.control.value.service)
    requires w.control.value.selector == Blocked(e) && Gets(p, CheckBlocked, Still(w))
    ensures Gets(p, ReadRuntime, Still(InPhase(w, ControlPlaneQuiesced)))
  {
    Quiesces(p, CheckBlocked, Still(w), NoteBlocked, Still(w), e);
    Quiesces(p, NoteBlocked, Still(w), ReadRuntime, Still(InPhase(w, ControlPlaneQuiesced)), e);
  }

  function RuntimeStopped(w: World, e: Evidence): World {
    if w.runtime.mode.Normal? then LandRuntime(w, Blocked(e)) else w
  }

  lemma QuiesceEnds(p: Point, w: World, e: Evidence)
    requires w.evidence == Some(e) && (w.runtime == Before(e) || w.runtime == Blocked(e))
    requires Gets(p, ReadRuntime, Still(w))
    ensures Gets(p, Idle, Still(InPhase(RuntimeStopped(w, e), QuiescedPhase)))
  {
    var mode, w' := w.runtime.mode, RuntimeStopped(w, e);
    Quiesces(p, ReadRuntime, Still(w), BlockRuntime(mode), Still(w), e);
    if mode.Normal? {
      Quiesces(p, BlockRuntime(mode), Still(w), AwaitQuiet, Live(w, Some(Blocked(e)), None), e);
      LandingRuntime(p, AwaitQuiet, w, Blocked(e));
      Quiesces(p, AwaitQuiet, Still(w'), NoteQuiet, Still(w'), e);
    } else {
      Quiesces(p, BlockRuntime(mode), Still(w), NoteQuiet, Still(w), e);
    }
    Quiesces(p, NoteQuiet, Still(w'), Idle, Still(InPhase(w', QuiescedPhase)), e);
  }

  /** From where the record is made to the end. */
  lemma QuiesceRuns(p: Point, w: World, e: Evidence)
    requires w.evidence == Some(e) && (w.runtime == Before(e) || w.runtime == Blocked(e))
    requires w.control.Some? ==> e.controlPlane.Some? && w.control.value.selector in {Before(e), Blocked(e)}
    requires Gets(p, if w.control.Some? then Empty(0) else ReadRuntime, Still(w))
    ensures w.control.None? ==> Gets(p, Idle, Still(InPhase(RuntimeStopped(w, e), QuiescedPhase)))
    ensures w.control.Some? ==>
              var w5 := ControlStopped(Stable(DesiredAt(ScalingSuspended(w), 0)), e);
              var e6 := e.(phase := ControlPlaneQuiesced);
              Gets(p, Idle, Still(InPhase(RuntimeStopped(InPhase(w5, ControlPlaneQuiesced), e6), QuiescedPhase)))
  {
    if w.control.Some? {
      var w4 := Stable(DesiredAt(ScalingSuspended(w), 0));
      QuiesceEmpties(p, w, e);
      QuiesceBlocks(p, w4, e);
      QuiesceNotes(p, ControlStopped(w4, e), e);
      QuiesceEnds(p, InPhase(ControlStopped(w4, e), ControlPlaneQuiesced), e.(phase := ControlPlaneQuiesced));
    } else {
      QuiesceEnds(p, w, e);
    }
  }

  lemma QuiesceTraceFollows(w: World, approval: Approval, newFile: bool)
    requires Consistent(w) && Runnable(Quiesce(approval, newFile), w) && (newFile ==> Finished(w))
    ensures var t := QuiesceTrace(w, approval, newFile);
            && t[1].evidence.Some?
            && var e := t[1].evidence.value;
               && t[1].runtime in {Before(e), Blocked(e)} && t[1].runtime == w.runtime
               && (t[1].control.Some? <==> w.control.Some?)
               && (t[1].control.Some? ==>
                     && e.controlPlane.Some? && t[1].control.value.selector in {Before(e), Blocked(e)}
                     && var w5 := ControlStopped(Stable(DesiredAt(ScalingSuspended(t[1]), 0)), e);
                        t[8] == InPhase(RuntimeStopped(InPhase(w5, ControlPlaneQuiesced),
                                                       e.(phase := ControlPlaneQuiesced)), QuiescedPhase))
               && (t[1].control.None? ==> t[8] == InPhase(RuntimeStopped(t[1], e), QuiescedPhase))
  {
  }

  lemma QuiesceAgrees(w: World, approval: Approval, newFile: bool) returns (s: Stage)
    requires Consistent(w) && Runnable(Quiesce(approval, newFile), w) && (newFile ==> Finished(w))
    ensures Begins(Quiesce(approval, newFile), Still(w), s)
    ensures Gets(Point(s, Still(w)), Idle, Still(Final(Quiesce(approval, newFile), w)))
  {
    var t := QuiesceTrace(w, approval, newFile);
    var next := if w.control.Some? then Empty(0) else ReadRuntime;
    s := if newFile then Found(approval, w.runtime) else next;
    var p := Point(s, Still(w));
    Getting(p);
    if newFile {
      assert Founds(p, Point(next, Still(t[1])));
      Moving(p, s, Still(w), next, Still(t[1]));
    }
    QuiesceTraceFollows(w, approval, newFile);
    QuiesceRuns(p, t[1], t[1].evidence.value);
  }

  // ----- select -----

  lemma Selecting(p: Point, from: Stage, l: Live, to: Stage, l': Live, e: Evidence)
    requires Gets(p, from, l) && l.world.evidence == Some(e) && SelectActs(e, Point(from, l), Point(to, l'))
    ensures Gets(p, to, l')
  {
    Moving(p, from, l, to, l');
  }

  lemma SelectMovesControl(p: Point, w: World, mode: Mode, e: Evidence)
    requires w.evidence == Some(e) && w.control.Some? && e.target.Some? && w.control.value.selector.mode.Quiesced?
    requires SelectControlMatches(e, e.target.value, mode, w.control.value) && Gets(p, MoveControl(mode), Still(w))
    ensures Gets(p, MoveRuntime(mode), Still(InPhase(LandControl(w, Chosen(e)), ControlPlaneSelected)))
  {
    var w' := LandControl(w, Chosen(e));
    Selecting(p, MoveControl(mode), Still(w), AwaitMoved(mode), Live(w, None, Some(Chosen(e))), e);
    LandingControl(p, AwaitMoved(mode), w, Chosen(e));
    Selecting(p, AwaitMoved(mode), Still(w'), CheckMoved(mode), Still(w'), e);
    Selecting(p, CheckMoved(mode), Still(w'), NoteMoved(mode), Still(w'), e);
    Selecting(p, NoteMoved(mode), Still(w'), MoveRuntime(mode), Still(InPhase(w', ControlPlaneSelected)), e);
  }

  lemma SelectEnds(p: Point, w: World, e: Evidence)
    requires w.evidence == Some(e) && e.target.Some? && Gets(p, MoveRuntime(w.runtime.mode), Still(w))
    ensures Gets(p, Idle, Still(InPhase(if w.runtime.mode.Quiesced? then LandRuntime(w, Chosen(e)) else w,
                                        SelectedPhase)))
  {
    var mode := w.runtime.mode;
    var w' := if mode.Quiesced? then LandRuntime(w, Chosen(e)) else w;
    if mode.Quiesced? {
      Selecting(p, MoveRuntime(mode), Still(w), AwaitSelected, Live(w, Some(Chosen(e)), None), e);
      LandingRuntime(p, AwaitSelected, w, Chosen(e));
      Selecting(p, AwaitSelected, Still(w'), NoteSelected(mode), Still(w'), e);
    } else {
      Selecting(p, MoveRuntime(mode), Still(w), NoteSelected(mode), Still(w), e);
    }
    Selecting(p, NoteSelected(mode), Still(w'), Idle, Still(InPhase(w', SelectedPhase)), e);
  }

  lemma SelectVetsStill(p: Point, w: World, table: Table)
    requires Consistent(w) && SelectAccepts(w, table) && Gets(p, Vet(table, w.runtime.mode), Still(w))
    ensures Gets(p, if w.control.Some? then CheckOrder(w.runtime.mode) else MoveRuntime(w.runtime.mode),
                 Still(SelectTrace(w, table)[1]))
  {
    Selecting(p, Vet(table, w.runtime.mode), Still(w),
              if w.control.Some? then CheckOrder(w.runtime.mode) else MoveRuntime(w.runtime.mode),
              Still(SelectTrace(w, table)[1]), w.evidence.value);
  }

  lemma SelectAgrees(w: World, table: Table) returns (s: Stage)
    requires Consistent(w) && Runnable(Select(table), w)
    ensures Begins(Select(table), Still(w), s) && Gets(Point(s, Still(w)), Idle, Still(Final(Select(table), w)))
  {
    var t, mode := SelectTrace(w, table), w.runtime.mode;
    var e := t[1].evidence.value;
    s := Vet(table, mode);
    var p := Point(s, Still(w));
    Getting(p);
    SelectVetsStill(p, w, table);
    if w.control.Some? {
      SelectIsNeverTurnedAway(w, table);
      if w.control.value.selector.mode.Quiesced? {
        Selecting(p, CheckOrder(mode), Still(t[1]), MoveControl(mode), Still(t[1]), e);
        SelectMovesControl(p, t[1], mode, e);
      } else {
        Selecting(p, CheckOrder(mode), Still(t[1]), MoveRuntime(mode), Still(t[1]), e);
      }
    }
    SelectEnds(p, t[3], t[3].evidence.value);
  }

  // ----- start and promote -----

  lemma Starting(p: Point, from: Stage, l: Live, to: Stage, l': Live, e: Evidence)
    requires Gets(p, from, l) && l.world.evidence == Some(e) && StartActs(e, Point(from, l), Point(to, l'))
    ensures Gets(p, to, l')
  {
    Moving(p, from, l, to, l');
  }

  lemma StartValidates(p: Point, w: World, e: Evidence)
    requires w.evidence == Some(e) && e.target.Some? && w.runtime == Chosen(e) && Gets(p, NoteStarting, Still(w))
    ensures Gets(p, NoteTrial, Still(LandRuntime(InPhase(w, StartingValidation), Trial(e))))
  {
    var w', e' := InPhase(w, StartingValidation), e.(phase := StartingValidation);
    Starting(p, NoteStarting, Still(w), Validate, Still(w'), e);
    Starting(p, Validate, Still(w'), AwaitTrial, Live(w', Some(Trial(e)), None), e');
    LandingRuntime(p, AwaitTrial, w', Trial(e));
    Starting(p, AwaitTrial, Still(LandRuntime(w', Trial(e))), NoteTrial, Still(LandRuntime(w', Trial(e))), e');
  }

  lemma StartAgrees(w: World, table: Table) returns (s: Stage)
    requires Consistent(w) && Runnable(Start(table), w)
    ensures Begins(Start(table), Still(w), s) && Gets(Point(s, Still(w)), Idle, Still(Final(Start(table), w)))
  {
    var t, e := StartTrace(w, table), w.evidence.value;
    s := CheckStart(w.runtime.mode);
    var p := Point(s, Still(w));
    Getting(p);
    if w.runtime.mode.Selected? {
      Starting(p, s, Still(w), NoteStarting, Still(w), e);
      StartValidates(p, w, e);
    } else {
      Starting(p, s, Still(w), NoteTrial, Still(w), e);
    }
    Starting(p, NoteTrial, Still(t[2]), Idle, Still(t[3]), t[2].evidence.value);
  }

  lemma Promoting(p: Point, from: Stage, l: Live, to: Stage, l': Live, e: Evidence)
    requires Gets(p, from, l) && l.world.evidence == Some(e) && PromoteActs(e, Point(from, l), Point(to, l'))
    ensures Gets(p, to, l')
  {
    Moving(p, from, l, to, l');
  }

  lemma PromoteReleases(p: Point, w: World, e: Evidence)
    requires w.evidence == Some(e) && e.target.Some? && w.runtime == Trial(e) && Gets(p, NotePromoting, Still(w))
    ensures Gets(p, NotePromoted, Still(LandRuntime(InPhase(w, Phase.Promoting), Promotion(e))))
  {
    var w', e' := InPhase(w, Phase.Promoting), e.(phase := Phase.Promoting);
    Promoting(p, NotePromoting, Still(w), Release, Still(w'), e);
    Promoting(p, Release, Still(w'), AwaitRelease, Live(w', Some(Promotion(e)), None), e');
    LandingRuntime(p, AwaitRelease, w', Promotion(e));
    Promoting(p, AwaitRelease, Still(LandRuntime(w', Promotion(e))), NotePromoted,
              Still(LandRuntime(w', Promotion(e))), e');
  }

  lemma PromoteAgrees(w: World, table: Table) returns (s: Stage)
    requires Consistent(w) && Runnable(Promote(table), w)
    ensures Begins(Promote(table), Still(w), s) && Gets(Point(s, Still(w)), Idle, Still(Final(Promote(table), w)))
  {
    var t, e := PromoteTrace(w, table), w.evidence.value;
    s := CheckPromote(w.runtime.mode);
    var p := Point(s, Still(w));
    Getting(p);
    if w.runtime.mode.Validation? {
      Promoting(p, s, Still(w), NotePromoting, Still(w), e);
      PromoteReleases(p, w, e);
    } else {
      Promoting(p, s, Still(w), NotePromoted, Still(w), e);
    }
    Promoting(p, NotePromoted, Still(t[2]), Idle, Still(t[3]), t[2].evidence.value);
  }

  // ----- abort -----

  lemma Aborting(p: Point, from: Stage, l: Live, to: Stage, l': Live, e: Evidence)
    requires Gets(p, from, l) && l.world.evidence == Some(e) && AbortActs(e, Point(from, l), Point(to, l'))
    ensures Gets(p, to, l')
  {
    Moving(p, from, l, to, l');
  }

  lemma AbortEmpties(p: Point, w: World, e: Evidence)
    requires w.evidence == Some(e) && w.control.Some? && e.controlPlane.Some? && Gets(p, EmptyAgain(0), Still(w))
    ensures Gets(p, ReadBack, Still(Stable(DesiredAt(ScalingSuspended(w), 0))))
  {
    var w1 := ScalingSuspended(w);
    var w2 := DesiredAt(w1, 0);
    AbortEmptiesNext(0, Still(w), Point(EmptyAgain(1), Still(w1)), e);
    Moving(p, EmptyAgain(0), Still(w), EmptyAgain(1), Still(w1));
    AbortEmptiesNext(1, Still(w1), Point(EmptyAgain(2), Still(w2)), e);
    Moving(p, EmptyAgain(1), Still(w1), EmptyAgain(2), Still(w2));
    Draining(p, EmptyAgain(2), w2);
    AbortEmptiesNext(2, Still(Stable(w2)), Point(ReadBack, Still(Stable(w2))), e);
    Moving(p, EmptyAgain(2), Still(Stable(w2)), ReadBack, Still(Stable(w2)));
  }

  /** The runtime taken back from selected. */
  function RuntimeBack(w: World, e: Evidence): World {
    if w.runtime.mode.Selected? then LandRuntime(w, Blocked(e)) else w
  }

  lemma AbortTakesBack(p: Point, w: World, e: Evidence)
    requires w.evidence == Some(e) && AbortAccepts(w) && Gets(p, ReadBack, Still(w))
    requires w.control.Some? ==> Quiet(w.control.value.service)
    ensures Gets(p, CheckAgain(RuntimeBack(w, e).runtime.mode), Still(RuntimeBack(w, e)))
  {
    var mode, w' := w.runtime.mode, RuntimeBack(w, e);
    Aborting(p, ReadBack, Still(w), CheckBack(mode), Still(w), e);
    Aborting(p, CheckBack(mode), Still(w), TakeBack(mode), Still(w), e);
    if mode.Selected? {
      Aborting(p, TakeBack(mode), Still(w), AwaitTakenBack, Live(w, Some(Blocked(e)), None), e);
      LandingRuntime(p, AwaitTakenBack, w, Blocked(e));
      Aborting(p, AwaitTakenBack, Still(w'), CheckAgain(Quiesced), Still(w'), e);
    } else {
      Aborting(p, TakeBack(mode), Still(w), CheckAgain(mode), Still(w), e);
    }
  }

  function ControlBack(w: World, e: Evidence): World {
    if w.control.Some? && w.control.value.selector.mode.Selected? then LandControl(w, Blocked(e)) else w
  }

  lemma AbortReverses(p: Point, w: World, mode: Mode, e: Evidence)
    requires w.evidence == Some(e) && Gets(p, CheckAgain(mode), Still(w))
    requires w.control.Some? ==> Quiet(w.control.value.service)
    requires w.control.Some? && w.control.value.selector.mode.Selected? ==> mode.Quiesced?
    ensures Gets(p, Return(mode), Still(ControlBack(w, e)))
  {
    var w' := ControlBack(w, e);
    if w.control.Some? && w.control.value.selector.mode.Selected? {
      Aborting(p, CheckAgain(mode), Still(w), Reverse, Still(w), e);
      Aborting(p, Reverse, Still(w), AwaitReversed, Live(w, None, Some(Blocked(e))), e);
      LandingControl(p, AwaitReversed, w, Blocked(e));
      Aborting(p, AwaitReversed, Still(w'), Return(Quiesced), Still(w'), e);
    } else {
      Aborting(p, CheckAgain(mode), Still(w), Return(mode), Still(w), e);
    }
  }

  lemma AbortEnds(p: Point, w: World, e: Evidence)
    requires w.evidence == Some(e) && Gets(p, Return(w.runtime.mode), Still(w))
    ensures Gets(p, Idle, Still(InPhase(if w.runtime.mode.Quiesced? then LandRuntime(w, Before(e)) else w, Aborted)))
  {
    var mode := w.runtime.mode;
    var w' := if mode.Quiesced? then LandRuntime(w, Before(e)) else w;
    if mode.Quiesced? {
      Aborting(p, Return(mode), Still(w), AwaitReturned, Live(w, Some(Before(e)), None), e);
      LandingRuntime(p, AwaitReturned, w, Before(e));
      Aborting(p, AwaitReturned, Still(w'), NoteAborted, Still(w'), e);
    } else {
      Aborting(p, Return(mode), Still(w), NoteAborted, Still(w), e);
    }
    Aborting(p, NoteAborted, Still(w'), Idle, Still(InPhase(w', Aborted)), e);
  }

  /** Where abort's checks of both planes find them. */
  lemma AbortTraceFollows(w: World)
    requires Consistent(w) && Runnable(Abort, w)
    ensures var t, e := AbortTrace(w), w.evidence.value;
            && AbortAccepts(t[3]) && t[3].evidence == Some(e)
            && (t[3].control.Some? ==> Quiet(t[3].control.value.service))
            && t[4] == RuntimeBack(t[3], e) && t[5] == ControlBack(t[4], e)
            && (t[4].control.Some? && t[4].control.value.selector.mode.Selected? ==> t[4].runtime.mode.Quiesced?)
            && t[5].runtime.mode == t[4].runtime.mode
  {
  }

  lemma AbortAgrees(w: World) returns (s: Stage)
    requires Consistent(w) && Runnable(Abort, w)
    ensures Begins(Abort, Still(w), s) && Gets(Point(s, Still(w)), Idle, Still(Final(Abort, w)))
  {
    var t, e := AbortTrace(w), w.evidence.value;
    s := if w.control.Some? && e.phase in {Quiescing, ControlPlaneQuiesced} then EmptyAgain(0) else ReadBack;
    var p := Point(s, Still(w));
    Getting(p);
    if s.EmptyAgain? {
      AbortEmpties(p, w, e);
    }
    AbortTraceFollows(w);
    AbortTakesBack(p, t[3], e);
    AbortReverses(p, t[4], t[4].runtime.mode, e);
    AbortEnds(p, t[5], e);
  }

  // ----- resume -----

  lemma Resuming(p: Point, from: Stage, l: Live, to: Stage, l': Live, e: Evidence)
    requires Gets(p, from, l) && l.world.evidence == Some(e) && ResumeActs(e, Point(from, l), Point(to, l'))
    ensures Gets(p, to, l')
  {
    Moving(p, from, l, to, l');
  }

  lemma ResumeReturns(p: Point, w: World, e: Evidence)
    requires w.evidence == Some(e) && ResumeAccepts(w) && w.control.Some? && Gets(p, CheckControl(w.runtime), Still(w))
    ensures Gets(p, AskForTasks, Still(ResumeTrace(w)[1]))
  {
    var mode, runtime, w' := w.control.value.selector.mode, w.runtime, ResumeTrace(w)[1];
    Resuming(p, CheckControl(runtime), Still(w), CheckStopped(mode, runtime), Still(w), e);
    if mode.Normal? {
      Resuming(p, CheckStopped(mode, runtime), Still(w), AskForTasks, Still(w), e);
    } else {
      Resuming(p, CheckStopped(mode, runtime), Still(w), BringBack(runtime), Still(w), e);
      Resuming(p, BringBack(runtime), Still(w), AwaitBack(runtime), Live(w, None, Some(runtime)), e);
      LandingControl(p, AwaitBack(runtime), w, runtime);
      Resuming(p, AwaitBack(runtime), Still(w'), AskForTasks, Still(w'), e);
    }
  }

  /** Tasks come up as asked for. */
  lemma ResumeAsks(p: Point, w: World, e: Evidence)
    requires w.evidence == Some(e) && w.control.Some? && e.controlPlane.Some? && Gets(p, AskForTasks, Still(w))
    ensures Gets(p, RestoreScaling, Still(Stable(DesiredAt(w, e.controlPlane.value.desired))))
  {
    var w2 := DesiredAt(w, e.controlPlane.value.desired);
    Resuming(p, AskForTasks, Still(w), AwaitTasks, Still(w2), e);
    Waiting(p, AwaitTasks, Still(w2), Still(Stable(w2)));
    Resuming(p, AwaitTasks, Still(Stable(w2)), RestoreScaling, Still(Stable(w2)), e);
  }

  lemma ResumeRestores(p: Point, w: World, e: Evidence)
    requires w.evidence == Some(e) && w.control.Some? && e.controlPlane.Some? && Gets(p, RestoreScaling, Still(w))
    ensures Gets(p, Idle, Still(InPhase(ScalingRestored(w), Complete)))
  {
    var w' := ScalingRestored(w);
    Resuming(p, RestoreScaling, Still(w), NoteComplete, Still(w'), e);
    Resuming(p, NoteComplete, Still(w'), Idle, Still(InPhase(w', Complete)), e);
  }

  lemma ResumeAgrees(w: World) returns (s: Stage)
    requires Consistent(w) && Runnable(Resume, w) && w.control.Some?
    ensures Begins(Resume, Still(w), s) && Gets(Point(s, Still(w)), Idle, Still(Final(Resume, w)))
  {
    s := CheckControl(w.runtime);
    var p := Point(s, Still(w));
    Getting(p);
    var t, e := ResumeTrace(w), w.evidence.value;
    ResumeReturns(p, w, e);
    ResumeAsks(p, t[1], e);
    ResumeRestores(p, t[3], e);
  }

  /** On settled stacks every command of the recovery can begin, and its actions can lead to the end of its
      trace.  Without a control plane there is nothing to resume. */
  lemma CompletesAsTraced(c: Command, w: World) returns (s: Stage)
    requires Consistent(w) && Runnable(c, w) && Permitted(c, w) && !c.Cleanup?
    requires c.Resume? ==> w.control.Some?
    ensures Begins(c, Still(w), s) && Gets(Point(s, Still(w)), Idle, Still(Final(c, w)))
  {
    match c
    case Quiesce(approval, newFile) => s := QuiesceAgrees(w, approval, newFile);
    case Select(table) => s := SelectAgrees(w, table);
    case Start(table) => s := StartAgrees(w, table);
    case Promote(table) => s := PromoteAgrees(w, table);
    case Abort => s := AbortAgrees(w);
    case Resume => s := ResumeAgrees(w);
    case Cleanup(_) => assert false;
  }
}
