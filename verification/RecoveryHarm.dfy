/** Runs that go wrong: from every stack on which a command begins with an update harmful to it in flight, a
    run of that command that leaves the settled stacks stranded. */
module RecoveryHarm {
  import opened Options
  import opened RecoveryModel
  import opened RecoveryTraces
  import opened RecoveryRuns
  import opened RecoveryProgress
  import opened RecoveryInFlight
  import opened RecoveryGuards
  import opened RecoveryStanding
  import opened RecoveryCourses
  import opened RecoverySessions

  /** Abort has done its work: the runtime is back, the control plane still stopped or never touched, and
      resume is refused exactly when no task was recorded. */
  predicate Recovered(w: World) {
    && w.evidence.Some?
    && var e := w.evidence.value;
       && e.phase.Aborted? && w.runtime == Before(e)
       && (w.control.Some? ==> w.control.value.selector in {Before(e), Blocked(e)} && QuietOrNormal(w.control.value))
       && (ResumeAccepts(w) <==> Resumable(w))
  }

  /** The command gets past its first checks, and select past the vetting of its table. */
  ghost predicate Starts(c: Command, l: Live) {
    (exists s :: Begins(c, l, s)) && (c.Select? ==> Usable(l.world, c.table))
  }

  // ----- building runs -----

  lemma OneMore(p: Point, points: seq<Point>, q: Point, r: Point) returns (more: seq<Point>)
    requires Runs(p, points, q) && Moves(q, r)
    ensures Runs(p, more, r)
  {
    more := points + [q];
    assert more[..|more| - 1] == points;
  }

  lemma AbortGoes(p: Point, points: seq<Point>, q: Point, r: Point, e: Evidence) returns (more: seq<Point>)
    requires Runs(p, points, q) && q.live.world.evidence == Some(e) && AbortActs(e, q, r)
    ensures Runs(p, more, r)
  {
    more := OneMore(p, points, q, r);
  }

  lemma SelectGoes(p: Point, points: seq<Point>, q: Point, r: Point, e: Evidence) returns (more: seq<Point>)
    requires Runs(p, points, q) && q.live.world.evidence == Some(e) && SelectActs(e, q, r)
    ensures Runs(p, more, r)
  {
    more := OneMore(p, points, q, r);
  }

  lemma ResumeGoes(p: Point, points: seq<Point>, q: Point, r: Point, e: Evidence) returns (more: seq<Point>)
    requires Runs(p, points, q) && q.live.world.evidence == Some(e) && ResumeActs(e, q, r)
    ensures Runs(p, more, r)
  {
    more := OneMore(p, points, q, r);
  }

  lemma TimeGoes(p: Point, points: seq<Point>, q: Point, l: Live) returns (more: seq<Point>)
    requires Runs(p, points, q) && Elapses(q.live, l)
    ensures Runs(p, more, Point(q.stage, l))
  {
    more := OneMore(p, points, q, Point(q.stage, l));
  }

  /** Where an update that moves nothing has been rolled back. */
  function RuntimeCleared(l: Live): Live { l.(runtimeUpdate := None) }

  function ControlCleared(l: Live): Live { l.(controlUpdate := None) }

  lemma ControlClears(l: Live)
    requires l.world.control.Some?
    ensures Elapses(l, ControlCleared(l))
  {
  }

  lemma RuntimeClears(l: Live)
    ensures Elapses(l, RuntimeCleared(l))
  {
  }

  function RuntimeLanded(l: Live, s: Selector): Live {
    l.(world := LandRuntime(l.world, s), runtimeUpdate := None)
  }

  function ControlLanded(l: Live, s: Selector): Live
    requires l.world.control.Some?
  {
    l.(world := LandControl(l.world, s), controlUpdate := None)
  }

  lemma RuntimeLands(l: Live, s: Selector)
    requires l.runtimeUpdate == Some(s) && RuntimeTransition(l.world.runtime.mode, s.mode)
    ensures Elapses(l, RuntimeLanded(l, s))
  {
  }

  lemma ControlLands(l: Live, s: Selector)
    requires l.world.control.Some? && l.controlUpdate == Some(s)
    requires ControlTransition(l.world.control.value.selector.mode, s.mode)
    ensures Elapses(l, ControlLanded(l, s))
  {
  }

  // ----- abort, as far as it only looks -----

  /** Abort reads the runtime and finds the control plane as it expects it. */
  lemma AbortLooks(p: Point, points: seq<Point>, l: Live, e: Evidence) returns (more: seq<Point>)
    requires Runs(p, points, Point(ReadBack, l)) && l.world.evidence == Some(e)
    requires AbortAccepts(l.world) && (l.world.control.Some? ==> Quiet(l.world.control.value.service))
    ensures Runs(p, more, Point(TakeBack(l.world.runtime.mode), l))
  {
    var mode := l.world.runtime.mode;
    more := AbortGoes(p, points, Point(ReadBack, l), Point(CheckBack(mode), l), e);
    more := AbortGoes(p, more, Point(CheckBack(mode), l), Point(TakeBack(mode), l), e);
  }

  /** It has no selected runtime to take back. */
  lemma AbortLooksAgain(p: Point, points: seq<Point>, l: Live, mode: Mode, e: Evidence) returns (more: seq<Point>)
    requires Runs(p, points, Point(TakeBack(mode), l)) && l.world.evidence == Some(e) && !mode.Selected?
    requires l.world.control.Some? ==> Quiet(l.world.control.value.service)
    ensures Runs(p, more, Point(if l.world.control.Some? && l.world.control.value.selector.mode.Selected? then Reverse
                                else Return(mode), l))
  {
    more := AbortGoes(p, points, Point(TakeBack(mode), l), Point(CheckAgain(mode), l), e);
    more := AbortGoes(p, more, Point(CheckAgain(mode), l),
                      Point(if l.world.control.Some? && l.world.control.value.selector.mode.Selected? then Reverse
                            else Return(mode), l), e);
  }

  lemma AbortEmptiesNext(n: nat, l: Live, q: Point, e: Evidence)
    requires l.world.evidence == Some(e) && Empties(n, l, EmptyAgain(n + 1), ReadBack, q)
    ensures Moves(Point(EmptyAgain(n), l), q)
  {
    assert AbortActs(e, Point(EmptyAgain(n), l), q);
  }

  lemma AbortEmptiesAgain(n: nat, l: Live, e: Evidence)
    requires l.world.evidence == Some(e) && Recorded(l.world) && WellRecorded(l.world, e) && n <= 2
    requires l.world.control.Some? && Quiet(l.world.control.value.service)
    ensures Moves(Point(EmptyAgain(n), l), Point(if n <= 1 then EmptyAgain(n + 1) else ReadBack, l))
  {
    assert ScalingSuspended(l.world) == l.world && DesiredAt(l.world, 0) == l.world;
    AbortEmptiesNext(n, l, Point(if n <= 1 then EmptyAgain(n + 1) else ReadBack, l), e);
  }

  /** It finds a service that is stopped already. */
  lemma AbortEmptiesOnce(p: Point, points: seq<Point>, l: Live, e: Evidence) returns (more: seq<Point>)
    requires Runs(p, points, Point(EmptyAgain(0), l))
    requires l.world.evidence == Some(e) && Recorded(l.world) && WellRecorded(l.world, e)
    requires l.world.control.Some? && Quiet(l.world.control.value.service)
    ensures Runs(p, more, Point(ReadBack, l))
  {
    AbortEmptiesAgain(0, l, e);
    more := OneMore(p, points, Point(EmptyAgain(0), l), Point(EmptyAgain(1), l));
    AbortEmptiesAgain(1, l, e);
    more := OneMore(p, more, Point(EmptyAgain(1), l), Point(EmptyAgain(2), l));
    AbortEmptiesAgain(2, l, e);
    more := OneMore(p, more, Point(EmptyAgain(2), l), Point(ReadBack, l));
  }

  // ----- abort over quiesce's update of the runtime -----

  predicate BlockOnItsWay(l: Live, e: Evidence) {
    && l.world.evidence == Some(e) && QuiesceRetryable(e.phase) && Recorded(l.world) && WellRecorded(l.world, e)
    && l.world.runtime == Before(e) && l.runtimeUpdate == Some(Blocked(e)) && l.controlUpdate.None?
    && (l.world.control.Some? ==>
          l.world.control.value.selector == Blocked(e) && Quiet(l.world.control.value.service))
  }

  lemma BlockedStrands(w: World, e: Evidence)
    requires w.evidence == Some(e.(phase := Aborted)) && w.runtime == Blocked(e)
    ensures Stranded(w)
  {
  }

  /** Abort reads the runtime as normal, issues nothing and writes the aborted phase.  Then the update lands:
      the runtime is blocked for good. */
  lemma AbortPassesBlocking(p: Point, points: seq<Point>, l: Live, e: Evidence) returns (more: seq<Point>, q: Point)
    requires Runs(p, points, Point(ReadBack, l)) && BlockOnItsWay(l, e)
    ensures Runs(p, more, q) && q.stage.Idle? && Settled(q.live)
    ensures !Serving(q.live.world.runtime) && Stranded(q.live.world)
    ensures q.live.world.evidence.Some? && q.live.world.evidence.value.phase.Aborted? && !Recovered(q.live.world)
  {
    more := AbortLooks(p, points, l, e);
    more := AbortLooksAgain(p, more, l, Normal, e);
    more, q := AbortWritesOver(p, more, l, e);
  }

  lemma AbortWritesOver(p: Point, points: seq<Point>, l: Live, e: Evidence) returns (more: seq<Point>, q: Point)
    requires Runs(p, points, Point(Return(Normal), l)) && BlockOnItsWay(l, e)
    ensures Runs(p, more, q) && q.stage.Idle? && Settled(q.live)
    ensures !Serving(q.live.world.runtime) && Stranded(q.live.world)
    ensures q.live.world.evidence.Some? && q.live.world.evidence.value.phase.Aborted? && !Recovered(q.live.world)
  {
    more := AbortGoes(p, points, Point(Return(Normal), l), Point(NoteAborted, l), e);
    more := AbortGoes(p, more, Point(NoteAborted, l), Point(Idle, Noted(l, Aborted)), e);
    q := Point(Idle, RuntimeLanded(Noted(l, Aborted), Blocked(e)));
    RuntimeLands(Noted(l, Aborted), Blocked(e));
    more := TimeGoes(p, more, Point(Idle, Noted(l, Aborted)), q.live);
    BlockedStrands(q.live.world, e);
  }

  // ----- abort over select's update of the control plane -----

  predicate MoveOnItsWay(l: Live, e: Evidence) {
    && l.world.evidence == Some(e) && Selects(e.phase) && WellRecorded(l.world, e) && e.target.Some?
    && l.world.control.Some? && Quiet(l.world.control.value.service)
    && l.world.runtime == Blocked(e) && l.runtimeUpdate.None?
    && l.world.control.value.selector == Blocked(e) && l.controlUpdate == Some(Chosen(e))
  }

  lemma MovedControlStrands(w: World, e: Evidence)
    requires w.evidence == Some(e.(phase := Aborted)) && w.runtime == Before(e) && e.target.Some?
    requires e.target.value != e.tableBefore && w.control.Some? && w.control.value.selector == Chosen(e)
    ensures Stranded(w) && !Recovered(w)
  {
    forall c ensures !Proceeds(c, w) {
      NothingTakesItBack(w, e.(phase := Aborted), c);
    }
  }

  /** Abort finds the control plane blocked, returns the runtime and completes.  Then the update lands: the
      control plane selects the target, and nothing takes it back. */
  lemma AbortPassesMoving(p: Point, points: seq<Point>, l: Live, e: Evidence) returns (more: seq<Point>, q: Point)
    requires Runs(p, points, Point(ReadBack, l)) && MoveOnItsWay(l, e)
    ensures Runs(p, more, q) && q.stage.Idle? && Settled(q.live) && Stranded(q.live.world)
    ensures q.live.world.evidence.Some? && q.live.world.evidence.value.phase.Aborted? && !Recovered(q.live.world)
  {
    more := AbortLooks(p, points, l, e);
    more := AbortLooksAgain(p, more, l, Quiesced, e);
    more := AbortGivesBack(p, more, l, e);
    var back := RuntimeLanded(l, Before(e));
    more := AbortGoes(p, more, Point(NoteAborted, back), Point(Idle, Noted(back, Aborted)), e);
    q := Point(Idle, ControlLanded(Noted(back, Aborted), Chosen(e)));
    more := TimeGoes(p, more, Point(Idle, Noted(back, Aborted)), q.live);
    MovedControlStrands(q.live.world, e);
  }

  lemma AbortGivesBack(p: Point, points: seq<Point>, l: Live, e: Evidence) returns (more: seq<Point>)
    requires Runs(p, points, Point(Return(Quiesced), l)) && MoveOnItsWay(l, e)
    ensures Runs(p, more, Point(NoteAborted, RuntimeLanded(l, Before(e))))
  {
    var issued := l.(runtimeUpdate := Some(Before(e)));
    more := AbortGoes(p, points, Point(Return(Quiesced), l), Point(AwaitReturned, issued), e);
    RuntimeLands(issued, Before(e));
    more := TimeGoes(p, more, Point(AwaitReturned, issued), RuntimeLanded(l, Before(e)));
    more := AbortGoes(p, more, Point(AwaitReturned, RuntimeLanded(l, Before(e))),
                      Point(NoteAborted, RuntimeLanded(l, Before(e))), e);
  }

  // ----- abort over select's update of the runtime -----

  predicate SelectionOnItsWay(l: Live, e: Evidence) {
    && l.world.evidence == Some(e) && Selects(e.phase) && WellRecorded(l.world, e) && e.target.Some?
    && l.world.control.Some? && Quiet(l.world.control.value.service)
    && l.world.runtime == Blocked(e) && l.runtimeUpdate == Some(Chosen(e))
    && l.world.control.value.selector == Chosen(e) && l.controlUpdate.None?
  }

  /** A selected runtime beside a blocked control plane. */
  lemma SelectedBesideBlockedStrands(w: World, e: Evidence)
    requires w.evidence == Some(e) && e.target.Some? && (Selects(e.phase) || e.phase.SelectedPhase?)
    requires w.control.Some? && w.runtime == Chosen(e) && w.control.value.selector == Blocked(e)
    ensures Stranded(w)
  {
    forall c ensures !Proceeds(c, w) {
      NoCommandFollows(w, e, c);
    }
  }

  /** Abort takes the control plane back, and then the runtime becomes selected. */
  lemma AbortPassesSelection(p: Point, points: seq<Point>, l: Live, e: Evidence) returns (more: seq<Point>, q: Point)
    requires Runs(p, points, Point(ReadBack, l)) && SelectionOnItsWay(l, e)
    ensures Runs(p, more, q) && Settled(q.live) && !Serving(q.live.world.runtime) && Stranded(q.live.world)
  {
    more := AbortLooks(p, points, l, e);
    more := AbortLooksAgain(p, more, l, Quiesced, e);
    var issued := l.(controlUpdate := Some(Blocked(e)));
    more := AbortGoes(p, more, Point(Reverse, l), Point(AwaitReversed, issued), e);
    more := TimeGoes(p, more, Point(AwaitReversed, issued), ControlLanded(l, Blocked(e)));
    q := Point(AwaitReversed, RuntimeLanded(ControlLanded(l, Blocked(e)), Chosen(e)));
    more := TimeGoes(p, more, Point(AwaitReversed, ControlLanded(l, Blocked(e))), q.live);
    SelectedBesideBlockedStrands(q.live.world, e);
  }

  // ----- select over abort's return of the runtime -----

  /** Abort died with its return of the runtime in flight; the control plane is blocked. */
  predicate ReturnOnItsWay(l: Live, e: Evidence) {
    && l.world.evidence == Some(e) && SelectRetryable(e.phase) && WellRecorded(l.world, e)
    && l.world.control.Some? && Quiet(l.world.control.value.service)
    && l.world.runtime == Blocked(e) && l.runtimeUpdate == Some(Before(e))
    && l.world.control.value.selector == Blocked(e) && l.controlUpdate.None?
  }

  /** The same once select has chosen its target. */
  predicate ReturnMetBySelect(l: Live, e: Evidence) {
    ReturnOnItsWay(l, e) && Selects(e.phase) && e.target.Some?
  }

  lemma SelectVets(p: Point, points: seq<Point>, l: Live, table: Table, e: Evidence)
      returns (more: seq<Point>, l': Live, e': Evidence)
    requires Runs(p, points, Point(Vet(table, Quiesced), l)) && Usable(l.world, table)
    requires ReturnOnItsWay(l, e) && (e.phase.QuiescedPhase? ==> table != e.tableBefore)
    requires !e.phase.QuiescedPhase? ==> e.target == Some(table)
    ensures Runs(p, more, Point(CheckOrder(Quiesced), l')) && ReturnMetBySelect(l', e')
  {
    if e.phase.QuiescedPhase? {
      e' := e.(phase := Selecting, target := Some(table));
      l' := l.(world := Targeted(l.world, Selecting, table));
    } else {
      e', l' := e, l;
    }
    more := SelectGoes(p, points, Point(Vet(table, Quiesced), l), Point(CheckOrder(Quiesced), l'), e);
  }

  lemma NormalBesideSelectedStrands(w: World, e: Evidence)
    requires w.evidence == Some(e) && e.target.Some? && Selects(e.phase) && e.target.value != e.tableBefore
    requires w.control.Some? && w.runtime == Before(e) && w.control.value.selector == Chosen(e)
    ensures Stranded(w)
  {
  }

  /** Select still reads the runtime as quiesced and moves the control plane.  Then the runtime lands normal. */
  lemma SelectPassesReturn(p: Point, points: seq<Point>, l: Live, table: Table, e: Evidence)
      returns (more: seq<Point>, q: Point)
    requires Runs(p, points, Point(Vet(table, Quiesced), l)) && Usable(l.world, table)
    requires ReturnOnItsWay(l, e) && (e.phase.QuiescedPhase? ==> table != e.tableBefore)
    requires !e.phase.QuiescedPhase? ==> e.target == Some(table)
    ensures Runs(p, more, q) && Settled(q.live) && Stranded(q.live.world)
  {
    var l', e';
    more, l', e' := SelectVets(p, points, l, table, e);
    more, q := SelectMovesBesideReturn(p, more, l', e');
  }

  lemma SelectMovesBesideReturn(p: Point, points: seq<Point>, l: Live, e: Evidence)
      returns (more: seq<Point>, q: Point)
    requires Runs(p, points, Point(CheckOrder(Quiesced), l)) && ReturnMetBySelect(l, e)
    ensures Runs(p, more, q) && Settled(q.live) && Stranded(q.live.world)
  {
    var issued := l.(controlUpdate := Some(Chosen(e)));
    more := SelectGoes(p, points, Point(CheckOrder(Quiesced), l), Point(MoveControl(Quiesced), l), e);
    more := SelectGoes(p, more, Point(MoveControl(Quiesced), l), Point(AwaitMoved(Quiesced), issued), e);
    more := TimeGoes(p, more, Point(AwaitMoved(Quiesced), issued), ControlLanded(l, Chosen(e)));
    q := Point(AwaitMoved(Quiesced), RuntimeLanded(ControlLanded(l, Chosen(e)), Before(e)));
    more := TimeGoes(p, more, Point(AwaitMoved(Quiesced), ControlLanded(l, Chosen(e))), q.live);
    NormalBesideSelectedStrands(q.live.world, e);
  }

  // ----- select over abort's reversal of the control plane -----

  /** Abort died with its reversal of the control plane in flight; the runtime is blocked. */
  predicate ReversalOnItsWay(l: Live, e: Evidence) {
    && l.world.evidence == Some(e) && Selects(e.phase) && WellRecorded(l.world, e) && e.target.Some?
    && l.world.control.Some? && Quiet(l.world.control.value.service)
    && l.world.runtime == Blocked(e) && l.runtimeUpdate.None?
    && l.world.control.value.selector == Chosen(e) && l.controlUpdate == Some(Blocked(e))
  }

  /** Select still reads the control plane as selected, moves the runtime, and reports success.  Then the
      reversal lands: nothing serves, and every command refuses. */
  lemma SelectPassesReversal(p: Point, points: seq<Point>, l: Live, e: Evidence) returns (more: seq<Point>, q: Point)
    requires ReversalOnItsWay(l, e) && Runs(p, points, Point(Vet(e.target.value, Quiesced), l))
    requires Usable(l.world, e.target.value)
    ensures Runs(p, more, q) && q.stage.Idle? && Settled(q.live)
    ensures q.live.world.evidence == Some(e.(phase := SelectedPhase))
    ensures !Serving(q.live.world.runtime) && Stranded(q.live.world)
  {
    more := SelectGoes(p, points, Point(Vet(e.target.value, Quiesced), l), Point(CheckOrder(Quiesced), l), e);
    more := SelectGoes(p, more, Point(CheckOrder(Quiesced), l), Point(MoveRuntime(Quiesced), l), e);
    more := SelectMovesRuntimeOnly(p, more, l, e);
    var moved := Noted(RuntimeLanded(l, Chosen(e)), SelectedPhase);
    q := Point(Idle, ControlLanded(moved, Blocked(e)));
    more := TimeGoes(p, more, Point(Idle, moved), q.live);
    SelectedBesideBlockedStrands(q.live.world, e.(phase := SelectedPhase));
  }

  lemma SelectMovesRuntimeOnly(p: Point, points: seq<Point>, l: Live, e: Evidence) returns (more: seq<Point>)
    requires ReversalOnItsWay(l, e) && Runs(p, points, Point(MoveRuntime(Quiesced), l))
    ensures Runs(p, more, Point(Idle, Noted(RuntimeLanded(l, Chosen(e)), SelectedPhase)))
  {
    var issued, landed := l.(runtimeUpdate := Some(Chosen(e))), RuntimeLanded(l, Chosen(e));
    more := SelectGoes(p, points, Point(MoveRuntime(Quiesced), l), Point(AwaitSelected, issued), e);
    more := TimeGoes(p, more, Point(AwaitSelected, issued), landed);
    more := SelectGoes(p, more, Point(AwaitSelected, landed), Point(NoteSelected(Quiesced), landed), e);
    more := SelectGoes(p, more, Point(NoteSelected(Quiesced), landed), Point(Idle, Noted(landed, SelectedPhase)), e);
  }

  // ----- resume over quiesce's update of the control plane -----

  /** Quiesce died with its update of the control plane in flight, and abort has completed. */
  predicate StopOnItsWay(l: Live, e: Evidence) {
    && l.world.evidence == Some(e) && e.phase.Aborted? && WellRecorded(l.world, e) && Recorded(l.world)
    && l.world.control.Some? && Quiet(l.world.control.value.service) && e.controlPlane.value.desired >= 1
    && l.world.runtime == Before(e) && l.runtimeUpdate.None?
    && l.world.control.value.selector == Before(e) && l.controlUpdate == Some(Blocked(e))
  }

  lemma CompleteBesideBlockedStrands(w: World, e: Evidence)
    requires w.evidence == Some(e) && e.phase.Complete? && w.runtime == Before(e)
    requires w.control.Some? && w.control.value.selector == Blocked(e)
    ensures Stranded(w)
  {
  }

  /** The stacks with this service. */
  function Served(l: Live, s: Service): Live
    requires l.world.control.Some?
  {
    l.(world := WithService(l.world, s))
  }

  /** Resume finds the control plane normal, brings the tasks back and completes.  Then the update lands: the
      recovery is over with its control plane stopped. */
  lemma ResumePassesStop(p: Point, points: seq<Point>, l: Live, e: Evidence) returns (more: seq<Point>, q: Point)
    requires StopOnItsWay(l, e) && Runs(p, points, Point(CheckControl(Before(e)), l))
    ensures Runs(p, more, q) && q.stage.Idle? && Settled(q.live)
    ensures q.live.world.evidence == Some(e.(phase := Complete)) && Stranded(q.live.world)
  {
    var check := Point(CheckStopped(Normal, Before(e)), l);
    var asked := Served(l, l.world.control.value.service.(desired := e.controlPlane.value.desired));
    more := ResumeGoes(p, points, Point(CheckControl(Before(e)), l), check, e);
    more := ResumeGoes(p, more, check, Point(AskForTasks, l), e);
    more := ResumeGoes(p, more, Point(AskForTasks, l), Point(AwaitTasks, asked), e);
    more, q := ResumeServesOn(p, more, l, e);
  }

  lemma ResumeServesOn(p: Point, points: seq<Point>, l: Live, e: Evidence) returns (more: seq<Point>, q: Point)
    requires StopOnItsWay(l, e)
    requires Runs(p, points, Point(AwaitTasks, Served(l, l.world.control.value.service.(
               desired := e.controlPlane.value.desired))))
    ensures Runs(p, more, q) && q.stage.Idle? && Settled(q.live)
    ensures q.live.world.evidence == Some(e.(phase := Complete)) && Stranded(q.live.world)
  {
    var desired := e.controlPlane.value.desired;
    var asked := Served(l, l.world.control.value.service.(desired := desired));
    var served := Served(l, l.world.control.value.service.(desired := desired, running := desired));
    more := TimeGoes(p, points, Point(AwaitTasks, asked), served);
    more := ResumeGoes(p, more, Point(AwaitTasks, served), Point(RestoreScaling, served), e);
    more, q := ResumeEnds(p, more, served, e);
  }

  lemma ResumeEnds(p: Point, points: seq<Point>, l: Live, e: Evidence) returns (more: seq<Point>, q: Point)
    requires l.world.evidence == Some(e) && e.phase.Aborted? && Recorded(l.world) && l.world.control.Some?
    requires l.world.runtime == Before(e) && l.runtimeUpdate.None?
    requires l.world.control.value.selector == Before(e) && l.controlUpdate == Some(Blocked(e))
    requires Runs(p, points, Point(RestoreScaling, l))
    ensures Runs(p, more, q) && q.stage.Idle? && Settled(q.live)
    ensures q.live.world.evidence == Some(e.(phase := Complete)) && Stranded(q.live.world)
  {
    var restored := l.(world := ScalingRestored(l.world));
    more := ResumeGoes(p, points, Point(RestoreScaling, l), Point(NoteComplete, restored), e);
    more := ResumeGoes(p, more, Point(NoteComplete, restored), Point(Idle, Noted(restored, Complete)), e);
    q := Point(Idle, ControlLanded(Noted(restored, Complete), Blocked(e)));
    more := TimeGoes(p, more, Point(Idle, Noted(restored, Complete)), q.live);
    CompleteBesideBlockedStrands(q.live.world, e.(phase := Complete));
  }
}
