/** How an abort ends that completes: exactly when it has then done its work, whatever was in flight as it
    began. */
module RecoveryEndings {
  import opened Options
  import opened RecoveryModel
  import opened RecoveryTraces
  import opened RecoveryRuns
  import opened RecoveryProgress
  import opened RecoveryInFlight
  import opened RecoveryStanding
  import opened RecoveryCourses
  import opened RecoverySessions
  import opened RecoveryHarm
  import opened RecoveryVerdict

  predicate IsAborted(w: World) {
    w.evidence.Some? && w.evidence.value.phase.Aborted?
  }

  /** Every abort that completes has recovered once the stacks settle. */
  ghost predicate AlwaysRecovers(l: Live) {
    forall points, q :: Comes(Abort, l, points, q) && IsAborted(q.live.world) && Settled(q.live)
                        ==> Recovered(q.live.world)
  }

  lemma StandingHasRecovered(l: Live)
    requires Standing(l) && Settled(l) && IsAborted(l.world)
    ensures Recovered(l.world)
  {
  }

  lemma HarmlessRecovers(l: Live)
    requires Standing(l) && !Harmful(Abort, l)
    ensures AlwaysRecovers(l)
  {
    forall points, q | Comes(Abort, l, points, q) && IsAborted(q.live.world) && Settled(q.live)
      ensures Recovered(q.live.world)
    {
      var s :| Begins(Abort, l, s) && Runs(Point(s, l), points, q);
      BeginningIsSound(Abort, l, s);
      RunIsSound(Point(s, l), points, q);
      StandingHasRecovered(q.live);
    }
  }

  // ----- an abort that races select's update of the runtime -----

  /** The runtime is blocked or selected, and stays one of the two. */
  predicate RuntimeRaces(l: Live, e: Evidence)
    requires e.target.Some?
  {
    && l.world.runtime in {Blocked(e), Chosen(e)}
    && (l.runtimeUpdate.None? || l.runtimeUpdate.value in {Blocked(e), Chosen(e)})
  }

  predicate ControlSelected(l: Live, e: Evidence)
    requires e.target.Some? && l.world.control.Some?
  {
    l.world.control.value.selector == Chosen(e) && (l.controlUpdate.None? || l.controlUpdate == Some(Chosen(e)))
  }

  predicate ControlReversed(l: Live, e: Evidence)
    requires l.world.control.Some?
  {
    l.world.control.value.selector == Blocked(e) && l.controlUpdate.None?
  }

  /** What abort knows at each of its stages while that update may land. */
  predicate RacesAt(s: Stage, l: Live, e: Evidence)
    requires e.target.Some? && l.world.control.Some?
  {
    match s
    case ReadBack | AwaitTakenBack | Reverse => ControlSelected(l, e) && RuntimeRaces(l, e)
    case CheckBack(mode) => ControlSelected(l, e) && RuntimeRaces(l, e) && mode in {Quiesced, Selected}
    case TakeBack(mode) => ControlSelected(l, e) && RuntimeRaces(l, e) && mode in {Quiesced, Selected}
    case CheckAgain(mode) => ControlSelected(l, e) && RuntimeRaces(l, e) && mode.Quiesced?
    case AwaitReversed =>
      && l.world.control.value.selector in {Chosen(e), Blocked(e)}
      && (l.controlUpdate.None? || l.controlUpdate == Some(Blocked(e))) && RuntimeRaces(l, e)
    case Return(mode) => ControlReversed(l, e) && RuntimeRaces(l, e) && mode.Quiesced?
    case AwaitReturned =>
      && ControlReversed(l, e) && l.world.runtime in {Before(e), Blocked(e), Chosen(e)}
      && (l.runtimeUpdate.None? || l.runtimeUpdate == Some(Before(e)))
    case NoteAborted => ControlReversed(l, e) && l.world.runtime == Before(e) && l.runtimeUpdate.None?
    case _ => false
  }

  /** Before the aborted phase is written the command is at one of its stages, or has died; afterwards the
      runtime is back. */
  predicate Races(p: Point) {
    && p.live.world.evidence.Some?
    && var e := p.live.world.evidence.value;
       && WellRecorded(p.live.world, e) && e.target.Some?
       && p.live.world.control.Some? && Quiet(p.live.world.control.value.service)
       && if e.phase.Aborted? then p.stage.Idle? && RacesAt(NoteAborted, p.live, e)
          else Selects(e.phase) && (p.stage.Idle? || RacesAt(p.stage, p.live, e))
  }

  predicate Died(p: Point) {
    p.stage.Idle? && (p.live.world.evidence.Some? ==> !p.live.world.evidence.value.phase.Aborted?)
  }

  lemma PassingRaces(p: Point, q: Point)
    requires Races(p) && !Died(p) && q.stage == p.stage && Elapses(p.live, q.live)
    ensures Races(q)
  {
  }

  lemma ActingRaces(p: Point, q: Point)
    requires Races(p) && !p.stage.Idle? && AbortActs(p.live.world.evidence.value, p, q)
    ensures Races(q)
  {
  }

  /** A dead command stays dead, and its file as it is. */
  lemma {:induction false} RunningRaces(p: Point, points: seq<Point>, q: Point)
    requires Races(p) && Runs(p, points, q)
    ensures Died(q) || Races(q)
    decreases |points|
  {
    if points != [] {
      var m := points[|points| - 1];
      RunningRaces(p, points[..|points| - 1], m);
      if !Died(m) && q != Point(Idle, m.live) {
        if Acts(m, q) {
          ActingRaces(m, q);
        } else {
          PassingRaces(m, q);
        }
      }
    }
  }

  /** An abort that races that update may fail, but if it completes it has recovered. */
  lemma RacingRecovers(l: Live)
    requires Standing(l) && MovingRuntime(l) && l.world.evidence.Some? && Abortable(l.world.evidence.value.phase)
    ensures AlwaysRecovers(l)
  {
    forall points, q | Comes(Abort, l, points, q) && IsAborted(q.live.world) && Settled(q.live)
      ensures Recovered(q.live.world)
    {
      var s :| Begins(Abort, l, s) && Runs(Point(s, l), points, q);
      assert Races(Point(s, l));
      RunningRaces(Point(s, l), points, q);
      StandingHasRecovered(q.live);
    }
  }

  /** Whatever was left behind, every abort that completes has recovered exactly if neither quiesce's update
      of the runtime nor select's update of the control plane was in flight as it began. */
  lemma AbortRecoversUnlessOvertaken(l: Live)
    requires Standing(l) && l.world.evidence.Some? && Abortable(l.world.evidence.value.phase)
    ensures AlwaysRecovers(l) <==> !BlockingRuntime(l) && !MovingControl(l)
  {
    if BlockingRuntime(l) {
      var points, q := AbortOverBlocking(l);
    } else if MovingControl(l) {
      var points, q := AbortOverMoving(l);
    } else if MovingRuntime(l) {
      RacingRecovers(l);
    } else {
      HarmlessRecovers(l);
    }
  }
}
