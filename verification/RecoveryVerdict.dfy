/** Exactly when a command can leave the stacks stranded: for every command, and every stack that commands can
    leave behind, it depends on which updates are in flight as it begins. */
module RecoveryVerdict {
  import opened Options
  import opened RecoveryModel
  import opened RecoveryTraces
  import opened RecoveryRuns
  import opened RecoveryProgress
  import opened RecoveryInFlight
  import opened RecoveryGuards
  import opened RecoveryStanding
  import opened RecoveryCourses
  import opened RecoverySessions
  import opened RecoveryHarm

  // ----- harmful updates strand -----

  /** A run that begins by letting time pass. */
  lemma First(p: Point, l: Live) returns (points: seq<Point>)
    requires Elapses(p.live, l)
    ensures Runs(p, points, Point(p.stage, l))
  {
    points := TimeGoes(p, [], p, l);
  }

  lemma AbortOverBlocking(l: Live) returns (points: seq<Point>, q: Point)
    requires Standing(l) && BlockingRuntime(l) && l.world.evidence.Some? && Abortable(l.world.evidence.value.phase)
    ensures Comes(Abort, l, points, q) && q.stage.Idle? && Settled(q.live)
    ensures !Serving(q.live.world.runtime) && Stranded(q.live.world)
    ensures q.live.world.evidence.Some? && q.live.world.evidence.value.phase.Aborted? && !Recovered(q.live.world)
  {
    var e := l.world.evidence.value;
    var l' := ControlCleared(l);
    if l.world.control.Some? {
      ControlClears(l);
    }
    assert BlockOnItsWay(l', e);
    if l.world.control.Some? && e.phase in {Quiescing, ControlPlaneQuiesced} {
      points := First(Point(EmptyAgain(0), l), l');
      points := AbortEmptiesOnce(Point(EmptyAgain(0), l), points, l', e);
      points, q := AbortPassesBlocking(Point(EmptyAgain(0), l), points, l', e);
      assert Begins(Abort, l, EmptyAgain(0));
    } else {
      points := First(Point(ReadBack, l), l');
      points, q := AbortPassesBlocking(Point(ReadBack, l), points, l', e);
      assert Begins(Abort, l, ReadBack);
    }
  }

  lemma AbortOverMoving(l: Live) returns (points: seq<Point>, q: Point)
    requires Standing(l) && MovingControl(l) && l.world.evidence.Some? && Abortable(l.world.evidence.value.phase)
    ensures Comes(Abort, l, points, q) && q.stage.Idle? && Settled(q.live) && Stranded(q.live.world)
    ensures q.live.world.evidence.Some? && q.live.world.evidence.value.phase.Aborted? && !Recovered(q.live.world)
  {
    RuntimeClears(l);
    points := First(Point(ReadBack, l), RuntimeCleared(l));
    points, q := AbortPassesMoving(Point(ReadBack, l), points, RuntimeCleared(l), l.world.evidence.value);
    assert Begins(Abort, l, ReadBack);
  }

  lemma AbortOverSelection(l: Live) returns (points: seq<Point>, q: Point)
    requires Standing(l) && MovingRuntime(l) && l.world.evidence.Some? && Abortable(l.world.evidence.value.phase)
    ensures Comes(Abort, l, points, q) && Settled(q.live) && Stranded(q.live.world)
  {
    ControlClears(l);
    points := First(Point(ReadBack, l), ControlCleared(l));
    points, q := AbortPassesSelection(Point(ReadBack, l), points, ControlCleared(l), l.world.evidence.value);
    assert Begins(Abort, l, ReadBack);
  }

  lemma SelectOverReturn(l: Live, table: Table) returns (points: seq<Point>, q: Point)
    requires Standing(l) && ReturningRuntime(l) && Starts(Select(table), l)
    ensures Comes(Select(table), l, points, q) && Settled(q.live) && Stranded(q.live.world)
  {
    var p := Point(Vet(table, Quiesced), l);
    ControlClears(l);
    points := First(p, ControlCleared(l));
    points, q := SelectPassesReturn(p, points, ControlCleared(l), table, l.world.evidence.value);
    assert Begins(Select(table), l, p.stage);
  }

  lemma SelectOverReversal(l: Live, table: Table) returns (points: seq<Point>, q: Point)
    requires Standing(l) && ReversingControl(l) && Starts(Select(table), l)
    ensures Comes(Select(table), l, points, q) && q.stage.Idle? && Settled(q.live)
    ensures q.live.world.evidence.Some? && q.live.world.evidence.value.phase.SelectedPhase?
    ensures !Serving(q.live.world.runtime) && Stranded(q.live.world)
  {
    var p := Point(Vet(table, Quiesced), l);
    RuntimeClears(l);
    points := First(p, RuntimeCleared(l));
    points, q := SelectPassesReversal(p, points, RuntimeCleared(l), l.world.evidence.value);
    assert Begins(Select(table), l, p.stage);
  }

  lemma ResumeOverStop(l: Live) returns (points: seq<Point>, q: Point)
    requires Standing(l) && BlockingControl(l) && Starts(Resume, l)
    ensures Comes(Resume, l, points, q) && q.stage.Idle? && Settled(q.live) && Stranded(q.live.world)
  {
    var e := l.world.evidence.value;
    var p, l' := Point(CheckControl(Before(e)), l), RuntimeCleared(l);
    RuntimeClears(l);
    points := First(p, l');
    points, q := ResumePassesStop(p, points, l', e);
    assert Begins(Resume, l, p.stage);
  }

  lemma HarmfulStrands(c: Command, l: Live) returns (points: seq<Point>, q: Point)
    requires Standing(l) && Starts(c, l) && Harmful(c, l)
    ensures Comes(c, l, points, q) && Settled(q.live) && Stranded(q.live.world)
  {
    if c.Abort? {
      if BlockingRuntime(l) {
        points, q := AbortOverBlocking(l);
      } else if MovingControl(l) {
        points, q := AbortOverMoving(l);
      } else {
        points, q := AbortOverSelection(l);
      }
    } else if c.Select? {
      if ReturningRuntime(l) {
        points, q := SelectOverReturn(l, c.table);
      } else {
        points, q := SelectOverReversal(l, c.table);
      }
    } else {
      points, q := ResumeOverStop(l);
    }
  }

  /** The verdict: whatever was left behind, a command that starts can leave the stacks stranded exactly if an
      update harmful to it is in flight as it begins. */
  lemma StrandsExactlyWhenHarmful(c: Command, l: Live)
    requires Standing(l) && Starts(c, l)
    ensures NeverStrands(c, l) <==> !Harmful(c, l)
  {
    if Harmful(c, l) {
      var points, q := HarmfulStrands(c, l);
    } else {
      HarmlessNeverStrands(c, l);
    }
  }
}
