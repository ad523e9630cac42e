/** Sessions of the recovery commands over updates in flight: as long as no command begins with an update that
    is harmful to it, the stacks stand where some command can go on. */
module RecoverySessions {
  import opened Options
  import opened RecoveryModel
  import opened RecoveryTraces
  import opened RecoveryRuns
  import opened RecoveryProgress
  import opened RecoveryInFlight
  import opened RecoveryGuards
  import opened RecoveryStanding
  import opened RecoveryCourses

  // ----- what each command knows of the stacks at each of its stages -----

  predicate ControlIs(l: Live, s: Selector) {
    l.world.control.Some? ==> l.world.control.value.selector == s && ControlStays(l)
  }

  predicate QuiesceKnows(s: Stage, l: Live, e: Evidence) {
    var runtime, two := l.world.runtime, l.world.control.Some?;
    var held := QuiesceRetryable(e.phase) && (two ==> e.phase.ControlPlaneQuiesced?);
    var turning := runtime == Before(e) || (runtime == Blocked(e) && RuntimeStays(l));
    match s
    case Empty(n) => n <= 2 && two && QuiesceRetryable(e.phase)
    case CheckEmptied | CheckBlocked => two && QuiesceRetryable(e.phase)
    case BlockControl | AwaitBlocked => two && e.phase.Quiescing?
    case NoteBlocked =>
      two && QuiesceRetryable(e.phase) && ControlIs(l, Blocked(e)) && Quiet(l.world.control.value.service)
    case ReadRuntime => held
    case BlockRuntime(mode) =>
      held && (if mode.Normal? then turning else mode.Quiesced? && (runtime == Before(e) ==> RuntimeStays(l)))
    case AwaitQuiet => held && turning
    case NoteQuiet => held && (runtime == Before(e) ==> RuntimeStays(l))
    case _ => false
  }

  /** What select knows since it read the runtime in this mode. */
  predicate SelectRead(mode: Mode, l: Live, e: Evidence) {
    var s, two := l.world.runtime, l.world.control.Some?;
    match mode
    case Quiesced =>
      && !ReversingControl(l)
      && (|| (s == Blocked(e) && !ReturningRuntime(l))
          || (e.target.Some? && s == Chosen(e) && RuntimeStays(l))
          || (!two && s == Before(e) && RuntimeStays(l)))
    case Selected =>
      && e.target.Some? && (s == Chosen(e) || (s == Blocked(e) && RuntimeStays(l))) && ControlIs(l, Chosen(e))
    case _ => false
  }

  predicate SelectKnows(s: Stage, l: Live, e: Evidence) {
    var runtime, two := l.world.runtime, l.world.control.Some?;
    var chosen := Selects(e.phase) && e.target.Some?;
    match s
    case Vet(table, mode) =>
      && SelectRetryable(e.phase) && SelectRead(mode, l, e)
      && (if e.phase.QuiescedPhase? then table != e.tableBefore && mode.Quiesced? else e.target == Some(table))
    case CheckOrder(mode) => chosen && two && SelectRead(mode, l, e)
    case MoveControl(mode) =>
      chosen && two && mode.Quiesced? && runtime == Blocked(e) && RuntimeStays(l) && !ReversingControl(l)
    case AwaitMoved(mode) =>
      chosen && two && mode.Quiesced? && runtime == Blocked(e) && RuntimeStays(l) && !ReversingControl(l)
    case CheckMoved(mode) => chosen && two && mode.Quiesced? && SelectRead(mode, l, e) && ControlIs(l, Chosen(e))
    case NoteMoved(mode) => chosen && two && mode.Quiesced? && SelectRead(mode, l, e) && ControlIs(l, Chosen(e))
    case MoveRuntime(mode) => chosen && SelectRead(mode, l, e) && ControlIs(l, Chosen(e))
    case AwaitSelected =>
      && chosen && ControlIs(l, Chosen(e))
      && (|| (runtime == Blocked(e) && (RuntimeStays(l) || l.runtimeUpdate == Some(Chosen(e))))
          || (runtime == Chosen(e) && RuntimeStays(l))
          || (!two && runtime == Before(e) && RuntimeStays(l)))
    case NoteSelected(_) =>
      && chosen && ControlIs(l, Chosen(e))
      && (runtime == Chosen(e) || (runtime == Blocked(e) && RuntimeStays(l)))
    case _ => false
  }

  predicate StartKnows(s: Stage, l: Live, e: Evidence) {
    var runtime := l.world.runtime;
    && e.target.Some? && ControlIs(l, Chosen(e))
    && var read := runtime == Chosen(e) || runtime == Trial(e) || (runtime == Blocked(e) && RuntimeStays(l));
       match s
       case CheckStart(mode) =>
         && e.phase in {SelectedPhase, StartingValidation} && read
         && (!mode.Selected? ==> runtime == Trial(e))
       case NoteStarting => e.phase in {SelectedPhase, StartingValidation} && read
       case Validate | AwaitTrial => e.phase.StartingValidation? && read
       case NoteTrial => e.phase.StartingValidation? && runtime == Trial(e)
       case _ => false
  }

  predicate PromoteKnows(s: Stage, l: Live, e: Evidence) {
    && e.target.Some?
    && match s
       case CheckPromote(mode) =>
         e.phase in {ValidationPhase, Promoting} && (!mode.Validation? ==> l.world.runtime == Promotion(e))
       case NotePromoting => e.phase in {ValidationPhase, Promoting}
       case Release | AwaitRelease => e.phase.Promoting?
       case NotePromoted => e.phase.Promoting? && l.world.runtime == Promotion(e)
       case _ => false
  }

  /** What abort knows since it read the runtime in this mode. */
  predicate BackRead(mode: Mode, l: Live, e: Evidence) {
    var s, two := l.world.runtime, l.world.control.Some?;
    && Abortable(e.phase) && !Harmful(Abort, l)
    && match mode
       case Normal => s == Before(e)
       case Quiesced =>
         && (two ==> !e.phase.Quiescing?)
         && (s == Before(e) || s == Blocked(e) || (!two && e.target.Some? && s == Chosen(e) && RuntimeStays(l)))
       case Selected =>
         && e.target.Some? && ControlIs(l, Chosen(e))
         && (s == Chosen(e) || s == Trial(e) || (s == Blocked(e) && RuntimeStays(l)))
       case Validation => false
  }

  /** The control plane is free and stays so, or is stopped. */
  predicate FreeOrStopped(l: Live, e: Evidence) {
    l.world.control.Some? ==> ControlIs(l, Before(e)) || Quiet(l.world.control.value.service)
  }

  predicate AbortKnows(s: Stage, l: Live, e: Evidence) {
    var runtime, two := l.world.runtime, l.world.control.Some?;
    var blocked := runtime == Blocked(e) && RuntimeStays(l);
    && Abortable(e.phase) && !Harmful(Abort, l)
    && match s
       case EmptyAgain(n) => n <= 2 && two && e.phase in {Quiescing, ControlPlaneQuiesced}
       case ReadBack => true
       case CheckBack(mode) => BackRead(mode, l, e)
       case TakeBack(mode) => BackRead(mode, l, e)
       case AwaitTakenBack => BackRead(Selected, l, e)
       case CheckAgain(mode) => !mode.Selected? && BackRead(mode, l, e)
       case Reverse | AwaitReversed => two && e.target.Some? && blocked
       case Return(mode) =>
         && !mode.Selected? && BackRead(mode, l, e)
         && (if mode.Quiesced? then ControlIs(l, Blocked(e)) else FreeOrStopped(l, e))
       case AwaitReturned => BackRead(Quiesced, l, e) && ControlIs(l, Blocked(e))
       case NoteAborted => runtime == Before(e) && FreeOrStopped(l, e)
       case _ => false
  }

  predicate ResumeKnows(s: Stage, l: Live, e: Evidence) {
    var runtime := l.world.runtime;
    && e.phase in {Promoted, Aborted} && l.world.control.Some? && runtime.mode.Normal? && !BlockingControl(l)
    && match s
       case CheckControl(r) => r == runtime
       case CheckStopped(mode, r) => r == runtime && (mode.Normal? ==> ControlIs(l, runtime))
       case BringBack(r) => r == runtime
       case AwaitBack(r) => r == runtime
       case AskForTasks | AwaitTasks | RestoreScaling | NoteComplete => ControlIs(l, runtime)
       case _ => false
  }

  predicate FoundKnows(s: Stage, l: Live) {
    && s.Found? && Finished(l.world) && s.runtime == l.world.runtime && RuntimeStays(l)
    && s.runtime.mode.Normal? && s.approval.Change? && s.approval != s.runtime.approval
  }

  predicate Knows(s: Stage, l: Live) {
    || s.Idle? || FoundKnows(s, l)
    || (&& l.world.evidence.Some?
        && var e := l.world.evidence.value;
           || QuiesceKnows(s, l, e) || SelectKnows(s, l, e) || StartKnows(s, l, e) || PromoteKnows(s, l, e)
           || AbortKnows(s, l, e) || ResumeKnows(s, l, e))
  }

  /** The stacks stand, and what the command knows of them is so. */
  predicate Sound(p: Point) {
    Standing(p.live) && Knows(p.stage, p.live)
  }

  // ----- time passing -----

  lemma QuiesceStillKnows(s: Stage, l: Live, l': Live, e: Evidence)
    requires Standing(l) && Elapses(l, l') && Standing(l') && l.world.evidence == Some(e) && QuiesceKnows(s, l, e)
    ensures QuiesceKnows(s, l', e)
  {
  }

  lemma SelectStillReads(mode: Mode, l: Live, l': Live, e: Evidence)
    requires Standing(l) && Elapses(l, l') && Standing(l') && l.world.evidence == Some(e) && SelectRead(mode, l, e)
    requires SelectRetryable(e.phase)
    ensures SelectRead(mode, l', e)
  {
  }

  lemma SelectStillKnows(s: Stage, l: Live, l': Live, e: Evidence)
    requires Standing(l) && Elapses(l, l') && Standing(l') && l.world.evidence == Some(e) && SelectKnows(s, l, e)
    ensures SelectKnows(s, l', e)
  {
  }

  lemma StartStillKnows(s: Stage, l: Live, l': Live, e: Evidence)
    requires Standing(l) && Elapses(l, l') && Standing(l') && l.world.evidence == Some(e) && StartKnows(s, l, e)
    ensures StartKnows(s, l', e)
  {
  }

  lemma PromoteStillKnows(s: Stage, l: Live, l': Live, e: Evidence)
    requires Standing(l) && Elapses(l, l') && Standing(l') && l.world.evidence == Some(e) && PromoteKnows(s, l, e)
    ensures PromoteKnows(s, l', e)
  {
  }

  lemma AbortStillKnows(s: Stage, l: Live, l': Live, e: Evidence)
    requires Standing(l) && Elapses(l, l') && Standing(l') && l.world.evidence == Some(e) && AbortKnows(s, l, e)
    ensures AbortKnows(s, l', e)
  {
  }

  lemma ResumeStillKnows(s: Stage, l: Live, l': Live, e: Evidence)
    requires Standing(l) && Elapses(l, l') && Standing(l') && l.world.evidence == Some(e) && ResumeKnows(s, l, e)
    ensures ResumeKnows(s, l', e)
  {
  }

  lemma FoundStillKnows(s: Stage, l: Live, l': Live)
    requires Elapses(l, l') && FoundKnows(s, l)
    ensures FoundKnows(s, l')
  {
  }

  // ----- acting -----

  lemma FoundingIsSound(p: Point, q: Point)
    requires Sound(p) && FoundKnows(p.stage, p.live) && Founds(p, q)
    ensures Standing(q.live) && q.live.world.evidence.Some? && QuiesceKnows(q.stage, q.live, q.live.world.evidence.value)
  {
  }

  predicate QuiesceStillAt(q: Point) {
    q.live.world.evidence.Some? && QuiesceKnows(q.stage, q.live, q.live.world.evidence.value)
  }

  predicate SelectStillAt(q: Point) {
    q.live.world.evidence.Some? && SelectKnows(q.stage, q.live, q.live.world.evidence.value)
  }

  predicate StartStillAt(q: Point) {
    q.live.world.evidence.Some? && StartKnows(q.stage, q.live, q.live.world.evidence.value)
  }

  predicate PromoteStillAt(q: Point) {
    q.live.world.evidence.Some? && PromoteKnows(q.stage, q.live, q.live.world.evidence.value)
  }

  predicate AbortStillAt(q: Point) {
    q.live.world.evidence.Some? && AbortKnows(q.stage, q.live, q.live.world.evidence.value)
  }

  predicate ResumeStillAt(q: Point) {
    q.live.world.evidence.Some? && ResumeKnows(q.stage, q.live, q.live.world.evidence.value)
  }

  lemma QuiesceIsSound(p: Point, q: Point, e: Evidence)
    requires Standing(p.live) && p.live.world.evidence == Some(e) && QuiesceKnows(p.stage, p.live, e)
    requires QuiesceActs(e, p, q)
    ensures Standing(q.live) && (q.stage.Idle? || QuiesceStillAt(q))
  {
  }

  lemma SelectMovesControl(p: Point, q: Point, e: Evidence)
    requires Standing(p.live) && p.live.world.evidence == Some(e) && SelectKnows(p.stage, p.live, e)
    requires SelectActs(e, p, q)
    requires p.stage.Vet? || p.stage.CheckOrder? || p.stage.MoveControl? || p.stage.AwaitMoved?
    ensures Standing(q.live) && (q.stage.Idle? || SelectStillAt(q))
  {
  }

  lemma SelectMovesRuntime(p: Point, q: Point, e: Evidence)
    requires Standing(p.live) && p.live.world.evidence == Some(e) && SelectKnows(p.stage, p.live, e)
    requires SelectActs(e, p, q)
    requires !(p.stage.Vet? || p.stage.CheckOrder? || p.stage.MoveControl? || p.stage.AwaitMoved?)
    ensures Standing(q.live) && (q.stage.Idle? || SelectStillAt(q))
  {
  }

  lemma SelectIsSound(p: Point, q: Point, e: Evidence)
    requires Standing(p.live) && p.live.world.evidence == Some(e) && SelectKnows(p.stage, p.live, e)
    requires SelectActs(e, p, q)
    ensures Standing(q.live) && (q.stage.Idle? || SelectStillAt(q))
  {
    if p.stage.Vet? || p.stage.CheckOrder? || p.stage.MoveControl? || p.stage.AwaitMoved? {
      SelectMovesControl(p, q, e);
    } else {
      SelectMovesRuntime(p, q, e);
    }
  }

  lemma StartIsSound(p: Point, q: Point, e: Evidence)
    requires Standing(p.live) && p.live.world.evidence == Some(e) && StartKnows(p.stage, p.live, e)
    requires StartActs(e, p, q)
    ensures Standing(q.live) && (q.stage.Idle? || StartStillAt(q))
  {
  }

  lemma PromoteIsSound(p: Point, q: Point, e: Evidence)
    requires Standing(p.live) && p.live.world.evidence == Some(e) && PromoteKnows(p.stage, p.live, e)
    requires PromoteActs(e, p, q)
    ensures Standing(q.live) && (q.stage.Idle? || PromoteStillAt(q))
  {
  }

  lemma AbortChecks(p: Point, q: Point, e: Evidence)
    requires Standing(p.live) && p.live.world.evidence == Some(e) && AbortKnows(p.stage, p.live, e)
    requires AbortActs(e, p, q)
    requires p.stage.EmptyAgain? || p.stage.ReadBack? || p.stage.CheckBack? || p.stage.CheckAgain?
    ensures Standing(q.live) && (q.stage.Idle? || AbortStillAt(q))
  {
  }

  lemma AbortReverses(p: Point, q: Point, e: Evidence)
    requires Standing(p.live) && p.live.world.evidence == Some(e) && AbortKnows(p.stage, p.live, e)
    requires AbortActs(e, p, q)
    requires p.stage.TakeBack? || p.stage.AwaitTakenBack? || p.stage.Reverse? || p.stage.AwaitReversed?
    ensures Standing(q.live) && (q.stage.Idle? || AbortStillAt(q))
  {
  }

  lemma AbortReturns(p: Point, q: Point, e: Evidence)
    requires Standing(p.live) && p.live.world.evidence == Some(e) && AbortKnows(p.stage, p.live, e)
    requires AbortActs(e, p, q)
    requires p.stage.Return? || p.stage.AwaitReturned? || p.stage.NoteAborted?
    ensures Standing(q.live) && (q.stage.Idle? || AbortStillAt(q))
  {
  }

  lemma AbortIsSound(p: Point, q: Point, e: Evidence)
    requires Standing(p.live) && p.live.world.evidence == Some(e) && AbortKnows(p.stage, p.live, e)
    requires AbortActs(e, p, q)
    ensures Standing(q.live) && (q.stage.Idle? || AbortStillAt(q))
  {
    if p.stage.EmptyAgain? || p.stage.ReadBack? || p.stage.CheckBack? || p.stage.CheckAgain? {
      AbortChecks(p, q, e);
    } else if p.stage.TakeBack? || p.stage.AwaitTakenBack? || p.stage.Reverse? || p.stage.AwaitReversed? {
      AbortReverses(p, q, e);
    } else {
      AbortReturns(p, q, e);
    }
  }

  /** Once the control plane is back on the runtime's selector its service may be anything. */
  lemma ServiceMayChange(l: Live, e: Evidence, s: Service)
    requires Standing(l) && l.world.evidence == Some(e) && e.phase in {Promoted, Aborted}
    requires l.world.control.Some? && l.world.runtime.mode.Normal? && ControlIs(l, l.world.runtime)
    requires s.maxCapacity == l.world.control.value.service.maxCapacity
    ensures Standing(l.(world := WithService(l.world, s)))
  {
    var l' := l.(world := WithService(l.world, s));
    assert RuntimeStands(l', e) && WellRecorded(l'.world, e);
  }

  lemma ResumeLooks(p: Point, q: Point, e: Evidence)
    requires Standing(p.live) && p.live.world.evidence == Some(e) && ResumeKnows(p.stage, p.live, e)
    requires ResumeActs(e, p, q)
    requires p.stage.CheckControl? || p.stage.CheckStopped?
    ensures Standing(q.live) && (q.stage.Idle? || ResumeStillAt(q))
  {
  }

  lemma ResumeBringsBack(p: Point, q: Point, e: Evidence)
    requires Standing(p.live) && p.live.world.evidence == Some(e) && ResumeKnows(p.stage, p.live, e)
    requires ResumeActs(e, p, q)
    requires p.stage.BringBack? || p.stage.AwaitBack?
    ensures Standing(q.live) && (q.stage.Idle? || ResumeStillAt(q))
  {
  }

  lemma ResumeAsks(p: Point, q: Point, e: Evidence)
    requires Standing(p.live) && p.live.world.evidence == Some(e) && ResumeKnows(p.stage, p.live, e)
    requires ResumeActs(e, p, q)
    requires p.stage.AskForTasks?
    ensures Standing(q.live) && (q.stage.Idle? || ResumeStillAt(q))
  {
    ServiceMayChange(p.live, e, p.live.world.control.value.service.(desired := e.controlPlane.value.desired));
  }

  lemma ResumeAwaits(p: Point, q: Point, e: Evidence)
    requires Standing(p.live) && p.live.world.evidence == Some(e) && ResumeKnows(p.stage, p.live, e)
    requires ResumeActs(e, p, q)
    requires p.stage.AwaitTasks?
    ensures Standing(q.live) && (q.stage.Idle? || ResumeStillAt(q))
  {
  }

  lemma ResumeRestores(p: Point, q: Point, e: Evidence)
    requires Standing(p.live) && p.live.world.evidence == Some(e) && ResumeKnows(p.stage, p.live, e)
    requires ResumeActs(e, p, q)
    requires p.stage.RestoreScaling?
    ensures Standing(q.live) && (q.stage.Idle? || ResumeStillAt(q))
  {
    var recorded := e.controlPlane.value;
    ServiceMayChange(p.live, e, p.live.world.control.value.service.(
      minCapacity := recorded.minCapacity, maxCapacity := recorded.maxCapacity, suspended := recorded.suspended));
  }

  lemma ResumeCompletes(p: Point, q: Point, e: Evidence)
    requires Standing(p.live) && p.live.world.evidence == Some(e) && ResumeKnows(p.stage, p.live, e)
    requires ResumeActs(e, p, q)
    requires p.stage.NoteComplete?
    ensures Standing(q.live) && (q.stage.Idle? || ResumeStillAt(q))
  {
  }

  lemma ResumeIsSound(p: Point, q: Point, e: Evidence)
    requires Standing(p.live) && p.live.world.evidence == Some(e) && ResumeKnows(p.stage, p.live, e)
    requires ResumeActs(e, p, q)
    ensures Standing(q.live) && (q.stage.Idle? || ResumeStillAt(q))
  {
    match p.stage
    case CheckControl(_) | CheckStopped(_, _) => ResumeLooks(p, q, e);
    case BringBack(_) | AwaitBack(_) => ResumeBringsBack(p, q, e);
    case AskForTasks => ResumeAsks(p, q, e);
    case AwaitTasks => ResumeAwaits(p, q, e);
    case RestoreScaling => ResumeRestores(p, q, e);
    case NoteComplete => ResumeCompletes(p, q, e);
    case _ =>
  }

  lemma ForwardIsSound(p: Point, q: Point, e: Evidence)
    requires Sound(p) && p.live.world.evidence == Some(e)
    requires QuiesceActs(e, p, q) || SelectActs(e, p, q) || StartActs(e, p, q)
    ensures Sound(q)
  {
    if QuiesceActs(e, p, q) {
      QuiesceIsSound(p, q, e);
    } else if SelectActs(e, p, q) {
      SelectIsSound(p, q, e);
    } else {
      StartIsSound(p, q, e);
    }
  }

  lemma ConcludingIsSound(p: Point, q: Point, e: Evidence)
    requires Sound(p) && p.live.world.evidence == Some(e)
    requires PromoteActs(e, p, q) || AbortActs(e, p, q) || ResumeActs(e, p, q)
    ensures Sound(q)
  {
    if PromoteActs(e, p, q) {
      PromoteIsSound(p, q, e);
    } else if AbortActs(e, p, q) {
      AbortIsSound(p, q, e);
    } else {
      ResumeIsSound(p, q, e);
    }
  }

  lemma MovingIsSound(p: Point, q: Point)
    requires Sound(p) && Moves(p, q)
    ensures Sound(q)
  {
    if q == Point(Idle, p.live) {
    } else if q.stage == p.stage && Elapses(p.live, q.live) {
      ElapsingIsSound(p, q);
    } else if Founds(p, q) {
      FoundingIsSound(p, q);
    } else {
      var e := p.live.world.evidence.value;
      if PromoteActs(e, p, q) || AbortActs(e, p, q) || ResumeActs(e, p, q) {
        ConcludingIsSound(p, q, e);
      } else {
        ForwardIsSound(p, q, e);
      }
    }
  }

  lemma ElapsingIsSound(p: Point, q: Point)
    requires Sound(p) && q.stage == p.stage && Elapses(p.live, q.live)
    ensures Sound(q)
  {
    StandingElapses(p.live, q.live);
    if FoundKnows(p.stage, p.live) {
      FoundStillKnows(p.stage, p.live, q.live);
    } else if !p.stage.Idle? {
      var e := p.live.world.evidence.value;
      if QuiesceKnows(p.stage, p.live, e) {
        QuiesceStillKnows(p.stage, p.live, q.live, e);
      } else if SelectKnows(p.stage, p.live, e) {
        SelectStillKnows(p.stage, p.live, q.live, e);
      } else if StartKnows(p.stage, p.live, e) {
        StartStillKnows(p.stage, p.live, q.live, e);
      } else if PromoteKnows(p.stage, p.live, e) {
        PromoteStillKnows(p.stage, p.live, q.live, e);
      } else if AbortKnows(p.stage, p.live, e) {
        AbortStillKnows(p.stage, p.live, q.live, e);
      } else {
        ResumeStillKnows(p.stage, p.live, q.live, e);
      }
    }
  }

  lemma BeginningIsSound(c: Command, l: Live, s: Stage)
    requires Standing(l) && Begins(c, l, s) && !Harmful(c, l)
    ensures Sound(Point(s, l))
  {
  }

  // ----- whole sessions -----

  lemma {:induction false} RunIsSound(p: Point, points: seq<Point>, q: Point)
    requires Sound(p) && Runs(p, points, q)
    ensures Sound(q)
    decreases |points|
  {
    if points != [] {
      RunIsSound(p, points[..|points| - 1], points[|points| - 1]);
      MovingIsSound(points[|points| - 1], q);
    }
  }

  /** Over every session in which no command begins with an update harmful to it in flight, whatever dead
      commands left behind, the stacks stand at every point. */
  lemma {:induction false} SessionIsSound(l: Live, points: seq<Point>, q: Point)
    requires Standing(l) && Session(l, points, q)
    ensures Sound(q)
    decreases |points|
  {
    if points != [] {
      var p := points[|points| - 1];
      SessionIsSound(l, points[..|points| - 1], p);
      if Moves(p, q) {
        MovingIsSound(p, q);
      } else {
        var c :| Begins(c, p.live, q.stage) && !Harmful(c, p.live);
        BeginningIsSound(c, p.live, q.stage);
      }
    }
  }

  /** So no settled stack of such a session is stranded: not before validation, and not after. */
  lemma SessionsNeverStrand(l: Live, points: seq<Point>, q: Point)
    requires Standing(l) && Session(l, points, q) && Settled(q.live)
    ensures !Stranded(q.live.world)
  {
    SessionIsSound(l, points, q);
    StandingIsNotStranded(q.live);
  }

  lemma HarmlessNeverStrands(c: Command, l: Live)
    requires Standing(l) && !Harmful(c, l)
    ensures NeverStrands(c, l)
  {
    forall points, q | Comes(c, l, points, q) && Settled(q.live) ensures !Stranded(q.live.world) {
      var s :| Begins(c, l, s) && Runs(Point(s, l), points, q);
      BeginningIsSound(c, l, s);
      RunIsSound(Point(s, l), points, q);
      StandingIsNotStranded(q.live);
    }
  }
}
