/** The recovery commands one action at a time, on stacks with updates in flight.  Between two actions time
    passes, a command may die after any of them, and another may begin on what it left. */
module RecoveryCourses {
  import opened Options
  import opened RecoveryModel
  import opened RecoveryTraces
  import opened RecoveryInFlight
  import opened RecoveryStanding

  // ----- where a command can be -----

  /** What the command is about to do; what it read of the runtime it carries along. */
  datatype Stage =
    | Idle
    // quiesce
    | Found(approval: Approval, runtime: Selector)   // look at the control plane and make the record
    | Empty(writes: nat)                             // suspend scaling, zero the count, wait for no task
    | CheckEmptied
    | BlockControl | AwaitBlocked | CheckBlocked | NoteBlocked
    | ReadRuntime | BlockRuntime(mode: Mode) | AwaitQuiet | NoteQuiet
    // select
    | Vet(table: Table, mode: Mode)
    | CheckOrder(mode: Mode)
    | MoveControl(mode: Mode) | AwaitMoved(mode: Mode) | CheckMoved(mode: Mode) | NoteMoved(mode: Mode)
    | MoveRuntime(mode: Mode) | AwaitSelected | NoteSelected(mode: Mode)
    // start and promote
    | CheckStart(mode: Mode) | NoteStarting | Validate | AwaitTrial | NoteTrial
    | CheckPromote(mode: Mode) | NotePromoting | Release | AwaitRelease | NotePromoted
    // abort
    | EmptyAgain(writes: nat)
    | ReadBack | CheckBack(mode: Mode)
    | TakeBack(mode: Mode) | AwaitTakenBack
    | CheckAgain(mode: Mode)
    | Reverse | AwaitReversed
    | Return(mode: Mode) | AwaitReturned | NoteAborted
    // resume
    | CheckControl(runtime: Selector) | CheckStopped(mode: Mode, runtime: Selector)
    | BringBack(runtime: Selector) | AwaitBack(runtime: Selector)
    | AskForTasks | AwaitTasks | RestoreScaling | NoteComplete

  datatype Point = Point(stage: Stage, live: Live)

  // ----- beginning -----

  /** The command gets past its file and its first look at the runtime, and is at this stage then.  Cleanup
      touches nothing but tables, which come and go anyway. */
  predicate Begins(c: Command, l: Live, s: Stage) {
    var w := l.world;
    match c
    case Quiesce(approval, true) =>
      && Finished(w) && approval.Change? && w.runtime.mode.Normal? && approval != w.runtime.approval
      && s == Found(approval, w.runtime)
    case Quiesce(approval, false) =>
      && w.evidence.Some?
      && var e := w.evidence.value;
         && QuiesceRetryable(e.phase) && approval.Change? && e.approval == approval
         && (w.runtime == Before(e) || w.runtime == Blocked(e))
         && s == (if w.control.Some? then Empty(0) else ReadRuntime)
    case Select(table) =>
      && w.evidence.Some?
      && var e := w.evidence.value;
         && SelectRetryable(e.phase)
         && (e.phase.QuiescedPhase? ==> table != e.tableBefore)
         && (!e.phase.QuiescedPhase? ==> e.target == Some(table))
         && (w.runtime == Blocked(e) || w.runtime == Selector(Selected, table, e.approval))
         && s == Vet(table, w.runtime.mode)
    case Start(table) =>
      && w.evidence.Some?
      && var e := w.evidence.value;
         && e.phase in {SelectedPhase, StartingValidation} && e.target == Some(table)
         && (w.runtime == Chosen(e) || w.runtime == Trial(e)) && s == CheckStart(w.runtime.mode)
    case Promote(table) =>
      && w.evidence.Some?
      && var e := w.evidence.value;
         && e.phase in {ValidationPhase, Promoting} && e.target == Some(table)
         && (w.runtime == Trial(e) || w.runtime == Promotion(e)) && s == CheckPromote(w.runtime.mode)
    case Abort =>
      && w.evidence.Some?
      && var e := w.evidence.value;
         && Abortable(e.phase)
         && s == (if w.control.Some? && e.phase in {Quiescing, ControlPlaneQuiesced} then EmptyAgain(0) else ReadBack)
    case Resume =>
      && w.evidence.Some?
      && var e := w.evidence.value;
         && e.phase in {Promoted, Aborted} && w.runtime.mode.Normal?
         && e.controlPlane.Some? && e.controlPlane.value.desired >= 1 && s == CheckControl(w.runtime)
    case Cleanup(_) => false
  }

  // ----- acting -----

  function Noted(l: Live, phase: Phase): Live
    requires l.world.evidence.Some?
  {
    l.(world := InPhase(l.world, phase))
  }

  /** Success of an update: it is no longer in flight and the stack is where it was to go. */
  predicate RuntimeArrived(l: Live, s: Selector) {
    l.runtimeUpdate.None? && l.world.runtime == s
  }

  predicate ControlArrived(l: Live, s: Selector) {
    l.controlUpdate.None? && l.world.control.Some? && l.world.control.value.selector == s
  }

  /** An update is issued; a stack that is busy refuses it. */
  predicate RuntimeIssued(l: Live, s: Selector, l': Live) {
    l.runtimeUpdate.None? && l' == l.(runtimeUpdate := Some(s))
  }

  predicate ControlIssued(l: Live, s: Selector, l': Live) {
    l.controlUpdate.None? && l.world.control.Some? && l' == l.(controlUpdate := Some(s))
  }

  /** One of the three writes that stop the service, or the wait for no task. */
  predicate Empties(n: nat, l: Live, again: Stage, next: Stage, q: Point) {
    var w := l.world;
    && w.control.Some? && Recorded(w)
    && (if n == 0 then q == Point(again, l.(world := ScalingSuspended(w)))
        else if n == 1 then q == Point(again, l.(world := DesiredAt(w, 0)))
        else
          && w.control.value.service.desired == 0 && w.control.value.service.pending == 0
          && w.control.value.service.running == 0 && q == Point(next, l))
  }

  predicate QuiesceActs(e: Evidence, p: Point, q: Point)
    requires p.live.world.evidence == Some(e)
  {
    var l, w := p.live, p.live.world;
    match p.stage
    case Empty(n) => Empties(n, l, Empty(n + 1), CheckEmptied, q)
    case CheckEmptied =>
      && w.control.Some? && Quiet(w.control.value.service)
      && (w.control.value.selector == Before(e) || w.control.value.selector == Blocked(e))
      && q == Point(if w.control.value.selector.mode.Normal? then BlockControl else CheckBlocked, l)
    case BlockControl => ControlIssued(l, Blocked(e), q.live) && q.stage.AwaitBlocked?
    case AwaitBlocked => ControlArrived(l, Blocked(e)) && q == Point(CheckBlocked, l)
    case CheckBlocked =>
      && w.control.Some? && Quiet(w.control.value.service) && w.control.value.selector == Blocked(e)
      && q == Point(NoteBlocked, l)
    case NoteBlocked => q == Point(ReadRuntime, Noted(l, ControlPlaneQuiesced))
    case ReadRuntime =>
      (w.runtime == Before(e) || w.runtime == Blocked(e)) && q == Point(BlockRuntime(w.runtime.mode), l)
    case BlockRuntime(mode) =>
      if mode.Normal? then RuntimeIssued(l, Blocked(e), q.live) && q.stage.AwaitQuiet?
      else q == Point(NoteQuiet, l)
    case AwaitQuiet => RuntimeArrived(l, Blocked(e)) && q == Point(NoteQuiet, l)
    case NoteQuiet => q == Point(Idle, Noted(l, QuiescedPhase))
    case _ => false
  }

  predicate SelectActs(e: Evidence, p: Point, q: Point)
    requires p.live.world.evidence == Some(e)
  {
    var l, w := p.live, p.live.world;
    match p.stage
    case Vet(table, mode) =>
      && Usable(w, table)
      && q == Point(if w.control.Some? then CheckOrder(mode) else MoveRuntime(mode),
                    if e.phase.QuiescedPhase? then l.(world := Targeted(w, Selecting, table)) else l)
    case CheckOrder(mode) =>
      && w.control.Some? && e.target.Some? && SelectControlMatches(e, e.target.value, mode, w.control.value)
      && q == Point(if w.control.value.selector.mode.Quiesced? then MoveControl(mode) else MoveRuntime(mode), l)
    case MoveControl(mode) =>
      e.target.Some? && ControlIssued(l, Chosen(e), q.live) && q.stage == AwaitMoved(mode)
    case AwaitMoved(mode) => e.target.Some? && ControlArrived(l, Chosen(e)) && q == Point(CheckMoved(mode), l)
    case CheckMoved(mode) =>
      && w.control.Some? && e.target.Some?
      && Quiet(w.control.value.service) && w.control.value.selector == Chosen(e) && q == Point(NoteMoved(mode), l)
    case NoteMoved(mode) => q == Point(MoveRuntime(mode), Noted(l, ControlPlaneSelected))
    case MoveRuntime(mode) =>
      if mode.Quiesced? then e.target.Some? && RuntimeIssued(l, Chosen(e), q.live) && q.stage.AwaitSelected?
      else q == Point(NoteSelected(mode), l)
    case AwaitSelected => e.target.Some? && RuntimeArrived(l, Chosen(e)) && q == Point(NoteSelected(Quiesced), l)
    case NoteSelected(_) => q == Point(Idle, Noted(l, SelectedPhase))
    case _ => false
  }

  predicate StartActs(e: Evidence, p: Point, q: Point)
    requires p.live.world.evidence == Some(e)
  {
    var l, w := p.live, p.live.world;
    match p.stage
    case CheckStart(mode) =>
      && (w.control.Some? ==>
            e.target.Some? && Quiet(w.control.value.service) && w.control.value.selector == Chosen(e))
      && q == Point(if mode.Selected? then NoteStarting else NoteTrial, l)
    case NoteStarting => q == Point(Validate, Noted(l, StartingValidation))
    case Validate => e.target.Some? && RuntimeIssued(l, Trial(e), q.live) && q.stage.AwaitTrial?
    case AwaitTrial => e.target.Some? && RuntimeArrived(l, Trial(e)) && q == Point(NoteTrial, l)
    case NoteTrial => q == Point(Idle, Noted(l, ValidationPhase))
    case _ => false
  }

  predicate PromoteActs(e: Evidence, p: Point, q: Point)
    requires p.live.world.evidence == Some(e)
  {
    var l, w := p.live, p.live.world;
    match p.stage
    case CheckPromote(mode) =>
      && (w.control.Some? ==>
            e.target.Some? && Quiet(w.control.value.service) && w.control.value.selector == Chosen(e))
      && q == Point(if mode.Validation? then NotePromoting else NotePromoted, l)
    case NotePromoting => q == Point(Release, Noted(l, Promoting))
    case Release => e.target.Some? && RuntimeIssued(l, Promotion(e), q.live) && q.stage.AwaitRelease?
    case AwaitRelease => e.target.Some? && RuntimeArrived(l, Promotion(e)) && q == Point(NotePromoted, l)
    case NotePromoted => q == Point(Idle, Noted(l, Promoted))
    case _ => false
  }

  predicate AbortActs(e: Evidence, p: Point, q: Point)
    requires p.live.world.evidence == Some(e)
  {
    var l, w := p.live, p.live.world;
    match p.stage
    case EmptyAgain(n) => Empties(n, l, EmptyAgain(n + 1), ReadBack, q)
    case ReadBack => PreValidation(e, w.runtime) && q == Point(CheckBack(w.runtime.mode), l)
    case CheckBack(mode) =>
      && (w.control.Some? ==>
            && Quiet(w.control.value.service) && PreValidation(e, w.control.value.selector)
            && SafeOrdering(mode, w.control.value.selector.mode))
      && q == Point(TakeBack(mode), l)
    case TakeBack(mode) =>
      if mode.Selected? then RuntimeIssued(l, Blocked(e), q.live) && q.stage.AwaitTakenBack?
      else q == Point(CheckAgain(mode), l)
    case AwaitTakenBack => RuntimeArrived(l, Blocked(e)) && q == Point(CheckAgain(Quiesced), l)
    case CheckAgain(mode) =>
      && (w.control.Some? ==> Quiet(w.control.value.service))
      && q == Point(if w.control.Some? && w.control.value.selector.mode.Selected? then Reverse else Return(mode), l)
    case Reverse => ControlIssued(l, Blocked(e), q.live) && q.stage.AwaitReversed?
    case AwaitReversed => ControlArrived(l, Blocked(e)) && q == Point(Return(Quiesced), l)
    case Return(mode) =>
      if mode.Quiesced? then RuntimeIssued(l, Before(e), q.live) && q.stage.AwaitReturned?
      else q == Point(NoteAborted, l)
    case AwaitReturned => RuntimeArrived(l, Before(e)) && q == Point(NoteAborted, l)
    case NoteAborted => q == Point(Idle, Noted(l, Aborted))
    case _ => false
  }

  predicate ResumeActs(e: Evidence, p: Point, q: Point)
    requires p.live.world.evidence == Some(e)
  {
    var l, w := p.live, p.live.world;
    w.control.Some? && Recorded(w) &&
    var c := w.control.value;
    match p.stage
    case CheckControl(runtime) =>
      && c.selector.table == runtime.table && !c.selector.mode.Validation?
      && (!c.selector.mode.Quiesced? ==> c.selector.approval == runtime.approval)
      && q == Point(CheckStopped(c.selector.mode, runtime), l)
    case CheckStopped(mode, runtime) =>
      && (!mode.Normal? ==> Quiet(c.service))
      && q == Point(if mode.Normal? then AskForTasks else BringBack(runtime), l)
    case BringBack(runtime) => ControlIssued(l, runtime, q.live) && q.stage == AwaitBack(runtime)
    case AwaitBack(runtime) => ControlArrived(l, runtime) && q == Point(AskForTasks, l)
    case AskForTasks => q == Point(AwaitTasks, l.(world := DesiredAt(w, e.controlPlane.value.desired)))
    case AwaitTasks =>
      && c.service.desired == e.controlPlane.value.desired && c.service.pending == 0
      && c.service.running == c.service.desired && q == Point(RestoreScaling, l)
    case RestoreScaling => q == Point(NoteComplete, l.(world := ScalingRestored(w)))
    case NoteComplete => q == Point(Idle, Noted(l, Complete))
    case _ => false
  }

  /** The record a new quiesce makes is the only action that needs no evidence. */
  predicate Founds(p: Point, q: Point) {
    && p.stage.Found?
    && (p.live.world.control.Some? ==> p.live.world.control.value.selector == p.stage.runtime)
    && q == Point(if p.live.world.control.Some? then Empty(0) else ReadRuntime,
                  p.live.(world := Recording(p.live.world, p.stage.runtime, p.stage.approval)))
  }

  /** What it records of the runtime is what it read before. */
  function Recording(w: World, runtime: Selector, approval: Approval): World {
    w.(evidence := Some(Evidence(Quiescing, runtime.table, runtime.approval, approval, None,
                                 if w.control.Some? then Some(SnapshotOf(w.control.value)) else None)))
  }

  predicate Acts(p: Point, q: Point) {
    if p.stage.Found? then Founds(p, q)
    else
      && p.live.world.evidence.Some?
      && var e := p.live.world.evidence.value;
         match p.stage
         case Empty(_) | CheckEmptied | BlockControl | AwaitBlocked | CheckBlocked | NoteBlocked
            | ReadRuntime | BlockRuntime(_) | AwaitQuiet | NoteQuiet => QuiesceActs(e, p, q)
         case Vet(_, _) | CheckOrder(_) | MoveControl(_) | AwaitMoved(_) | CheckMoved(_) | NoteMoved(_)
            | MoveRuntime(_) | AwaitSelected | NoteSelected(_) => SelectActs(e, p, q)
         case CheckStart(_) | NoteStarting | Validate | AwaitTrial | NoteTrial => StartActs(e, p, q)
         case CheckPromote(_) | NotePromoting | Release | AwaitRelease | NotePromoted => PromoteActs(e, p, q)
         case EmptyAgain(_) | ReadBack | CheckBack(_) | TakeBack(_) | AwaitTakenBack | CheckAgain(_)
            | Reverse | AwaitReversed | Return(_) | AwaitReturned | NoteAborted => AbortActs(e, p, q)
         case CheckControl(_) | CheckStopped(_, _) | BringBack(_) | AwaitBack(_)
            | AskForTasks | AwaitTasks | RestoreScaling | NoteComplete => ResumeActs(e, p, q)
         case _ => false
  }

  // ----- courses of one command, and of many -----

  /** A command acts, time passes, or the command dies. */
  predicate Moves(p: Point, q: Point) {
    Acts(p, q) || (q.stage == p.stage && Elapses(p.live, q.live)) || q == Point(Idle, p.live)
  }

  ghost predicate Runs(p: Point, points: seq<Point>, q: Point)
    decreases |points|
  {
    if points == [] then q == p
    else Moves(points[|points| - 1], q) && Runs(p, points[..|points| - 1], points[|points| - 1])
  }

  /** Where this command can be, and what it can leave, after it began on these stacks. */
  ghost predicate Comes(c: Command, l: Live, points: seq<Point>, q: Point) {
    exists s :: Begins(c, l, s) && Runs(Point(s, l), points, q)
  }

  // ----- updates in flight that a command must not meet -----

  /** Quiesce's update of the runtime. */
  predicate BlockingRuntime(l: Live) {
    l.world.runtime.mode.Normal? && InFlight(l.runtimeUpdate, Quiesced)
  }

  /** Select's update of the control plane. */
  predicate MovingControl(l: Live) {
    l.world.control.Some? && l.world.control.value.selector.mode.Quiesced? && InFlight(l.controlUpdate, Selected)
  }

  /** Select's update of the runtime, next to a control plane. */
  predicate MovingRuntime(l: Live) {
    l.world.control.Some? && l.world.runtime.mode.Quiesced? && InFlight(l.runtimeUpdate, Selected)
  }

  /** Abort's return of the runtime, next to a control plane. */
  predicate ReturningRuntime(l: Live) {
    l.world.control.Some? && l.world.runtime.mode.Quiesced? && InFlight(l.runtimeUpdate, Normal)
  }

  /** Abort's reversal of the control plane. */
  predicate ReversingControl(l: Live) {
    l.world.control.Some? && l.world.control.value.selector.mode.Selected? && InFlight(l.controlUpdate, Quiesced)
  }

  /** Quiesce's update of the control plane. */
  predicate BlockingControl(l: Live) {
    l.world.control.Some? && l.world.control.value.selector.mode.Normal? && InFlight(l.controlUpdate, Quiesced)
  }

  /** Which updates each command must not meet. */
  predicate Harmful(c: Command, l: Live) {
    match c
    case Abort => BlockingRuntime(l) || MovingControl(l) || MovingRuntime(l)
    case Select(_) => ReturningRuntime(l) || ReversingControl(l)
    case Resume => BlockingControl(l)
    case _ => false
  }

  /** A session of any commands one after another, none of which begins with an update in flight that is
      harmful to it. */
  ghost predicate Harmless(p: Point, q: Point) {
    || Moves(p, q)
    || (p.stage.Idle? && q.live == p.live && exists c :: Begins(c, p.live, q.stage) && !Harmful(c, p.live))
  }

  ghost predicate Session(l: Live, points: seq<Point>, q: Point)
    decreases |points|
  {
    if points == [] then q == Point(Idle, l)
    else Harmless(points[|points| - 1], q) && Session(l, points[..|points| - 1], points[|points| - 1])
  }

  /** Wherever this command stops, completed, refused, timed out or dead, the settled stacks are not
      stranded. */
  ghost predicate NeverStrands(c: Command, l: Live) {
    forall points, q :: Comes(c, l, points, q) && Settled(q.live) ==> !Stranded(q.live.world)
  }
}
