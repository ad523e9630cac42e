/** The two planes with stack updates still in flight.  A command that dies or times out leaves its update
    running; the update may land or roll back at any later moment, even while another command runs.  Each
    stack's guard decides between which modes an update lands; the invariant does not depend on it. */
module RecoveryInFlight {
  import opened Options
  import opened RecoveryModel
  import opened RecoveryTraces
  import opened RecoveryRuns

  datatype Live = Live(world: World, runtimeUpdate: Option<Selector>, controlUpdate: Option<Selector>)

  predicate Settled(l: Live) {
    l.runtimeUpdate.None? && l.controlUpdate.None?
  }

  /** The world once whatever is in flight has landed. */
  function Landed(l: Live): World {
    var w := if l.runtimeUpdate.Some? then LandRuntime(l.world, l.runtimeUpdate.value) else l.world;
    if l.controlUpdate.Some? && w.control.Some? then LandControl(w, l.controlUpdate.value) else w
  }

  // ----- what can happen on its own -----

  predicate PlaneEvolves(s: Selector, update: Option<Selector>, s': Selector, update': Option<Selector>) {
    || (s' == s && update' == update)
    || (update.Some? && update'.None? && (s' == s || s' == update.value))
  }

  predicate InFlight(update: Option<Selector>, mode: Mode) {
    update.Some? && update.value.mode == mode
  }

  /** Updates land or roll back and the service moves, but a quiet service stays quiet until an
      update lands in normal mode or one that was to leave it rolls back. */
  predicate Evolves(l: Live, l': Live) {
    && l'.world.evidence == l.world.evidence && l'.world.dataKey == l.world.dataKey
    && PlaneEvolves(l.world.runtime, l.runtimeUpdate, l'.world.runtime, l'.runtimeUpdate)
    && (l'.world.control.Some? <==> l.world.control.Some?)
    && (l.world.control.None? ==> l'.controlUpdate == l.controlUpdate)
    && (l.world.control.Some? ==>
          && var c := l.world.control.value; var c' := l'.world.control.value;
             && PlaneEvolves(c.selector, l.controlUpdate, c'.selector, l'.controlUpdate)
             && (Quiet(c.service) ==>
                   || Quiet(c'.service)
                   || (l.controlUpdate.Some? && l'.controlUpdate.None? && c'.selector.mode.Normal?)))
  }

  predicate RuntimePasses(l: Live, l': Live) {
    var s, u := l.world.runtime, l.runtimeUpdate;
    || (l'.world.runtime == s && (l'.runtimeUpdate == u || l'.runtimeUpdate.None?))
    || (&& u.Some? && l'.runtimeUpdate.None? && l'.world.runtime == u.value
        && RuntimeTransition(s.mode, u.value.mode))
  }

  /** What the template makes of a service when an update goes from one mode to another, by landing or by
      rolling back, and what tasks and counts do on their own. */
  predicate ServicePasses(s: Service, from: Mode, to: Mode, s': Service) {
    ServiceDrifts(ServiceUnder(s, from, to), s')
  }

  predicate ControlPasses(l: Live, l': Live)
    requires l.world.control.Some? && l'.world.control.Some?
  {
    var c, c', u := l.world.control.value, l'.world.control.value, l.controlUpdate;
    || (c'.selector == c.selector && l'.controlUpdate == u && ServiceDrifts(c.service, c'.service))
    || (&& u.Some? && l'.controlUpdate.None?
        && (|| (&& c'.selector == u.value && ControlTransition(c.selector.mode, u.value.mode)
                && ServicePasses(c.service, c.selector.mode, u.value.mode, c'.service))
            || (&& c'.selector == c.selector
                && (|| ServiceDrifts(c.service, c'.service)
                    || ServicePasses(c.service, u.value.mode, c.selector.mode, c'.service)))))
  }

  /** One stretch of time: each update stays in flight, lands if its stack's guard lets it, or rolls back,
      with what the template does to the service, and tasks and counts drift. */
  predicate Passes(l: Live, l': Live) {
    && l'.world == l.world.(runtime := l'.world.runtime, control := l'.world.control)
    && RuntimePasses(l, l')
    && (l'.world.control.Some? <==> l.world.control.Some?)
    && (l.world.control.None? ==> l'.controlUpdate == l.controlUpdate)
    && (l.world.control.Some? ==> ControlPasses(l, l'))
  }

  /** A stretch of time in which tables may come and go, too. */
  predicate Elapses(l: Live, l': Live) {
    Passes(l, l'.(world := l'.world.(tables := l.world.tables)))
  }

  lemma ElapsingEvolves(l: Live, l': Live)
    requires Elapses(l, l')
    ensures Evolves(l, l')
  {
  }

  /** On settled stacks only task counts move. */
  lemma SettledStays(l: Live, l': Live)
    requires Passes(l, l') && Settled(l)
    ensures Settled(l') && SameButTasks(l'.world, l.world)
  {
  }

  // ----- the invariant -----

  predicate ServesOnly(s: Selector, table: Table) {
    Serving(s) ==> s.table == table
  }

  predicate UpdateServesOnly(update: Option<Selector>, table: Table) {
    update.Some? ==> ServesOnly(update.value, table)
  }

  predicate NormalOnly(s: Selector, table: Table) {
    s.mode.Normal? ==> s.table == table
  }

  predicate TrialOnly(s: Selector, table: Table) {
    s.mode.Validation? ==> s.table == table
  }

  predicate NoTrial(l: Live) {
    !l.world.runtime.mode.Validation? && !InFlight(l.runtimeUpdate, Validation)
  }

  /** The control plane selects this table and nothing in flight will take it elsewhere. */
  predicate Settling(l: Live, table: Table)
    requires l.world.control.Some?
  {
    && l.world.control.value.selector.table == table
    && (l.controlUpdate.Some? ==>
          l.controlUpdate.value.table == table && l.controlUpdate.value.mode in {Normal, Quiesced})
  }

  /** The control plane is selected and nothing in flight takes it back. */
  predicate Pinned(l: Live)
    requires l.world.control.Some?
  {
    && l.world.control.value.selector.mode.Selected?
    && (l.controlUpdate.Some? ==> l.controlUpdate.value.mode.Selected?)
  }

  /** Between recoveries, and until the control plane has been stopped. */
  predicate Calm(l: Live)
    requires l.world.control.Some?
  {
    var c := l.world.control.value.selector;
    && Settling(l, c.table)
    && ServesOnly(l.world.runtime, c.table) && UpdateServesOnly(l.runtimeUpdate, c.table)
    && NoTrial(l)
    && (InFlight(l.controlUpdate, Normal) ==> c.mode.Normal?)
  }

  /** The control plane is stopped and cannot come back on its own. */
  predicate Held(l: Live)
    requires l.world.control.Some?
  {
    && Quiet(l.world.control.value.service)
    && !l.world.control.value.selector.mode.Normal?
    && !InFlight(l.controlUpdate, Normal)
  }

  /** A normal runtime, now or in flight, is on this table. */
  predicate NormalHere(l: Live, table: Table) {
    NormalOnly(l.world.runtime, table)
    && (l.runtimeUpdate.Some? ==> NormalOnly(l.runtimeUpdate.value, table))
  }

  /** A validating runtime, now or in flight, is on this table. */
  predicate TrialHere(l: Live, table: Table) {
    TrialOnly(l.world.runtime, table)
    && (l.runtimeUpdate.Some? ==> TrialOnly(l.runtimeUpdate.value, table))
  }

  /** An undo of the runtime that lands on a selected runtime never meets a control plane that is about
      to leave selected mode. */
  predicate Crossing(l: Live)
    requires l.world.control.Some?
  {
    l.world.runtime.mode in {Selected, Validation} && InFlight(l.runtimeUpdate, Normal)
    && l.world.control.value.selector.mode.Selected?
    ==> Pinned(l)
  }

  /** After promote or abort: the runtime serves only this table, and the control plane is either
      quiet or bound for it. */
  predicate Parked(l: Live, table: Table)
    requires l.world.control.Some?
  {
    && ServesOnly(l.world.runtime, table) && UpdateServesOnly(l.runtimeUpdate, table)
    && NoTrial(l)
    && (InFlight(l.controlUpdate, Normal) ==> l.controlUpdate.value.table == table)
    && (Settling(l, table)
        || (Quiet(l.world.control.value.service) && !l.world.control.value.selector.mode.Normal?))
  }

  predicate PhaseGuarded(l: Live, e: Evidence)
    requires l.world.control.Some?
  {
    match e.phase
    case Quiescing | Complete => Calm(l)
    case ControlPlaneQuiesced | QuiescedPhase =>
      && Held(l) && NormalHere(l, e.tableBefore) && NoTrial(l)
      && l.world.control.value.selector.mode.Quiesced?
      && (l.controlUpdate.Some? ==> l.controlUpdate.value.mode.Quiesced?)
    case Selecting | ControlPlaneSelected | SelectedPhase =>
      e.target.Some? && Held(l) && NormalHere(l, e.tableBefore) && NoTrial(l) && Crossing(l)
    case StartingValidation =>
      && e.target.Some? && Held(l)
      && NormalHere(l, e.tableBefore) && TrialHere(l, e.target.value) && Crossing(l)
      && (l.world.runtime.mode.Normal? && InFlight(l.runtimeUpdate, Validation) ==> Pinned(l))
      && (l.world.runtime.mode.Validation? && InFlight(l.runtimeUpdate, Normal) ==>
            !l.world.control.value.selector.mode.Selected? && !InFlight(l.controlUpdate, Selected))
      && (InFlight(l.controlUpdate, Selected) ==> l.world.control.value.selector.mode.Selected?)
    case ValidationPhase | Promoting =>
      && e.target.Some? && Held(l)
      && NormalHere(l, e.target.value) && TrialHere(l, e.target.value)
      && (l.world.runtime.mode.Normal? ==> !InFlight(l.runtimeUpdate, Validation))
    case Promoted => e.target.Some? && Parked(l, e.target.value)
    case Aborted => Parked(l, e.tableBefore)
  }

  /** What every state of every overlapping run satisfies. */
  predicate Guarded(l: Live) {
    l.world.control.Some? ==>
      match l.world.evidence
      case None => Calm(l)
      case Some(e) => PhaseGuarded(l, e)
  }

  lemma GuardedIsSafe(l: Live)
    requires Guarded(l)
    ensures Safe(l.world)
  {
  }

  lemma EvolvingKeepsCalm(l: Live, l': Live)
    requires l.world.control.Some? && l'.world.control.Some? && Calm(l) && Evolves(l, l')
    ensures Calm(l')
  {
  }

  lemma EvolvingKeepsParked(l: Live, l': Live, table: Table)
    requires l.world.control.Some? && l'.world.control.Some? && Parked(l, table) && Evolves(l, l')
    ensures Parked(l', table)
  {
  }

  lemma EvolvingKeepsMoving(l: Live, l': Live, e: Evidence)
    requires l.world.control.Some? && l'.world.control.Some? && PhaseGuarded(l, e) && Evolves(l, l')
    requires e.phase in {ControlPlaneQuiesced, QuiescedPhase, Selecting, ControlPlaneSelected, SelectedPhase,
                         StartingValidation, ValidationPhase, Promoting}
    ensures PhaseGuarded(l', e)
  {
  }

  lemma EvolvingKeepsGuarded(l: Live, l': Live)
    requires Guarded(l) && Evolves(l, l')
    ensures Guarded(l')
  {
    if l.world.control.Some? {
      if l.world.evidence.None? || l.world.evidence.value.phase in {Quiescing, Complete} {
        EvolvingKeepsCalm(l, l');
      } else if l.world.evidence.value.phase in {Promoted, Aborted} {
        var e := l.world.evidence.value;
        EvolvingKeepsParked(l, l', if e.phase.Aborted? then e.tableBefore else e.target.value);
      } else {
        EvolvingKeepsMoving(l, l', l.world.evidence.value);
      }
    }
  }

  lemma EvolvesFurther(l: Live, l': Live, l'': Live)
    requires Evolves(l, l') && Evolves(l', l'')
    ensures Evolves(l, l'')
  {
  }

  /** Only this plane of the stacks evolved; the file and the other plane may have been written. */
  predicate RuntimeEvolves(l: Live, l': Live) {
    PlaneEvolves(l.world.runtime, l.runtimeUpdate, l'.world.runtime, l'.runtimeUpdate)
  }

  predicate ControlEvolves(l: Live, l': Live) {
    && (l'.world.control.Some? <==> l.world.control.Some?)
    && (l.world.control.Some? ==>
          PlaneEvolves(l.world.control.value.selector, l.controlUpdate,
                       l'.world.control.value.selector, l'.controlUpdate))
  }

  // ----- what a command may conclude from selectors it read earlier -----

  /** Start read the runtime, then found the control plane selected, and time passed after each read. */
  predicate ReadBefore(read: Live, checked: Live, now: Live) {
    && Guarded(read)
    && read.world.evidence.Some? && read.world.evidence.value.phase in {SelectedPhase, StartingValidation}
    && RuntimeEvolves(read, now)
    && ControlEvolves(read, checked) && ControlEvolves(checked, now)
    && (checked.world.control.Some? ==> checked.world.control.value.selector.mode.Selected?)
  }

  lemma StartMayBegin(read: Live, checked: Live, now: Live)
    requires ReadBefore(read, checked, now) && Guarded(now) && now.world.evidence == read.world.evidence
    ensures var w := now.world;
            Guarded(now.(world := w.(evidence := Some(w.evidence.value.(phase := StartingValidation)))))
  {
  }

  lemma StartMayValidate(read: Live, checked: Live, now: Live, table: Table, approval: Approval)
    requires ReadBefore(read, checked, now) && Guarded(now) && read.world.runtime.mode.Selected?
    requires now.world.evidence.Some? && now.world.evidence.value.phase.StartingValidation?
    requires now.world.evidence.value.target == Some(table)
    requires now.runtimeUpdate.None?
    ensures Guarded(now.(runtimeUpdate := Some(Selector(Validation, table, approval))))
  {
  }

  lemma StartMayFinish(read: Live, checked: Live, now: Live)
    requires ReadBefore(read, checked, now) && Guarded(now) && now.world.evidence == read.world.evidence
    requires read.world.runtime.mode.Validation?
    ensures var w := now.world;
            Guarded(now.(world := w.(evidence := Some(w.evidence.value.(phase := ValidationPhase)))))
  {
  }

  /** Once promote has seen the runtime normal, nothing takes it back to validation. */
  lemma PromoteMayFinish(read: Live, now: Live)
    requires Guarded(read) && Evolves(read, now) && read.world.runtime.mode.Normal?
    requires read.world.evidence.Some? && read.world.evidence.value.phase in {ValidationPhase, Promoting}
    ensures var w := now.world;
            Guarded(now.(world := w.(evidence := Some(w.evidence.value.(phase := Promoted)))))
  {
  }

  /** Abort's view: the runtime was read blocked or normal on the original table, with no validation on
      the way, and the control plane was found where a recovery may leave it. */
  predicate Undoing(read: Live, now: Live, e: Evidence) {
    && Guarded(read) && Guarded(now)
    && read.world.evidence == Some(e) && now.world.evidence == Some(e) && Abortable(e.phase)
    && RuntimeEvolves(read, now)
    && (read.world.runtime.mode.Quiesced? || read.world.runtime == Before(e))
    && (read.world.control.Some? <==> now.world.control.Some?)
    && (now.world.control.Some? && read.world.runtime.mode.Normal? ==> !InFlight(read.runtimeUpdate, Validation))
    && (now.world.control.Some? && e.phase.Quiescing? ==> now.world.control.value.selector.table == e.tableBefore)
  }

  lemma UndoingPersists(read: Live, now: Live, later: Live, e: Evidence)
    requires Undoing(read, now, e) && Evolves(now, later)
    ensures Undoing(read, later, e)
  {
    EvolvingKeepsGuarded(now, later);
  }

  /** A normal runtime with a validation in flight always meets a selected control plane, which abort
      refuses. */
  lemma OrderingExcludesTrial(read: Live, checked: Live, e: Evidence)
    requires Guarded(read) && read.world.evidence == Some(e) && Abortable(e.phase)
    requires read.world.control.Some? && ControlEvolves(read, checked)
    requires SafeOrdering(read.world.runtime.mode, checked.world.control.value.selector.mode)
    ensures read.world.runtime.mode.Normal? ==> !InFlight(read.runtimeUpdate, Validation)
  {
  }

  /** While the phase is quiescing the control plane's table does not move. */
  lemma QuiescingStaysPut(checked: Live, now: Live, e: Evidence)
    requires Guarded(checked) && checked.world.evidence == Some(e) && e.phase.Quiescing?
    requires checked.world.control.Some? && ControlEvolves(checked, now)
    ensures now.world.control.Some?
    ensures now.world.control.value.selector.table == checked.world.control.value.selector.table
  {
  }

  lemma AbortMayReverse(read: Live, now: Live, e: Evidence)
    requires Undoing(read, now, e) && now.world.control.Some? && now.controlUpdate.None?
    ensures Guarded(now.(controlUpdate := Some(Blocked(e))))
  {
  }

  lemma AbortMayUndo(read: Live, looked: Live, now: Live, e: Evidence)
    requires Undoing(read, now, e) && now.runtimeUpdate.None?
    requires Guarded(looked) && looked.world.evidence == Some(e) && ControlEvolves(looked, now)
    requires looked.world.control.Some? ==> !looked.world.control.value.selector.mode.Selected?
    ensures Guarded(now.(runtimeUpdate := Some(Before(e))))
  {
  }

  lemma AbortMayFinish(read: Live, now: Live, e: Evidence)
    requires Undoing(read, now, e) && read.world.runtime == Before(e)
    ensures Guarded(now.(world := now.world.(evidence := Some(e.(phase := Aborted)))))
  {
  }

  // ----- resume -----

  /** Where promote or abort left the runtime. */
  function Destination(e: Evidence): Option<Table> {
    if e.phase.Aborted? then Some(e.tableBefore) else e.target
  }

  /** The control plane is normal on this table, or was and is only being stopped there. */
  predicate Bound(l: Live, table: Table) {
    && l.world.control.Some? && Settling(l, table)
    && (InFlight(l.controlUpdate, Normal) ==> l.world.control.value.selector.mode.Normal?)
  }

  predicate Resuming(l: Live, e: Evidence, table: Table) {
    && Guarded(l) && l.world.evidence == Some(e) && e.phase in {Promoted, Aborted}
    && Destination(e) == Some(table)
  }

  lemma ResumeReads(read: Live, e: Evidence)
    requires Guarded(read) && read.world.evidence == Some(e) && e.phase in {Promoted, Aborted}
    requires read.world.control.Some? && read.world.runtime.mode.Normal?
    ensures Resuming(read, e, read.world.runtime.table)
  {
  }

  lemma NormalIsBound(l: Live, e: Evidence, table: Table)
    requires Resuming(l, e, table) && l.world.control.Some? && l.world.control.value.selector.mode.Normal?
    ensures Bound(l, table)
  {
  }

  lemma BoundPersists(l: Live, l': Live, e: Evidence, table: Table)
    requires Resuming(l, e, table) && Bound(l, table) && Evolves(l, l')
    ensures Resuming(l', e, table) && Bound(l', table)
  {
    EvolvingKeepsGuarded(l, l');
  }

  lemma ResumeMayUpdate(l: Live, e: Evidence, table: Table, approval: Approval)
    requires Resuming(l, e, table) && l.world.control.Some? && l.controlUpdate.None?
    ensures Guarded(l.(controlUpdate := Some(Selector(Normal, table, approval))))
  {
  }

  lemma ResumeMayServe(l: Live, e: Evidence, table: Table, s: Service)
    requires Resuming(l, e, table) && Bound(l, table)
    ensures Guarded(l.(world := WithService(l.world, s)))
  {
  }

  lemma ResumeMayFinish(l: Live, e: Evidence, table: Table)
    requires Resuming(l, e, table) && Bound(l, table)
    ensures Guarded(l.(world := l.world.(evidence := Some(e.(phase := Complete)))))
  {
  }
}
