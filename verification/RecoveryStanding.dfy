/** The stacks as one command after another leaves them, with updates still in flight: where each plane
    stands, where it may yet go, and when some command can go on from there. */
module RecoveryStanding {
  import opened Options
  import opened RecoveryModel
  import opened RecoveryTraces
  import opened RecoveryRuns
  import opened RecoveryProgress
  import opened RecoveryInFlight
  import opened RecoveryGuards

  // ----- where each plane stands -----

  /** Nothing in flight can move the runtime: it is there already, or its guard refuses it. */
  predicate RuntimeStays(l: Live) {
    || l.runtimeUpdate.None?
    || l.runtimeUpdate.value == l.world.runtime
    || !RuntimeTransition(l.world.runtime.mode, l.runtimeUpdate.value.mode)
  }

  predicate ControlStays(l: Live)
    requires l.world.control.Some?
  {
    l.controlUpdate.None? || l.controlUpdate.value == l.world.control.value.selector
  }

  predicate Selects(p: Phase) { p in {Selecting, ControlPlaneSelected} }

  /** Quiesce may have its update of the runtime in flight. */
  predicate BlocksRuntime(p: Phase, alone: bool) {
    if alone then QuiesceRetryable(p) else p.ControlPlaneQuiesced?
  }

  predicate RuntimeStands(l: Live, e: Evidence) {
    var s, u, alone := l.world.runtime, l.runtimeUpdate, l.world.control.None?;
    if s == Before(e) then
      && (Abortable(e.phase) || e.phase in {Aborted, Complete})
      && (RuntimeStays(l) || (u == Some(Blocked(e)) && BlocksRuntime(e.phase, alone)))
    else if s == Blocked(e) then
      && Abortable(e.phase) && (e.phase.Quiescing? ==> alone)
      && (RuntimeStays(l) || u == Some(Before(e))
          || (e.target.Some? && u == Some(Chosen(e)) && Selects(e.phase)))
    else
      && e.target.Some?
      && if s == Chosen(e) then
           && (Selects(e.phase) || e.phase in {SelectedPhase, StartingValidation})
           && (RuntimeStays(l) || u == Some(Blocked(e)) || (e.phase.StartingValidation? && u == Some(Trial(e))))
         else if s == Trial(e) then
           && e.phase in {StartingValidation, ValidationPhase, Promoting}
           && (RuntimeStays(l) || (e.phase.Promoting? && u == Some(Promotion(e))))
         else s == Promotion(e) && e.phase in {Promoting, Promoted, Complete} && RuntimeStays(l)
  }

  /** Between the choice of a target and validation the two planes move in a fixed order. */
  predicate OrderStands(l: Live, e: Evidence)
    requires l.world.control.Some? && e.target.Some?
  {
    var s, u := l.world.runtime, l.runtimeUpdate;
    var c, v := l.world.control.value.selector, l.controlUpdate;
    var still := s == Blocked(e) && RuntimeStays(l);
    if c == Blocked(e) then
      && (s == Before(e) || (s == Blocked(e) && u != Some(Chosen(e))))
      && (ControlStays(l) || (v == Some(Chosen(e)) && Selects(e.phase) && still))
    else
      && c == Chosen(e) && s != Before(e) && (s == Blocked(e) ==> u != Some(Before(e)))
      && (ControlStays(l) || (v == Some(Blocked(e)) && still))
  }

  predicate ControlStands(l: Live, e: Evidence)
    requires l.world.control.Some?
  {
    var c, v, quiet := l.world.control.value.selector, l.controlUpdate, Quiet(l.world.control.value.service);
    match e.phase
    case Quiescing =>
      || (c == Before(e) && (ControlStays(l) || v == Some(Blocked(e))))
      || (c == Blocked(e) && ControlStays(l) && Emptied(l.world.control.value.service))
    case ControlPlaneQuiesced | QuiescedPhase => quiet && c == Blocked(e) && ControlStays(l)
    case Selecting | ControlPlaneSelected | SelectedPhase | StartingValidation =>
      quiet && e.target.Some? && OrderStands(l, e)
    case ValidationPhase | Promoting => quiet && e.target.Some? && c == Chosen(e) && ControlStays(l)
    case Promoted =>
      && e.target.Some?
      && (|| (c == Promotion(e) && ControlStays(l))
          || (c == Chosen(e) && quiet && (ControlStays(l) || v == Some(Promotion(e)))))
    case Aborted =>
      || (c == Before(e) && (ControlStays(l) || (v == Some(Blocked(e)) && quiet)))
      || (c == Blocked(e) && quiet && (ControlStays(l) || v == Some(Before(e))))
    case Complete => c == l.world.runtime && ControlStays(l)
  }

  /** What holds of the stacks between any two actions of any commands, as long as no command began with an
      update in flight that is harmful to it. */
  predicate Standing(l: Live) {
    && (l.world.control.None? ==> l.controlUpdate.None?)
    && match l.world.evidence
       case None =>
         Consistent(l.world) && RuntimeStays(l) && (l.world.control.Some? ==> ControlStays(l))
       case Some(e) =>
         && WellRecorded(l.world, e) && RuntimeStands(l, e)
         && (l.world.control.Some? ==> ControlStands(l, e))
  }

  // ----- time passing -----

  lemma RuntimeStaysPut(l: Live, l': Live)
    requires Elapses(l, l') && RuntimeStays(l)
    ensures l'.world.runtime == l.world.runtime && RuntimeStays(l')
    ensures l'.runtimeUpdate == l.runtimeUpdate || l'.runtimeUpdate.None?
  {
  }

  lemma ControlStaysPut(l: Live, l': Live)
    requires Elapses(l, l') && l.world.control.Some? && ControlStays(l)
    ensures l'.world.control.Some? && ControlStays(l')
    ensures l'.world.control.value.selector == l.world.control.value.selector
    ensures ServiceDrifts(l.world.control.value.service, l'.world.control.value.service)
  {
  }

  lemma StandingElapses(l: Live, l': Live)
    requires Standing(l) && Elapses(l, l')
    ensures Standing(l')
  {
    if l.world.evidence.Some? {
      var e := l.world.evidence.value;
      assert WellRecorded(l'.world, e);
      RuntimeStandsOn(l, l', e);
      if l.world.control.Some? {
        ControlStandsOn(l, l', e);
      }
    }
  }

  lemma RuntimeStandsOn(l: Live, l': Live, e: Evidence)
    requires RuntimeStands(l, e) && WellRecorded(l.world, e) && Elapses(l, l')
    ensures RuntimeStands(l', e)
  {
  }

  lemma ControlStandsOn(l: Live, l': Live, e: Evidence)
    requires RuntimeStands(l, e) && RuntimeStands(l', e) && WellRecorded(l.world, e) && Elapses(l, l')
    requires l.world.control.Some? && l'.world.control.Some? && ControlStands(l, e)
    ensures ControlStands(l', e)
  {
    if e.phase in {Selecting, ControlPlaneSelected, SelectedPhase, StartingValidation} {
      OrderStandsOn(l, l', e);
    }
  }

  lemma OrderStandsOn(l: Live, l': Live, e: Evidence)
    requires RuntimeStands(l, e) && WellRecorded(l.world, e) && Elapses(l, l') && Abortable(e.phase)
    requires l.world.control.Some? && l'.world.control.Some? && e.target.Some? && OrderStands(l, e)
    requires Quiet(l.world.control.value.service)
    ensures OrderStands(l', e) && Quiet(l'.world.control.value.service)
  {
  }

  // ----- some command can go on -----

  /** Resume would go on if a task had been recorded. */
  predicate OnlyCountRefuses(w: World) {
    && w.evidence.Some? && w.evidence.value.controlPlane.Some?
    && var e := w.evidence.value;
       && e.controlPlane.value.desired == 0
       && ResumeAccepts(w.(evidence := Some(e.(controlPlane := Some(e.controlPlane.value.(desired := 1))))))
  }

  /** Every command is turned away, and not for want of a recorded task. */
  ghost predicate Stranded(w: World) {
    !OnlyCountRefuses(w) && forall c :: !Proceeds(c, w)
  }

  /** The command with which a recovery, or the next one, goes on. */
  function GoesOn(w: World): Command {
    match w.evidence
    case None => Quiesce(Change(if w.runtime.approval == Change(0) then 1 else 0), true)
    case Some(e) =>
      if Finished(w) then Quiesce(Change(if w.runtime.approval == Change(0) then 1 else 0), true)
      else if e.phase in {Promoted, Aborted} || e.target.None? then (if Abortable(e.phase) then Abort else Resume)
      else if e.phase in {ValidationPhase, Promoting} then Promote(e.target.value)
      else if w.runtime.mode.Validation? then Start(e.target.value)
      else Abort
  }

  lemma StandingGoesOn(l: Live)
    requires Standing(l) && Settled(l)
    ensures Proceeds(GoesOn(l.world), l.world) || OnlyCountRefuses(l.world)
  {
  }

  lemma StandingIsNotStranded(l: Live)
    requires Standing(l) && Settled(l)
    ensures !Stranded(l.world)
  {
    StandingGoesOn(l);
  }

  // ----- where the stacks may stand to begin with -----

  lemma SettledStands(l: Live)
    requires Settled(l) && Consistent(l.world)
    ensures Standing(l)
  {
  }
}
