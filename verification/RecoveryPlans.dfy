/** What each command's steps are expected to find and leave, read off its trace. */
module RecoveryPlans {
  import opened Options
  import opened RecoveryModel
  import opened RecoveryTraces
  import opened RecoveryRuns
  import opened RecoveryProgress
  import opened RecoveryInFlight
  import opened RecoveryCloud

  /** The record names a control plane exactly when there is one, and the table it was on; no target is
      recorded before selection. */
  predicate Paired(w: World) {
    w.evidence.Some? ==>
      && (w.evidence.value.controlPlane.Some? <==> w.control.Some?)
      && (w.control.Some? ==> w.evidence.value.controlPlane.value.table == w.evidence.value.tableBefore)
      && (QuiesceRetryable(w.evidence.value.phase) ==> w.evidence.value.target.None?)
  }

  // ----- how a world matches an entry of a trace -----

  /** Equal but for task counts, and wholly equal when tasks are known to stay put. */
  predicate Matches(still: bool, a: World, b: World) {
    SameButTasks(a, b) && (still ==> a == b)
  }

  /** A trace that goes nowhere. */
  function Nowhere(w: World, n: nat): (t: seq<World>)
    ensures |t| == n
  {
    seq(n, i => w)
  }

  /** A recorded control plane that is serving, or stopped. */
  predicate Stoppable(w: World) {
    && w.control.Some? && w.evidence.Some? && w.evidence.value.controlPlane.Some?
    && QuietOrNormal(w.control.value)
  }

  /** An update of the runtime was issued on settled stacks: it is in flight, rolled back or landed. */
  predicate RuntimeMidway(still: bool, l: Live, start: World, target: Selector) {
    && l.controlUpdate.None?
    && (|| (l.runtimeUpdate == Some(target) && Matches(still, l.world, start))
        || (l.runtimeUpdate.None? && Matches(still, l.world, start))
        || (l.runtimeUpdate.None? && Matches(still, l.world, LandRuntime(start, target))))
  }

  lemma RuntimeMidwayPasses(still: bool, l: Live, l': Live, start: World, target: Selector)
    requires RuntimeMidway(still, l, start, target) && Passes(l, l') && (still ==> Lands(l, l'))
    ensures RuntimeMidway(still, l', start, target)
  {
  }

  /** The same for the control plane, which is stopped or being brought back. */
  predicate ControlMidway(still: bool, l: Live, start: World, target: Selector)
    requires start.control.Some?
  {
    && l.runtimeUpdate.None? && l.world.control.Some? && QuietOrNormal(start.control.value)
    && (|| (l.controlUpdate.None? && Matches(still, l.world, RolledBack(start, target)))
        || (&& (Quiet(l.world.control.value.service) || target.mode.Normal?)
            && (|| (l.controlUpdate == Some(target) && Matches(still, l.world, start))
                || (l.controlUpdate.None? && Matches(still, l.world, start))
                || (l.controlUpdate.None? && Matches(still, l.world, LandControl(start, target))))))
  }

  lemma ControlMidwayPasses(still: bool, l: Live, l': Live, start: World, target: Selector)
    requires start.control.Some? && ControlMidway(still, l, start, target)
    requires Passes(l, l') && (still ==> Lands(l, l'))
    ensures ControlMidway(still, l', start, target)
  {
  }

  // ----- the stretches of quiesce's trace the two halves follow -----

  ghost predicate StopsControl(t: seq<World>, e: Evidence) {
    && |t| == 9 && t[1].control.Some? && t[1].evidence == Some(e) && e.controlPlane.Some?
    && QuietOrNormal(t[1].control.value)
    && t[2] == ScalingSuspended(t[1])
    && t[3] == DesiredAt(t[2], 0)
    && t[4] == Stable(t[3])
    && (t[4].control.value.selector == Before(e) || t[4].control.value.selector == Blocked(e))
    && t[5] == (if t[4].control.value.selector == Before(e)
                then LandControl(t[4], Selector(Quiesced, e.controlPlane.value.table, e.approval)) else t[4])
    && e.controlPlane.value.table == e.tableBefore
    && t[6] == t[5].(evidence := Some(e.(phase := ControlPlaneQuiesced)))
  }

  ghost predicate StopsRuntime(t: seq<World>, e: Evidence) {
    && |t| == 9 && t[6].evidence == Some(e)
    && (t[6].runtime == Before(e) || t[6].runtime == Blocked(e))
    && t[7] == (if t[6].runtime == Before(e)
                then LandRuntime(t[6], Selector(Quiesced, e.tableBefore, e.approval)) else t[6])
    && t[8] == t[7].(evidence := Some(e.(phase := QuiescedPhase)))
  }

  ghost predicate StopsBoth(t: seq<World>, e: Evidence) {
    && |t| == 9
    && (t[1].control.Some? ==> StopsControl(t, e) && StopsRuntime(t, e.(phase := ControlPlaneQuiesced)))
    && (t[1].control.None? ==> t[6] == t[1] && StopsRuntime(t, e))
  }

  lemma QuiesceFollows(w: World, approval: Approval, newFile: bool)
    requires Consistent(w) && QuiesceAccepts(w, approval, newFile) && (newFile ==> Finished(w))
    requires !newFile ==> Recorded(w)
    ensures var t := QuiesceTrace(w, approval, newFile); t[1].evidence.Some? && StopsBoth(t, t[1].evidence.value)
  {
  }

  // ----- the stretches of select's trace -----

  ghost predicate MovesControl(t: seq<World>, e: Evidence, table: Table, mode: Mode) {
    && |t| == 6 && t[1].control.Some? && t[1].evidence == Some(e)
    && SelectControlMatches(e, table, mode, t[1].control.value)
    && t[2] == (if t[1].control.value.selector.mode.Quiesced?
                then LandControl(t[1], Selector(Selected, table, e.approval)) else t[1])
    && t[3] == (if t[1].control.value.selector.mode.Quiesced?
                then t[2].(evidence := Some(e.(phase := ControlPlaneSelected))) else t[2])
  }

  ghost predicate MovesRuntime(t: seq<World>, e: Evidence, table: Table, mode: Mode) {
    && |t| == 6 && t[3].evidence == Some(e)
    && t[4] == (if mode.Quiesced? then LandRuntime(t[3], Selector(Selected, table, e.approval)) else t[3])
    && t[5] == t[4].(evidence := Some(e.(phase := SelectedPhase, target := Some(table))))
  }

  ghost predicate MovesBoth(t: seq<World>, e: Evidence, table: Table, mode: Mode) {
    && |t| == 6 && t[3].evidence.Some? && t[1].runtime.mode == mode
    && (t[1].control.Some? ==> MovesControl(t, e, table, mode))
    && (t[1].control.None? ==> t[3] == t[1])
    && MovesRuntime(t, t[3].evidence.value, table, mode)
  }

  lemma SelectFollows(w: World, table: Table)
    requires Consistent(w) && SelectAccepts(w, table)
    ensures var t := SelectTrace(w, table);
            t[1].evidence.Some? && MovesBoth(t, t[1].evidence.value, table, w.runtime.mode)
  {
  }

  // ----- the traces of start and promote -----

  ghost predicate Validates(t: seq<World>, e: Evidence, table: Table, mode: Mode) {
    && |t| == 4 && t[0].evidence == Some(e) && t[0].runtime.mode == mode
    && t[1] == (if mode.Selected? then t[0].(evidence := Some(e.(phase := StartingValidation))) else t[0])
    && t[2] == (if mode.Selected? then LandRuntime(t[1], Selector(Validation, table, e.approval)) else t[1])
    && t[3] == t[2].(evidence := Some(e.(phase := ValidationPhase)))
  }

  ghost predicate Promotes(t: seq<World>, e: Evidence, table: Table, mode: Mode) {
    && |t| == 4 && t[0].evidence == Some(e) && t[0].runtime.mode == mode
    && t[1] == (if mode.Validation? then t[0].(evidence := Some(e.(phase := Promoting))) else t[0])
    && t[2] == (if mode.Validation? then LandRuntime(t[1], Selector(Normal, table, e.approval)) else t[1])
    && t[3] == t[2].(evidence := Some(e.(phase := Promoted)))
  }

  /** A consistent world refuses abort only where the runtime is past it. */
  lemma RefusedAborts(w: World, e: Evidence)
    requires Consistent(w) && w.evidence == Some(e) && Abortable(e.phase) && !AbortAccepts(w)
    ensures !PreValidation(e, w.runtime) && e.phase.StartingValidation?
  {
  }

  /** What abort has established once both planes passed its checks. */
  ghost predicate Found(read: Live, checked: Live, e: Evidence) {
    && Guarded(read) && Guarded(checked) && Evolves(read, checked)
    && read.world.evidence == Some(e) && Paired(read.world)
    && PreValidation(e, read.world.runtime)
    && (checked.world.control.Some? ==>
          && PreValidation(e, checked.world.control.value.selector)
          && (read.world.runtime.mode.Normal? ==> !InFlight(read.runtimeUpdate, Validation)))
  }

  // ----- the part of abort's trace after the control plane is known to be stopped -----

  ghost predicate Undoes(t: seq<World>, e: Evidence) {
    && |t| == 8 && t[3].evidence == Some(e)
    && PreValidation(e, t[3].runtime)
    && (t[3].control.Some? ==>
          && Quiet(t[3].control.value.service)
          && PreValidation(e, t[3].control.value.selector)
          && SafeOrdering(t[3].runtime.mode, t[3].control.value.selector.mode))
    && t[4] == (if t[3].runtime.mode.Selected? then LandRuntime(t[3], Blocked(e)) else t[3])
    && t[5] == (if t[3].control.Some? && t[3].control.value.selector.mode.Selected?
                then LandControl(t[4], Blocked(e)) else t[4])
    && t[6] == (if t[4].runtime.mode.Quiesced? then LandRuntime(t[5], Before(e)) else t[5])
    && t[7] == t[6].(evidence := Some(e.(phase := Aborted)))
  }

  // ----- the trace of resume -----

  ghost predicate Restores(t: seq<World>, e: Evidence) {
    && |t| == 6 && t[1].control.Some? && e.controlPlane.Some? && t[1].evidence == Some(e)
    && e.controlPlane.value.desired >= 1
    && t[2] == DesiredAt(t[1], e.controlPlane.value.desired)
    && t[3] == Stable(t[2])
  }

  ghost predicate Resumes(t: seq<World>, e: Evidence, runtime: Selector) {
    && |t| == 6 && t[0].control.Some? && QuietOrNormal(t[0].control.value)
    && t[1] == (if t[0].control.value.selector.mode.Normal? then t[0]
                else LandControl(t[0], Selector(Normal, runtime.table, runtime.approval)))
    && Restores(t, e)
    && t[4] == ScalingRestored(t[3])
    && t[5] == t[4].(evidence := Some(e.(phase := Complete)))
  }

  // ----- the trace of cleanup -----

  function WithoutProtection(tables: map<Table, TableInfo>, table: Table): (r: map<Table, TableInfo>)
    requires table in tables
    ensures table in r && r[table] == tables[table].(deletionProtected := false)
    ensures !tables[table].deletionProtected ==> r == tables
  {
    tables[table := tables[table].(deletionProtected := false)]
  }

  lemma CleanupUnprotects(w: World, table: Table)
    requires table in w.tables
    ensures CleanupTrace(w, table)[1] == w.(tables := WithoutProtection(w.tables, table))
  {
  }
}
