/** What each recovery command does when every stack is settled as it starts: whether it is accepted,
    and the worlds it passes through, one entry per remote or file write.  A write that a command
    skips repeats the previous world.  A command that dies leaves some entry of its trace; an
    uninterrupted one leaves the last. */
module RecoveryTraces {
  import opened Options
  import opened RecoveryModel

  datatype Command =
    | Quiesce(approval: Approval, newFile: bool)
    | Select(table: Table)
    | Start(table: Table)
    | Promote(table: Table)
    | Abort
    | Resume
    | Cleanup(table: Table)

  // ----- the five places a plane can be during one recovery -----

  function Before(e: Evidence): Selector { Selector(Normal, e.tableBefore, e.approvalBefore) }

  function Blocked(e: Evidence): Selector { Selector(Quiesced, e.tableBefore, e.approval) }

  function Chosen(e: Evidence): Selector
    requires e.target.Some?
  {
    Selector(Selected, e.target.value, e.approval)
  }

  function Trial(e: Evidence): Selector
    requires e.target.Some?
  {
    Selector(Validation, e.target.value, e.approval)
  }

  function Promotion(e: Evidence): Selector
    requires e.target.Some?
  {
    Selector(Normal, e.target.value, e.approval)
  }

  // ----- the checks -----

  predicate QuiesceRetryable(p: Phase) { p in {Quiescing, ControlPlaneQuiesced, QuiescedPhase} }

  predicate SelectRetryable(p: Phase) { p in {QuiescedPhase, Selecting, ControlPlaneSelected} }

  predicate Abortable(p: Phase) {
    p in {Quiescing, ControlPlaneQuiesced, QuiescedPhase, Selecting, ControlPlaneSelected,
          SelectedPhase, StartingValidation}
  }

  predicate QuiesceAccepts(w: World, approval: Approval, newFile: bool) {
    && approval.Change?
    && if newFile then
         && w.runtime.mode.Normal?
         && approval != w.runtime.approval
         && (w.control.Some? ==> w.control.value.selector == w.runtime)
       else
         && w.evidence.Some?
         && var e := w.evidence.value;
            && QuiesceRetryable(e.phase)
            && e.approval == approval
            && (w.runtime == Before(e) || w.runtime == Blocked(e))
  }

  predicate SelectAccepts(w: World, table: Table) {
    && w.evidence.Some?
    && var e := w.evidence.value;
       && SelectRetryable(e.phase)
       && (e.phase.QuiescedPhase? ==> table != e.tableBefore)
       && (!e.phase.QuiescedPhase? ==> e.target == Some(table))
       && (w.runtime == Blocked(e) || w.runtime == Selector(Selected, table, e.approval))
       && Usable(w, table)
  }

  /** Checked after the selecting phase has been written. */
  predicate SelectControlMatches(e: Evidence, table: Table, runtime: Mode, c: ControlPlane) {
    && Quiet(c.service)
    && (c.selector == Blocked(e) || c.selector == Selector(Selected, table, e.approval))
    && (runtime.Selected? ==> c.selector.mode.Selected?)
  }

  predicate StartAccepts(w: World, table: Table) {
    && w.evidence.Some?
    && var e := w.evidence.value;
       && e.phase in {SelectedPhase, StartingValidation}
       && e.target == Some(table)
       && (w.control.Some? ==> Quiet(w.control.value.service) && w.control.value.selector == Chosen(e))
       && (w.runtime == Chosen(e) || w.runtime == Trial(e))
  }

  predicate PromoteAccepts(w: World, table: Table) {
    && w.evidence.Some?
    && var e := w.evidence.value;
       && e.phase in {ValidationPhase, Promoting}
       && e.target == Some(table)
       && (w.control.Some? ==> Quiet(w.control.value.service) && w.control.value.selector == Chosen(e))
       && (w.runtime == Trial(e) || w.runtime == Promotion(e))
  }

  /** The selectors abort expects to find on either plane. */
  predicate PreValidation(e: Evidence, s: Selector) {
    s == Before(e) || s == Blocked(e) || (e.target.Some? && s == Chosen(e))
  }

  predicate SafeOrdering(runtime: Mode, control: Mode) {
    (runtime, control) in {
      (Normal, Normal), (Normal, Quiesced), (Quiesced, Quiesced), (Quiesced, Selected), (Selected, Selected)}
  }

  predicate AbortAccepts(w: World) {
    && w.evidence.Some?
    && var e := w.evidence.value;
       && Abortable(e.phase)
       && PreValidation(e, w.runtime)
       && (w.control.Some? ==>
             && e.controlPlane.Some?
             && (e.phase in {Quiescing, ControlPlaneQuiesced} || Quiet(w.control.value.service))
             && PreValidation(e, w.control.value.selector)
             && SafeOrdering(w.runtime.mode, w.control.value.selector.mode))
  }

  predicate ResumeAccepts(w: World) {
    && w.evidence.Some?
    && var e := w.evidence.value;
       && e.phase in {Promoted, Aborted}
       && w.runtime.mode.Normal?
       && (w.control.Some? ==>
             && e.controlPlane.Some?
             && e.controlPlane.value.desired >= 1
             && var c := w.control.value;
                && c.selector.table == w.runtime.table
                && !c.selector.mode.Validation?
                && (!c.selector.mode.Quiesced? ==> c.selector.approval == w.runtime.approval)
                && (!c.selector.mode.Normal? ==> Quiet(c.service)))
  }

  predicate CleanupAccepts(w: World, table: Table) {
    && table.Restored?
    && w.runtime.table != table
    && w.runtime.mode.Normal?
    && (w.control.Some? ==>
          && w.control.value.selector.table != table
          && w.control.value.selector.mode.Normal?
          && w.control.value.selector.table == w.runtime.table)
    && table in w.tables
    && w.tables[table].active
  }

  // ----- the writes -----

  function SnapshotOf(c: ControlPlane): Snapshot {
    Snapshot(c.service.desired, c.service.minCapacity, c.service.maxCapacity, c.service.suspended, c.selector.table)
  }

  function FreshEvidence(w: World, approval: Approval): Evidence {
    Evidence(Quiescing, w.runtime.table, w.runtime.approval, approval, None,
             if w.control.Some? then Some(SnapshotOf(w.control.value)) else None)
  }

  function ScalingSuspended(w: World): World
    requires w.control.Some? && w.evidence.Some? && w.evidence.value.controlPlane.Some?
  {
    WithService(w, w.control.value.service.(
      minCapacity := 0,
      maxCapacity := w.evidence.value.controlPlane.value.maxCapacity,
      suspended := ALL_SUSPENDED))
  }

  function DesiredAt(w: World, desired: nat): World
    requires w.control.Some?
  {
    WithService(w, w.control.value.service.(desired := desired))
  }

  /** The tasks have converged to the desired count. */
  function Stable(w: World): World
    requires w.control.Some?
  {
    var s := w.control.value.service;
    WithService(w, s.(pending := 0, running := s.desired))
  }

  /** A control plane, when there is one, was recorded. */
  predicate Recorded(w: World) {
    w.control.Some? ==> w.evidence.Some? && w.evidence.value.controlPlane.Some?
  }

  function QuiesceTrace(w: World, approval: Approval, newFile: bool): (t: seq<World>)
    requires !newFile ==> w.evidence.Some? && Recorded(w)
    ensures |t| == 9 && t[0] == w
  {
    var w1 := if newFile then w.(evidence := Some(FreshEvidence(w, approval))) else w;
    var w2 := if w1.control.Some? then ScalingSuspended(w1) else w1;
    var w3 := if w2.control.Some? then DesiredAt(w2, 0) else w2;
    var w4 := if w3.control.Some? then Stable(w3) else w3;
    var w5 := if w4.control.Some? && w4.control.value.selector.mode.Normal?
              then LandControl(w4, Landing(Quiesced, w1.evidence.value.controlPlane.value.table, approval))
              else w4;
    var w6 := if w5.control.Some? then InPhase(w5, ControlPlaneQuiesced) else w5;
    var w7 := if w6.runtime.mode.Normal?
              then LandRuntime(w6, Landing(Quiesced, w6.runtime.table, approval))
              else w6;
    [w, w1, w2, w3, w4, w5, w6, w7, InPhase(w7, QuiescedPhase)]
  }

  function Targeted(w: World, phase: Phase, table: Table): World
    requires w.evidence.Some?
  {
    w.(evidence := Some(w.evidence.value.(phase := phase, target := Some(table))))
  }

  function SelectTrace(w: World, table: Table): (t: seq<World>)
    requires w.evidence.Some?
    ensures |t| == 6 && t[0] == w
  {
    var approval := w.evidence.value.approval;
    var w1 := if w.evidence.value.phase.QuiescedPhase? then Targeted(w, Selecting, table) else w;
    var moves := w.control.Some? && w.control.value.selector.mode.Quiesced?;
    var w2 := if moves then LandControl(w1, Landing(Selected, table, approval)) else w1;
    var w3 := if moves then InPhase(w2, ControlPlaneSelected) else w2;
    var w4 := if w.runtime.mode.Quiesced?
              then LandRuntime(w3, Landing(Selected, table, approval)) else w3;
    [w, w1, w2, w3, w4, Targeted(w4, SelectedPhase, table)]
  }

  function StartTrace(w: World, table: Table): (t: seq<World>)
    requires w.evidence.Some?
    ensures |t| == 4 && t[0] == w
  {
    var w1 := if w.runtime.mode.Selected? then InPhase(w, StartingValidation) else w;
    var w2 := if w.runtime.mode.Selected?
              then LandRuntime(w1, Landing(Validation, table, w.evidence.value.approval)) else w1;
    [w, w1, w2, InPhase(w2, ValidationPhase)]
  }

  function PromoteTrace(w: World, table: Table): (t: seq<World>)
    requires w.evidence.Some?
    ensures |t| == 4 && t[0] == w
  {
    var w1 := if w.runtime.mode.Validation? then InPhase(w, Promoting) else w;
    var w2 := if w.runtime.mode.Validation?
              then LandRuntime(w1, Landing(Normal, table, w.evidence.value.approval)) else w1;
    [w, w1, w2, InPhase(w2, Promoted)]
  }

  function AbortTrace(w: World): (t: seq<World>)
    requires w.evidence.Some? && Recorded(w)
    ensures |t| == 8 && t[0] == w
  {
    var e := w.evidence.value;
    var stops := w.control.Some? && e.phase in {Quiescing, ControlPlaneQuiesced};
    var w1 := if stops then ScalingSuspended(w) else w;
    var w2 := if stops then DesiredAt(w1, 0) else w1;
    var w3 := if stops then Stable(w2) else w2;
    var w4 := if w.runtime.mode.Selected?
              then LandRuntime(w3, Landing(Quiesced, e.tableBefore, e.approval)) else w3;
    var w5 := if w.control.Some? && w.control.value.selector.mode.Selected?
              then LandControl(w4, Landing(Quiesced, e.tableBefore, e.approval)) else w4;
    var w6 := if w4.runtime.mode.Quiesced?
              then LandRuntime(w5, Landing(Normal, e.tableBefore, e.approvalBefore)) else w5;
    [w, w1, w2, w3, w4, w5, w6, InPhase(w6, Aborted)]
  }

  function ScalingRestored(w: World): World
    requires w.control.Some? && w.evidence.Some? && w.evidence.value.controlPlane.Some?
  {
    var s := w.evidence.value.controlPlane.value;
    WithService(w, w.control.value.service.(
      minCapacity := s.minCapacity, maxCapacity := s.maxCapacity, suspended := s.suspended))
  }

  function ResumeTrace(w: World): (t: seq<World>)
    requires w.evidence.Some? && Recorded(w)
    ensures |t| == 6 && t[0] == w
  {
    if w.control.None? then [w, w, w, w, w, w]
    else
      var w1 := if w.control.value.selector.mode.Normal? then w
                else LandControl(w, Landing(Normal, w.runtime.table, w.runtime.approval));
      var w2 := DesiredAt(w1, w.evidence.value.controlPlane.value.desired);
      var w3 := Stable(w2);
      var w4 := ScalingRestored(w3);
      [w, w1, w2, w3, w4, InPhase(w4, Complete)]
  }

  function CleanupTrace(w: World, table: Table): (t: seq<World>)
    requires table in w.tables
    ensures |t| == 3 && t[0] == w
  {
    var w1 := w.(tables := w.tables[table := w.tables[table].(deletionProtected := false)]);
    [w, w1, w1.(tables := w1.tables - {table})]
  }

  // ----- commands as one relation -----

  predicate Accepts(c: Command, w: World) {
    match c
    case Quiesce(approval, newFile) => QuiesceAccepts(w, approval, newFile)
    case Select(table) => SelectAccepts(w, table)
    case Start(table) => StartAccepts(w, table)
    case Promote(table) => PromoteAccepts(w, table)
    case Abort => AbortAccepts(w)
    case Resume => ResumeAccepts(w)
    case Cleanup(table) => CleanupAccepts(w, table)
  }

  /** The operator names a new state file only when no recovery is under way. */
  predicate Permitted(c: Command, w: World) {
    c.Quiesce? && c.newFile ==> Finished(w)
  }

  function Trace(c: Command, w: World): (t: seq<World>)
    requires Accepts(c, w)
    requires c.Cleanup? || (c.Quiesce? && c.newFile) || Recorded(w)
    ensures |t| >= 3 && t[0] == w
  {
    match c
    case Quiesce(approval, newFile) => QuiesceTrace(w, approval, newFile)
    case Select(table) => SelectTrace(w, table)
    case Start(table) => StartTrace(w, table)
    case Promote(table) => PromoteTrace(w, table)
    case Abort => AbortTrace(w)
    case Resume => ResumeTrace(w)
    case Cleanup(table) => CleanupTrace(w, table)
  }

  function Final(c: Command, w: World): World
    requires Accepts(c, w)
    requires c.Cleanup? || (c.Quiesce? && c.newFile) || Recorded(w)
  {
    var t := Trace(c, w); t[|t| - 1]
  }

  /** Both selectors are the same in the two worlds. */
  predicate Unmoved(a: World, b: World) {
    && a.runtime == b.runtime
    && (a.control.Some? <==> b.control.Some?)
    && (a.control.Some? ==> a.control.value.selector == b.control.value.selector)
  }
}
