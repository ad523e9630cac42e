/** What whole disciplined runs keep: the target once chosen, the vetting of that target, the control
    plane's settings, and the tables in use; and what a full recovery and its reverse end with. */
module RecoveryHistory {
  import opened Options
  import opened RecoveryModel
  import opened RecoveryTraces
  import opened RecoveryRuns
  import opened RecoveryProgress

  // ----- the target -----

  predicate SameRecovery(e: Evidence, e': Evidence) {
    && e'.tableBefore == e.tableBefore && e'.approvalBefore == e.approvalBefore
    && e'.approval == e.approval && e'.controlPlane == e.controlPlane
  }

  predicate StartsRecovery(event: Event) {
    event.Run? && event.command.Quiesce? && event.command.newFile
  }

  /** The target passed every table check while both planes were blocked on the original table. */
  predicate Vetted(m: World, e: Evidence) {
    && m.evidence.Some? && SameRecovery(m.evidence.value, e) && m.evidence.value.target.None?
    && e.target.Some? && Usable(m, e.target.value)
    && m.runtime == Blocked(e)
    && (m.control.Some? ==> m.control.value.selector == Blocked(e) && Quiet(m.control.value.service))
  }

  datatype Settings = Settings(minCapacity: nat, maxCapacity: nat, suspended: Suspension)

  function SettingsOf(s: Service): Settings {
    Settings(s.minCapacity, s.maxCapacity, s.suspended)
  }

  /** The capacity range and suspension flags the evidence recorded are the service's own. */
  predicate RecordInForce(w: World) {
    && w.control.Some? && w.evidence.Some? && w.evidence.value.controlPlane.Some?
    && var s := w.evidence.value.controlPlane.value;
       SettingsOf(w.control.value.service) == Settings(s.minCapacity, s.maxCapacity, s.suspended)
  }

  /** The tables either plane selects exist, and so does the one an abort would return to. */
  predicate Backed(w: World) {
    && w.runtime.table in w.tables
    && (w.control.Some? ==> w.control.value.selector.table in w.tables)
    && (w.evidence.Some? && Abortable(w.evidence.value.phase) ==> w.evidence.value.tableBefore in w.tables)
  }

  /** The evidence carries on, a target is only added once vetted, completion puts the recorded
      settings back in force, and no table in use goes away. */
  predicate Carries(w: World, w': World) {
    && (w.evidence.Some? ==>
          && w'.evidence.Some?
          && var e := w.evidence.value; var e' := w'.evidence.value;
             && SameRecovery(e, e')
             && (e.target.Some? ==> e'.target == e.target)
             && (e.target.None? && e'.target.Some? ==> Vetted(w, e')))
    && (w'.control.Some? <==> w.control.Some?)
    && (w.control.Some? && w'.evidence.Some? && w'.evidence.value.phase.Complete? ==>
          || RecordInForce(w')
          || (w.evidence.Some? && w.evidence.value.phase.Complete?
              && SettingsOf(w'.control.value.service) == SettingsOf(w.control.value.service)))
    && (Backed(w) ==> Backed(w'))
  }

  lemma NewRecoveryRecords(w: World, approval: Approval, at: nat)
    requires Consistent(w) && QuiesceAccepts(w, approval, true) && 1 <= at < 9
    ensures var w' := QuiesceTrace(w, approval, true)[at];
            && w'.evidence.Some? && SameRecovery(FreshEvidence(w, approval), w'.evidence.value)
            && w'.evidence.value.target.None? && !w'.evidence.value.phase.Complete?
            && (w'.control.Some? <==> w.control.Some?)
            && (Backed(w) ==> Backed(w'))
  {
  }

  lemma QuiesceCarries(w: World, approval: Approval, at: nat)
    requires Consistent(w) && QuiesceAccepts(w, approval, false) && Recorded(w) && at < 9
    ensures Carries(w, QuiesceTrace(w, approval, false)[at])
  {
  }

  lemma SelectCarries(w: World, table: Table, at: nat)
    requires Consistent(w) && SelectAccepts(w, table) && at < 6
    ensures Carries(w, SelectTrace(w, table)[at])
  {
    var t := SelectTrace(w, table);
    assert Carries(w, t[1]);
    assert Carries(w, t[3]);
    assert Carries(w, t[5]);
  }

  lemma AbortCarries(w: World, at: nat)
    requires Consistent(w) && AbortAccepts(w) && at < 8
    ensures Carries(w, AbortTrace(w)[at])
  {
  }

  lemma ResumeCarries(w: World, at: nat)
    requires Consistent(w) && ResumeAccepts(w) && at < 6
    ensures Carries(w, ResumeTrace(w)[at])
  {
  }

  lemma ForwardCarries(w: World, table: Table, at: nat)
    requires Consistent(w) && at < 4
    ensures StartAccepts(w, table) ==> Carries(w, StartTrace(w, table)[at])
    ensures PromoteAccepts(w, table) ==> Carries(w, PromoteTrace(w, table)[at])
  {
  }

  lemma StepCarries(w: World, event: Event, w': World)
    requires Consistent(w) && Step(w, event, w') && !StartsRecovery(event)
    ensures Carries(w, w')
  {
    match event
    case Run(Quiesce(a, _), at) => QuiesceCarries(w, a, at);
    case Run(Select(t), at) => SelectCarries(w, t, at);
    case Run(Start(t), at) => ForwardCarries(w, t, at);
    case Run(Promote(t), at) => ForwardCarries(w, t, at);
    case Run(Abort, at) => AbortCarries(w, at);
    case Run(Resume, at) => ResumeCarries(w, at);
    case Run(Cleanup(_), _) =>
    case Drift(_) =>
    case Restore(_, _) =>
  }

  /** Once recorded, the target never changes before the next recovery begins. */
  lemma {:induction false} TargetIsPinned(w: World, events: seq<Event>, w': World)
    requires Consistent(w) && w.evidence.Some? && Reaches(w, events, w')
    requires forall i | 0 <= i < |events| :: !StartsRecovery(events[i])
    ensures Consistent(w') && w'.evidence.Some? && SameRecovery(w.evidence.value, w'.evidence.value)
    ensures w.evidence.value.target.Some? ==> w'.evidence.value.target == w.evidence.value.target
    decreases |events|
  {
    if events != [] {
      var m :| Reaches(w, Earlier(events), m) && Step(m, Latest(events), w');
      TargetIsPinned(w, Earlier(events), m);
      StepKeepsConsistent(m, Latest(events), w');
      StepCarries(m, Latest(events), w');
    }
  }

  ghost predicate VettedAlong(w: World, events: seq<Event>, e: Evidence) {
    exists i, m :: 0 <= i <= |events| && Reaches(w, events[..i], m) && Vetted(m, e)
  }

  lemma VettedFurther(w: World, events: seq<Event>, e: Evidence, e': Evidence)
    requires events != [] && VettedAlong(w, Earlier(events), e)
    requires SameRecovery(e, e') && e'.target == e.target
    ensures VettedAlong(w, events, e')
  {
    var i, v :| 0 <= i <= |Earlier(events)| && Reaches(w, Earlier(events)[..i], v) && Vetted(v, e);
    assert Earlier(events)[..i] == events[..i];
    assert Vetted(v, e');
  }

  lemma VettedNow(w: World, events: seq<Event>, m: World, e: Evidence)
    requires events != [] && Reaches(w, Earlier(events), m) && Vetted(m, e)
    ensures VettedAlong(w, events, e)
  {
    assert events[..|events| - 1] == Earlier(events);
  }

  /** Every target a run ever records was vetted earlier in that run, before any selector moved. */
  lemma {:induction false} TargetsWereVetted(w: World, events: seq<Event>, w': World)
    requires Initial(w) && Reaches(w, events, w')
    ensures w'.evidence.Some? && w'.evidence.value.target.Some? ==> VettedAlong(w, events, w'.evidence.value)
    decreases |events|
  {
    if events != [] && w'.evidence.Some? && w'.evidence.value.target.Some? {
      var last, e := Latest(events), w'.evidence.value;
      var m :| Reaches(w, Earlier(events), m) && Step(m, last, w');
      RunsAreSafe(w, Earlier(events), m);
      TargetsWereVetted(w, Earlier(events), m);
      if StartsRecovery(last) {
        if last.at > 0 {
          NewRecoveryRecords(m, last.command.approval, last.at);
        }
        assert m == w';
        VettedFurther(w, events, e, e);
      } else {
        StepCarries(m, last, w');
        if m.evidence.Some? && m.evidence.value.target.Some? {
          VettedFurther(w, events, m.evidence.value, e);
        } else {
          VettedNow(w, events, m, e);
        }
      }
    }
  }

  /** During a recovery each plane selects the original table or the vetted target, nothing else. */
  lemma OnlyRecordedTables(w: World)
    requires Consistent(w) && w.evidence.Some?
    ensures w.runtime.table == w.evidence.value.tableBefore || w.evidence.value.target == Some(w.runtime.table)
    ensures w.control.Some? ==>
              || w.control.value.selector.table == w.evidence.value.tableBefore
              || w.evidence.value.target == Some(w.control.value.selector.table)
  {
  }

  // ----- the control plane's settings -----

  /** The settings are in force, or they are in the record. */
  predicate Kept(w: World, k: Settings) {
    w.control.Some? ==>
      match w.evidence
      case None => SettingsOf(w.control.value.service) == k
      case Some(e) =>
        && e.controlPlane.Some?
        && Settings(e.controlPlane.value.minCapacity, e.controlPlane.value.maxCapacity,
                    e.controlPlane.value.suspended) == k
        && (e.phase.Complete? ==> SettingsOf(w.control.value.service) == k)
  }

  lemma StepKeepsSettings(w: World, event: Event, w': World, k: Settings)
    requires Consistent(w) && Kept(w, k) && Step(w, event, w')
    ensures Kept(w', k) && (w'.control.Some? <==> w.control.Some?)
  {
    if StartsRecovery(event) {
      if event.at > 0 {
        NewRecoveryRecords(w, event.command.approval, event.at);
      }
    } else {
      StepCarries(w, event, w');
    }
  }

  /** Round trip over whole runs, any number of recoveries: whenever a recovery is complete the
      capacity range and the suspension flags are the ones the run started with. */
  lemma {:induction false} RunsRestoreSettings(w: World, events: seq<Event>, w': World)
    requires Initial(w) && w.control.Some? && Reaches(w, events, w')
    ensures w'.control.Some? && Kept(w', SettingsOf(w.control.value.service))
    ensures w'.evidence.Some? && w'.evidence.value.phase.Complete? ==>
              SettingsOf(w'.control.value.service) == SettingsOf(w.control.value.service)
    decreases |events|
  {
    if events != [] {
      var m :| Reaches(w, Earlier(events), m) && Step(m, Latest(events), w');
      RunsRestoreSettings(w, Earlier(events), m);
      RunsAreSafe(w, Earlier(events), m);
      StepKeepsSettings(m, Latest(events), w', SettingsOf(w.control.value.service));
    }
  }

  /** Whatever happened since the recovery recorded the control plane, including quiesce retried after
      it had zeroed the service, resume brings back the count that was recorded first. */
  lemma ResumeRestoresCount(w: World, approval: Approval, at: nat, events: seq<Event>, w': World)
    requires Consistent(w) && w.control.Some? && QuiesceAccepts(w, approval, true) && Finished(w)
    requires 1 <= at < 9 && Reaches(QuiesceTrace(w, approval, true)[at], events, w')
    requires forall i | 0 <= i < |events| :: !StartsRecovery(events[i])
    requires Runnable(Resume, w') && w'.control.Some?
    ensures var s := w.control.value.service;
            var s' := Final(Resume, w').control.value.service;
            s' == Service(s.desired, 0, s.desired, s.minCapacity, s.maxCapacity, s.suspended)
  {
    var m := QuiesceTrace(w, approval, true)[at];
    QuiesceStays(w, approval, true, at);
    TargetIsPinned(m, events, w');
    assert w'.evidence.value.controlPlane == Some(SnapshotOf(w.control.value));
  }

  // ----- tables in use -----

  lemma StepKeepsBacked(w: World, event: Event, w': World)
    requires Consistent(w) && Backed(w) && Step(w, event, w')
    ensures Backed(w')
  {
    if StartsRecovery(event) {
      if event.at > 0 {
        NewRecoveryRecords(w, event.command.approval, event.at);
      }
    } else {
      StepCarries(w, event, w');
    }
  }

  /** Cleanup never deletes a table in use, wherever it falls in a run. */
  lemma {:induction false} RunsKeepTables(w: World, events: seq<Event>, w': World)
    requires Initial(w) && Backed(w) && Reaches(w, events, w')
    ensures Backed(w')
    decreases |events|
  {
    if events != [] {
      var m :| Reaches(w, Earlier(events), m) && Step(m, Latest(events), w');
      RunsKeepTables(w, Earlier(events), m);
      RunsAreSafe(w, Earlier(events), m);
      StepKeepsBacked(m, Latest(events), w');
    }
  }

  // ----- a full recovery and its reverse -----

  function FullRun(w: World, approval: Approval, table: Table): seq<Event> {
    [Run(Quiesce(approval, true), 8), Run(Select(table), 5), Run(Start(table), 3),
     Run(Promote(table), 3), Run(Resume, 5)]
  }

  lemma RunsExtend(w: World, events: seq<Event>, m: World, event: Event, w': World)
    requires Reaches(w, events, m) && Step(m, event, w')
    ensures Reaches(w, events + [event], w')
  {
    assert Earlier(events + [event]) == events;
  }

  lemma FiveSteps(w: World, a: Event, w1: World, b: Event, w2: World, c: Event, w3: World, d: Event, w4: World,
                  e: Event, f: World)
    requires Step(w, a, w1) && Step(w1, b, w2) && Step(w2, c, w3) && Step(w3, d, w4) && Step(w4, e, f)
    ensures Reaches(w, [a, b, c, d, e], f)
  {
    RunsExtend(w, [], w, a, w1);
    RunsExtend(w, [] + [a], w1, b, w2);
    RunsExtend(w, [] + [a] + [b], w2, c, w3);
    RunsExtend(w, [] + [a] + [b] + [c], w3, d, w4);
    RunsExtend(w, [] + [a] + [b] + [c] + [d], w4, e, f);
    assert [a, b, c, d, e] == [] + [a] + [b] + [c] + [d] + [e];
  }

  lemma ToQuiesced(w: World, approval: Approval) returns (w': World)
    requires Consistent(w) && Finished(w) && w.control.Some?
    requires approval.Change? && approval != w.runtime.approval
    ensures Step(w, Run(Quiesce(approval, true), 8), w') && Consistent(w')
    ensures w'.evidence == Some(FreshEvidence(w, approval).(phase := QuiescedPhase))
    ensures w'.runtime == w.runtime.(mode := Quiesced, approval := approval)
    ensures w'.tables == w.tables && w'.dataKey == w.dataKey && w'.control.Some?
  {
    w' := QuiesceTrace(w, approval, true)[8];
    QuiesceStays(w, approval, true, 8);
  }

  lemma ToSelected(w: World, table: Table) returns (w': World)
    requires Consistent(w) && w.control.Some? && w.evidence.Some? && w.evidence.value.phase.QuiescedPhase?
    requires w.runtime == Blocked(w.evidence.value)
    requires Usable(w, table) && table != w.evidence.value.tableBefore
    ensures Step(w, Run(Select(table), 5), w') && Consistent(w')
    ensures w'.evidence == Some(w.evidence.value.(phase := SelectedPhase, target := Some(table)))
    ensures w'.runtime == Chosen(w'.evidence.value) && w'.control.Some?
    ensures w'.tables == w.tables && w'.dataKey == w.dataKey
  {
    w' := SelectTrace(w, table)[5];
    SelectStays(w, table, 5);
  }

  lemma ToPromoted(w: World, table: Table) returns (m: World, w': World)
    requires Consistent(w) && w.control.Some? && w.evidence.Some? && w.evidence.value.phase.SelectedPhase?
    requires w.evidence.value.target == Some(table) && w.runtime == Chosen(w.evidence.value)
    ensures Step(w, Run(Start(table), 3), m) && Step(m, Run(Promote(table), 3), w') && Consistent(w')
    ensures w'.evidence == Some(w.evidence.value.(phase := Promoted))
    ensures w'.tables == w.tables && w'.dataKey == w.dataKey && w'.control.Some?
  {
    m := StartTrace(w, table)[3];
    StartStays(w, table, 3);
    w' := PromoteTrace(m, table)[3];
    PromoteStays(m, table, 3);
  }

  lemma ToComplete(w: World) returns (w': World)
    requires Consistent(w) && w.control.Some? && Resumable(w) && w.evidence.value.phase.Promoted?
    ensures Step(w, Run(Resume, 5), w') && Consistent(w')
    ensures w'.runtime == Promotion(w.evidence.value)
    ensures w'.evidence == Some(w.evidence.value.(phase := Complete))
    ensures w'.tables == w.tables && w'.dataKey == w.dataKey
    ensures var s := w.evidence.value.controlPlane.value;
            w'.control == Some(ControlPlane(w'.runtime,
              Service(s.desired, 0, s.desired, s.minCapacity, s.maxCapacity, s.suspended)))
  {
    w' := ResumeTrace(w)[5];
    ResumeStays(w, 5);
  }

  /** From any finished recovery, the five commands run one after another are each accepted and leave
      both planes normal on the target, with the control plane's settings and count as before. */
  lemma FullRecovery(w: World, approval: Approval, table: Table) returns (f: World)
    requires Consistent(w) && Finished(w) && w.control.Some? && w.control.value.service.desired >= 1
    requires approval.Change? && approval != w.runtime.approval
    requires Usable(w, table) && table != w.runtime.table
    ensures Reaches(w, FullRun(w, approval, table), f) && Consistent(f) && Finished(f)
    ensures f.runtime == Selector(Normal, table, approval)
    ensures f.tables == w.tables && f.dataKey == w.dataKey
    ensures var s := w.control.value.service;
            f.control == Some(ControlPlane(f.runtime,
              Service(s.desired, 0, s.desired, s.minCapacity, s.maxCapacity, s.suspended)))
  {
    var w1 := ToQuiesced(w, approval);
    var w2 := ToSelected(w1, table);
    var w3, w4 := ToPromoted(w2, table);
    f := ToComplete(w4);
    FiveSteps(w, Run(Quiesce(approval, true), 8), w1, Run(Select(table), 5), w2, Run(Start(table), 3), w3,
              Run(Promote(table), 3), w4, Run(Resume, 5), f);
  }

  /** Recovering to a restore and then back returns both planes to the original table. */
  lemma ThereAndBack(w: World, out: Approval, table: Table, back: Approval) returns (f: World)
    requires Consistent(w) && Finished(w) && w.control.Some? && w.control.value.service.desired >= 1
    requires out.Change? && out != w.runtime.approval && back.Change? && back != out
    requires Usable(w, table) && table != w.runtime.table && Usable(w, w.runtime.table)
    ensures exists m :: Reaches(w, FullRun(w, out, table), m)
                        && Reaches(m, FullRun(m, back, w.runtime.table), f)
    ensures f.runtime == Selector(Normal, w.runtime.table, back) && f.control.Some?
    ensures f.control.value.selector == f.runtime
    ensures SettingsOf(f.control.value.service) == SettingsOf(w.control.value.service)
    ensures f.control.value.service.desired == w.control.value.service.desired
  {
    var m := FullRecovery(w, out, table);
    f := FullRecovery(m, back, w.runtime.table);
  }
}
