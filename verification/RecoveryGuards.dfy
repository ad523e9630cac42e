/** The guards each stack runs before it lets an update through, checked against the commands: a command
    that starts on settled stacks is never refused, while a command that overlaps an update still in
    flight can strand both planes although each guard admits every update. */
module RecoveryGuards {
  import opened Options
  import opened RecoveryModel
  import opened RecoveryTraces
  import opened RecoveryRuns
  import opened RecoveryProgress

  predicate BlockedMode(m: Mode) { m.Quiesced? || m.Selected? }

  /** The control-plane selector that authorizes a runtime transition. */
  function ExpectedControl(before: Selector, after: Selector): Selector {
    if before.mode.Selected? && after.mode.Quiesced? then Selector(Selected, before.table, before.approval)
    else if before.mode.Validation? && after.mode.Normal? then Selector(Selected, after.table, after.approval)
    else if before.mode.Quiesced? && after.mode.Normal? then Selector(Quiesced, after.table, before.approval)
    else Selector(if after.mode.Validation? then Selected else after.mode, after.table, after.approval)
  }

  /** The AgentCore guard, once the endpoints are gone and the quiescence interval has passed. */
  predicate RuntimeGuardAdmits(before: Selector, after: Selector, control: Option<ControlPlane>) {
    && !after.table.Foreign?
    && RuntimeTransition(before.mode, after.mode)
    && var changed := after.table != before.table;
       var move := (before.mode, after.mode);
       && (changed ==> move in {(Quiesced, Selected), (Selected, Quiesced)})
       && (move == (Quiesced, Selected) ==> changed)
       && (if move == (Normal, Quiesced) then after.approval.Change? && after.approval != before.approval
           else after.mode in {Selected, Validation} ==> after.approval.Change? && after.approval == before.approval)
       && (control.Some? ==>
             && (BlockedMode(after.mode) || BlockedMode(before.mode) || before.mode.Validation?
                 ==> Quiet(control.value.service))
             && control.value.selector == ExpectedControl(before, after))
  }

  /** The runtime selector that authorizes a control-plane transition. */
  function ExpectedRuntime(before: Selector, after: Selector): Selector {
    var move := (before.mode, after.mode);
    if move == (Normal, Quiesced) then Selector(Normal, before.table, before.approval)
    else if move == (Quiesced, Selected) then Selector(Quiesced, before.table, after.approval)
    else if move == (Selected, Quiesced) then Selector(Quiesced, after.table, after.approval)
    else Selector(after.mode, after.table, after.approval)
  }

  predicate ControlGuardAdmits(before: Selector, after: Selector, service: Service, runtime: Selector) {
    && !after.table.Foreign?
    && ControlTransition(before.mode, after.mode)
    && var move := (before.mode, after.mode);
       var flips := move in {(Quiesced, Selected), (Selected, Quiesced)};
       && (after.table != before.table <==> flips)
       && (if move == (Normal, Quiesced) then after.approval.Change? && after.approval != before.approval
           else if BlockedMode(after.mode) || move == (Selected, Normal) then after.approval == before.approval
           else true)
       && (BlockedMode(after.mode) || BlockedMode(before.mode) ==> Quiet(service))
       && runtime == ExpectedRuntime(before, after)
  }

  /** Every selector that changes between two worlds changes with its guard's consent. */
  predicate Admitted(a: World, b: World) {
    && (b.runtime != a.runtime ==> RuntimeGuardAdmits(a.runtime, b.runtime, a.control))
    && (a.control.Some? && b.control.Some? && b.control.value.selector != a.control.value.selector ==>
          ControlGuardAdmits(a.control.value.selector, b.control.value.selector, a.control.value.service, a.runtime))
  }

  lemma QuiesceIsAdmitted(w: World, approval: Approval, newFile: bool, at: nat)
    requires Consistent(w) && Runnable(Quiesce(approval, newFile), w) && (newFile ==> Finished(w)) && at < 8
    ensures var t := QuiesceTrace(w, approval, newFile); Admitted(t[at], t[at + 1])
  {
  }

  lemma SelectIsAdmitted(w: World, table: Table, at: nat)
    requires Consistent(w) && Runnable(Select(table), w) && at < 5
    ensures var t := SelectTrace(w, table); Admitted(t[at], t[at + 1])
  {
  }

  lemma AbortIsAdmitted(w: World, at: nat)
    requires Consistent(w) && Runnable(Abort, w) && at < 7
    ensures var t := AbortTrace(w); Admitted(t[at], t[at + 1])
  {
  }

  lemma ResumeIsAdmitted(w: World, at: nat)
    requires Consistent(w) && Runnable(Resume, w) && at < 5
    ensures var t := ResumeTrace(w); Admitted(t[at], t[at + 1])
  {
  }

  /** Neither guard ever refuses an update of a command that started on settled stacks. */
  lemma GuardsAdmitEveryUpdate(c: Command, w: World, at: nat)
    requires Consistent(w) && Runnable(c, w) && Permitted(c, w) && at < |Trace(c, w)| - 1
    ensures Admitted(Trace(c, w)[at], Trace(c, w)[at + 1])
  {
    match c
    case Quiesce(a, n) => QuiesceIsAdmitted(w, a, n, at);
    case Select(t) => SelectIsAdmitted(w, t, at);
    case Start(t) =>
    case Promote(t) =>
    case Abort => AbortIsAdmitted(w, at);
    case Resume => ResumeIsAdmitted(w, at);
    case Cleanup(t) =>
  }

  // ----- an abort that overlaps an update in flight -----

  /** A command that is accepted and is not turned away by a later check of the control plane. */
  predicate Proceeds(c: Command, w: World) {
    && Accepts(c, w) && Permitted(c, w)
    && (c.Select? && w.control.Some? ==>
          SelectControlMatches(w.evidence.value, c.table, w.runtime.mode, w.control.value))
  }

  /** Select issues the runtime update and dies.  Before the update lands, abort starts: it still reads
      the runtime as quiesced, so it reverses only the control plane.  Then the update lands. */
  function Overlapped(w: World, table: Table): World
    requires Runnable(Select(table), w)
    requires AbortAccepts(SelectTrace(w, table)[3]) && Recorded(SelectTrace(w, table)[3])
  {
    var s := SelectTrace(w, table);
    LandRuntime(AbortTrace(s[3])[5], s[4].runtime)
  }

  /** Both guards consent to every update of that overlap. */
  lemma OverlapIsAdmitted(w: World, table: Table)
    requires Consistent(w) && Runnable(Select(table), w) && w.runtime.mode.Quiesced?
    ensures AbortAccepts(SelectTrace(w, table)[3]) && Recorded(SelectTrace(w, table)[3])
    ensures var s := SelectTrace(w, table);
            && Admitted(s[3], s[4])
            && Admitted(AbortTrace(s[3])[4], AbortTrace(s[3])[5])
  {
    SelectStays(w, table, 3);
    AbortRecovers(SelectTrace(w, table)[3]);
    SelectIsAdmitted(w, table, 3);
    AbortIsAdmitted(SelectTrace(w, table)[3], 4);
  }

  /** From every world in which select can run its course, that overlap strands the recovery: no
      command gets past its checks any more, and nothing serves. */
  lemma OverlappedAbortStrands(w: World, table: Table, c: Command)
    requires Consistent(w) && Runnable(Select(table), w) && w.control.Some? && w.runtime.mode.Quiesced?
    ensures AbortAccepts(SelectTrace(w, table)[3]) && Recorded(SelectTrace(w, table)[3])
    ensures var o := Overlapped(w, table); !Proceeds(c, o) && !Serving(o.runtime)
  {
    OverlapIsAdmitted(w, table);
    var e := SelectTrace(w, table)[3].evidence.value;
    var o := Overlapped(w, table);
    assert o.evidence == Some(e) && o.runtime == Chosen(e) && o.control.value.selector == Blocked(e);
    NoCommandFollows(o, e, c);
  }

  /** A selected runtime beside a control plane that is still blocked is where no command can start. */
  lemma NoCommandFollows(o: World, e: Evidence, c: Command)
    requires o.evidence == Some(e) && e.target.Some? && e.phase in {Selecting, ControlPlaneSelected, SelectedPhase}
    requires o.control.Some? && o.runtime == Chosen(e) && o.control.value.selector == Blocked(e)
    ensures !Proceeds(c, o)
  {
  }

  /** Nor can that abort finish: the AgentCore guard refuses the update it has left to issue. */
  lemma OverlappedAbortIsRefused(w: World, table: Table)
    requires Consistent(w) && Runnable(Select(table), w) && w.control.Some? && w.runtime.mode.Quiesced?
    ensures AbortAccepts(SelectTrace(w, table)[3]) && Recorded(SelectTrace(w, table)[3])
    ensures var o := Overlapped(w, table);
            o.evidence.Some? && !RuntimeGuardAdmits(o.runtime, Before(o.evidence.value), o.control)
  {
    OverlapIsAdmitted(w, table);
  }

  /** Waiting for the update to land before running abort is all it takes. */
  lemma SettledAbortRecovers(w: World, table: Table, landed: bool)
    requires Consistent(w) && Runnable(Select(table), w) && w.runtime.mode.Quiesced?
    ensures var m := SelectTrace(w, table)[if landed then 4 else 3];
            && AbortAccepts(m) && Recorded(m)
            && Final(Abort, m).runtime == Before(w.evidence.value)
  {
    SelectStays(w, table, if landed then 4 else 3);
    AbortRecovers(SelectTrace(w, table)[if landed then 4 else 3]);
  }

  /** Quiesce issues the runtime update and dies.  Abort still reads the runtime as normal, so it issues no
      update and reports success; then the update lands. */
  lemma OverlappedQuiesceStrands(w: World, approval: Approval, newFile: bool, c: Command)
    requires Consistent(w) && Runnable(Quiesce(approval, newFile), w) && Permitted(Quiesce(approval, newFile), w)
    requires w.control.Some? && w.runtime.mode.Normal?
    ensures var s := QuiesceTrace(w, approval, newFile);
            && AbortAccepts(s[6]) && Recorded(s[6]) && Admitted(s[6], s[7])
            && (forall at :: 0 <= at < 8 ==> Unmoved(s[6], AbortTrace(s[6])[at]))
            && var f := Final(Abort, s[6]); var o := LandRuntime(f, s[7].runtime);
               && f.evidence.Some? && f.evidence.value.phase.Aborted?
               && !Proceeds(c, o) && !Serving(o.runtime)
  {
    QuiesceStays(w, approval, newFile, 6);
    QuiesceIsAdmitted(w, approval, newFile, 6);
    AbortRecovers(QuiesceTrace(w, approval, newFile)[6]);
  }

  /** Select issues the control-plane update and dies.  Abort finds the control plane blocked, returns the
      runtime and completes; then the update lands, on a table that resume refuses forever. */
  lemma OverlappedSelectStrands(w: World, table: Table, c: Command)
    requires Consistent(w) && Runnable(Select(table), w)
    requires w.control.Some? && w.control.value.selector.mode.Quiesced?
    ensures var s := SelectTrace(w, table);
            && AbortAccepts(s[1]) && Recorded(s[1]) && Admitted(s[1], s[2]) && s[2].control.Some?
            && var f := Final(Abort, s[1]);
               && f.evidence.Some? && f.evidence.value.phase.Aborted? && f.control.Some?
               && !Proceeds(c, LandControl(f, s[2].control.value.selector))
  {
    SelectStays(w, table, 1);
    SelectIsAdmitted(w, table, 1);
    AbortRecovers(SelectTrace(w, table)[1]);
    var s := SelectTrace(w, table);
    var e := s[1].evidence.value;
    assert s[2].control.value.selector == Chosen(e);
    NothingTakesItBack(LandControl(Final(Abort, s[1]), Chosen(e)), e.(phase := Aborted), c);
  }

  /** A control plane that selects the target after abort is where no command can start. */
  lemma NothingTakesItBack(o: World, e: Evidence, c: Command)
    requires o.evidence == Some(e) && e.phase.Aborted? && e.target.Some? && e.target.value != e.tableBefore
    requires o.control.Some? && o.runtime == Before(e) && o.control.value.selector == Chosen(e)
    ensures !Proceeds(c, o)
  {
  }
}
