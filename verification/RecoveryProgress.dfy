/** What a disciplined run can always still do: undo before validation, go forward after it, retry
    after any interruption, and give the control plane its settings back. */
module RecoveryProgress {
  import opened Options
  import opened RecoveryModel
  import opened RecoveryTraces
  import opened RecoveryRuns

  // ----- the five orderings -----

  lemma OnlyFiveOrderings(w: World)
    requires Consistent(w) && w.control.Some? && w.evidence.Some?
    requires Abortable(w.evidence.value.phase) && !w.runtime.mode.Validation?
    ensures SafeOrdering(w.runtime.mode, w.control.value.selector.mode)
  {
  }

  /** A run that ends in each of the five orderings, from any initial world with a control plane. */
  function WitnessRun(runtime: Mode, control: Mode, table: Table, approval: Approval): seq<Event> {
    if control.Normal? then [Run(Quiesce(approval, true), 1)]
    else if runtime.Normal? then [Run(Quiesce(approval, true), 5)]
    else if control.Quiesced? then [Run(Quiesce(approval, true), 8)]
    else [Run(Quiesce(approval, true), 8), Run(Select(table), if runtime.Quiesced? then 3 else 4)]
  }

  lemma EveryOrderingOccurs(w: World, runtime: Mode, control: Mode, table: Table, approval: Approval) returns (w': World)
    requires Initial(w) && w.control.Some? && SafeOrdering(runtime, control)
    requires approval.Change? && approval != w.runtime.approval
    requires Usable(w, table) && table != w.runtime.table
    ensures Reaches(w, WitnessRun(runtime, control, table, approval), w')
    ensures w'.evidence.Some? && Abortable(w'.evidence.value.phase)
    ensures w'.control.Some? && w'.runtime.mode == runtime && w'.control.value.selector.mode == control
  {
    if control.Normal? {
      w' := QuiescedTo(w, approval, 1);
    } else if runtime.Normal? {
      w' := QuiescedTo(w, approval, 5);
    } else if control.Quiesced? {
      w' := QuiescedTo(w, approval, 8);
    } else {
      w' := SelectionOccurs(w, if runtime.Quiesced? then 3 else 4, table, approval);
    }
  }

  lemma SelectionOccurs(w: World, at: nat, table: Table, approval: Approval) returns (w': World)
    requires Initial(w) && w.control.Some? && approval.Change? && approval != w.runtime.approval
    requires Usable(w, table) && table != w.runtime.table && at in {3, 4}
    ensures Reaches(w, [Run(Quiesce(approval, true), 8), Run(Select(table), at)], w')
    ensures w'.evidence.Some? && w'.evidence.value.phase.ControlPlaneSelected?
    ensures w'.control.Some? && w'.control.value.selector.mode.Selected?
    ensures w'.runtime.mode == if at == 3 then Quiesced else Selected
  {
    var m := QuiescedTo(w, approval, 8);
    var quiesce, select := Run(Quiesce(approval, true), 8), Run(Select(table), at);
    w' := SelectedTo(w, [quiesce], m, table, at);
    assert [quiesce] + [select] == [quiesce, select];
  }

  /** Quiesce has just begun, or only the runtime is left to block, or it has ended. */
  lemma QuiescedTo(w: World, approval: Approval, at: nat) returns (w': World)
    requires Initial(w) && w.control.Some? && approval.Change? && approval != w.runtime.approval
    requires at in {1, 5, 8}
    ensures Reaches(w, [Run(Quiesce(approval, true), at)], w')
    ensures w'.control.Some? && w'.evidence.Some? && Recorded(w') && w'.evidence.value.approval == approval
    ensures w'.evidence.value.tableBefore == w.runtime.table
    ensures w'.evidence.value.phase == if at == 8 then QuiescedPhase else Quiescing
    ensures w'.tables == w.tables && w'.dataKey == w.dataKey
    ensures var e := w'.evidence.value;
            && w'.runtime == (if at == 8 then Blocked(e) else Before(e))
            && w'.control.value.selector == (if at == 1 then Before(e) else Blocked(e))
  {
    w' := QuiesceTrace(w, approval, true)[at];
    ReachesByOne(w, Run(Quiesce(approval, true), at), w');
  }

  /** Select has moved the control plane, or both planes. */
  lemma SelectedTo(start: World, events: seq<Event>, w: World, table: Table, at: nat) returns (w': World)
    requires Reaches(start, events, w)
    requires w.evidence.Some? && w.evidence.value.phase.QuiescedPhase? && w.control.Some? && Recorded(w)
    requires w.runtime == Blocked(w.evidence.value) == w.control.value.selector
    requires Usable(w, table) && table != w.evidence.value.tableBefore && at in {3, 4}
    ensures Reaches(start, events + [Run(Select(table), at)], w')
    ensures w'.evidence.Some? && w'.evidence.value.phase.ControlPlaneSelected?
    ensures w'.control.Some? && w'.control.value.selector.mode.Selected?
    ensures w'.runtime.mode == if at == 3 then Quiesced else Selected
  {
    w' := SelectTrace(w, table)[at];
    assert Step(w, Run(Select(table), at), w');
    assert Earlier(events + [Run(Select(table), at)]) == events;
  }

  lemma ReachesByOne(w: World, event: Event, w': World)
    requires Step(w, event, w')
    ensures Reaches(w, [event], w')
  {
    assert Reaches(w, [], w) && Earlier([event]) == [];
  }

  /** Select's later look at the control plane, the ordering check included, never turns a run away. */
  lemma SelectIsNeverTurnedAway(w: World, table: Table)
    requires Consistent(w) && SelectAccepts(w, table) && w.control.Some?
    ensures var m := SelectTrace(w, table)[1];
            m.evidence.Some? && SelectControlMatches(m.evidence.value, table, w.runtime.mode, m.control.value)
  {
  }

  // ----- undo before validation -----

  /** In the phases that allow it, abort is refused exactly when validation has begun. */
  lemma AbortRefusedOnlyByValidation(w: World)
    requires Consistent(w) && w.evidence.Some? && Abortable(w.evidence.value.phase)
    ensures AbortAccepts(w) <==> !w.runtime.mode.Validation?
  {
  }

  lemma AbortRecovers(w: World)
    requires Consistent(w) && w.evidence.Some?
    requires Abortable(w.evidence.value.phase) && !w.runtime.mode.Validation?
    ensures AbortAccepts(w) && Recorded(w)
    ensures var e := w.evidence.value; var f := Final(Abort, w);
            && f.runtime == Before(e)
            && f.evidence == Some(e.(phase := Aborted))
            && (w.control.Some? ==> Quiet(f.control.value.service) && f.control.value.selector in {Before(e), Blocked(e)})
  {
  }

  /** How far the service is from being stopped: scaling on, tasks wanted, tasks left, none.  Tasks that
      start or stop on their own never take it further away. */
  function ServiceRank(s: Service): nat {
    if s.suspended != ALL_SUSPENDED || s.minCapacity != 0 then 3
    else if s.desired != 0 then 2
    else if s.pending != 0 || s.running != 0 then 1
    else 0
  }

  /** How much abort still has to do. */
  function AbortRank(w: World): nat {
    (if w.evidence.Some? && w.evidence.value.phase.Aborted? then 0 else 1)
    + (match w.runtime.mode case Selected => 2 case Quiesced => 1 case _ => 0)
    + (if w.control.None? then 0
       else (if w.control.value.selector.mode.Selected? then 1 else 0) + ServiceRank(w.control.value.service))
  }

  lemma AbortWritesDescend(w: World, at: nat)
    requires Consistent(w) && AbortAccepts(w) && at < 7
    ensures var t := AbortTrace(w);
            t[at + 1] == t[at] || AbortRank(t[at + 1]) < AbortRank(t[at])
  {
  }

  lemma {:induction false} AbortDescends(w: World, at: nat)
    requires Consistent(w) && AbortAccepts(w) && at < 8
    ensures var t := AbortTrace(w); t[at] == w || AbortRank(t[at]) < AbortRank(w)
    decreases at
  {
    if at > 0 {
      AbortDescends(w, at - 1);
      AbortWritesDescend(w, at - 1);
    }
  }

  /** Tasks may have started or stopped, and autoscaling acted, since this world. */
  predicate Drifts(w: World, w': World) {
    || w' == w
    || (w.control.Some? && w'.control.Some? && w' == WithService(w, w'.control.value.service)
        && ServiceDrifts(w.control.value.service, w'.control.value.service))
  }

  lemma DriftKeepsAborting(w: World, w': World)
    requires Consistent(w) && AbortAccepts(w) && Drifts(w, w')
    ensures Consistent(w') && AbortAccepts(w') && AbortRank(w') <= AbortRank(w)
  {
    assert Consistent(w') && w'.evidence == w.evidence && w'.runtime == w.runtime;
    AbortRecovers(w');
  }

  /** One abort that died after this entry, and the world the next one finds. */
  datatype Try = Try(at: nat, found: World)

  /** The worlds left by successive aborts, each stopped after the given entry, with drift in between. */
  ghost predicate Attempts(w: World, tries: seq<Try>, w': World)
    decreases |tries|
  {
    if tries == [] then w' == w
    else
      var m := tries[0];
      && AbortAccepts(w) && m.at < 7
      && AbortTrace(w)[m.at] != w && Drifts(AbortTrace(w)[m.at], m.found)
      && Attempts(m.found, tries[1..], w')
  }

  /** However often abort dies, and whatever tasks do meanwhile, it stays acceptable, and it cannot die
      forever: each attempt that made any progress used up some of a bounded budget. */
  lemma {:induction false} AbortAttemptsAreBounded(w: World, tries: seq<Try>, w': World)
    requires Consistent(w) && AbortAccepts(w) && Attempts(w, tries, w')
    ensures AbortAccepts(w')
    ensures |tries| <= AbortRank(w) <= 7
    decreases |tries|
  {
    if tries != [] {
      var at, found := tries[0].at, tries[0].found;
      AbortStays(w, at);
      AbortDescends(w, at);
      AbortStaysAbortable(w, at);
      DriftKeepsAborting(AbortTrace(w)[at], found);
      AbortAttemptsAreBounded(found, tries[1..], w');
    }
  }

  lemma AbortStaysAbortable(w: World, at: nat)
    requires Consistent(w) && AbortAccepts(w) && at < 7
    ensures AbortAccepts(AbortTrace(w)[at])
  {
    var m := AbortTrace(w)[at];
    AbortStays(w, at);
    assert m.evidence == w.evidence && !m.runtime.mode.Validation?;
    AbortRecovers(m);
  }

  // ----- forward after validation began -----

  predicate Resumable(w: World) {
    w.evidence.Some? && (w.evidence.value.controlPlane.Some? ==> w.evidence.value.controlPlane.value.desired >= 1)
  }

  /** The command that moves a recovery on once validation has begun. */
  function Forward(w: World): Option<Command>
    requires w.evidence.Some?
  {
    var e := w.evidence.value;
    match e.phase
    case StartingValidation => if e.target.Some? then Some(Start(e.target.value)) else None
    case ValidationPhase | Promoting => if e.target.Some? then Some(Promote(e.target.value)) else None
    case Promoted | Aborted => Some(Resume)
    case _ => None
  }

  /** After promote or abort, resume is refused exactly when no task was recorded. */
  lemma ResumeRefusedOnlyByCount(w: World)
    requires Consistent(w) && w.evidence.Some? && w.evidence.value.phase in {Promoted, Aborted}
    ensures ResumeAccepts(w) <==> Resumable(w)
  {
  }

  predicate Beyond(w: World) {
    && w.evidence.Some?
    && (w.evidence.value.phase in {ValidationPhase, Promoting, Promoted}
        || (w.evidence.value.phase.StartingValidation? && w.runtime.mode.Validation?))
  }

  function ForwardRank(p: Phase): nat {
    match p
    case StartingValidation => 3
    case ValidationPhase => 2
    case Promoting => 2
    case Promoted => 1
    case Aborted => 1
    case _ => 0
  }

  /** From any reachable world past the start of validation, until the recovery is over, the next forward
      command is accepted, and completing it brings the recovery strictly closer to its end. */
  lemma ForwardAdvances(w: World)
    requires Consistent(w) && Beyond(w) && Resumable(w) && !Finished(w)
    ensures Recorded(w) && Forward(w).Some? && Accepts(Forward(w).value, w) && Permitted(Forward(w).value, w)
    ensures var f := Final(Forward(w).value, w);
            && Consistent(f)
            && f.evidence.Some? && f.evidence.value.target == w.evidence.value.target
            && f.evidence.value.controlPlane == w.evidence.value.controlPlane
            && ForwardRank(f.evidence.value.phase) < ForwardRank(w.evidence.value.phase)
            && (Beyond(f) || f.evidence.value.phase.Complete?)
            && (f.control.Some? <==> w.control.Some?)
  {
    var c := Forward(w).value;
    assert Accepts(c, w);
    StepKeepsConsistent(w, Run(c, |Trace(c, w)| - 1), Final(c, w));
  }

  /** The end of the forward commands. */
  function Completed(w: World): World
    requires Consistent(w) && Beyond(w) && Resumable(w) && !Finished(w)
    decreases ForwardRank(w.evidence.value.phase)
  {
    ForwardAdvances(w);
    var f := Final(Forward(w).value, w);
    if Finished(f) then f else Completed(f)
  }

  /** The forward commands end the recovery on its target, and a control plane gets its recorded count and
      settings back. */
  lemma {:induction false} ForwardCompletes(w: World)
    requires Consistent(w) && Beyond(w) && Resumable(w) && !Finished(w)
    ensures var f := Completed(w); var target := w.evidence.value.target;
            && f.evidence.Some? && Finished(f)
            && target.Some? && f.runtime.mode.Normal? && f.runtime.table == target.value
            && (f.control.Some? <==> w.control.Some?)
    ensures w.control.Some? ==>
              var f := Completed(w); var s := w.evidence.value.controlPlane.value;
              && f.evidence.value.phase.Complete? && f.control.value.selector == f.runtime
              && f.control.value.service ==
                   Service(s.desired, 0, s.desired, s.minCapacity, s.maxCapacity, s.suspended)
    decreases ForwardRank(w.evidence.value.phase)
  {
    ForwardAdvances(w);
    var f := Final(Forward(w).value, w);
    if !Finished(f) {
      ForwardCompletes(f);
    }
  }

  // ----- retry after an interruption -----

  /** The command the operator repeats: quiesce finds its state file once the file is written. */
  function Retry(c: Command, at: nat): Command {
    if c.Quiesce? && at > 0 then c.(newFile := false) else c
  }

  /** The trace of a command is defined: it makes its own record or finds one. */
  predicate Runnable(c: Command, w: World) {
    Accepts(c, w) && (c.Cleanup? || (c.Quiesce? && c.newFile) || Recorded(w))
  }

  predicate EndsAs(c: Command, w: World, f: World) {
    Runnable(c, w) && Final(c, w) == f
  }

  lemma QuiesceRetryEndsTheSame(w: World, approval: Approval, newFile: bool, at: nat)
    requires Consistent(w) && Runnable(Quiesce(approval, newFile), w) && at < 8
    ensures EndsAs(Quiesce(approval, newFile && at == 0), QuiesceTrace(w, approval, newFile)[at],
                   QuiesceTrace(w, approval, newFile)[8])
  {
  }

  lemma SelectRetryEndsTheSame(w: World, table: Table, at: nat)
    requires Consistent(w) && Runnable(Select(table), w) && at < 5
    ensures EndsAs(Select(table), SelectTrace(w, table)[at], SelectTrace(w, table)[5])
  {
  }

  lemma AbortRetryEndsTheSame(w: World, at: nat)
    requires Consistent(w) && Runnable(Abort, w) && at < 7
    ensures EndsAs(Abort, AbortTrace(w)[at], AbortTrace(w)[7])
  {
    AbortStaysAbortable(w, at);
  }

  lemma ResumeRetryEndsTheSame(w: World, at: nat)
    requires Consistent(w) && Runnable(Resume, w) && at < 5
    ensures EndsAs(Resume, ResumeTrace(w)[at], ResumeTrace(w)[5])
  {
  }

  /** A command that dies after any of its writes is accepted again and then ends where the
      uninterrupted command would have. */
  lemma RetryEndsTheSame(c: Command, w: World, at: nat)
    requires Consistent(w) && Runnable(c, w) && at < |Trace(c, w)| - 1
    ensures EndsAs(Retry(c, at), Trace(c, w)[at], Final(c, w))
  {
    match c
    case Quiesce(a, n) => QuiesceRetryEndsTheSame(w, a, n, at);
    case Select(t) => SelectRetryEndsTheSame(w, t, at);
    case Start(t) =>
    case Promote(t) =>
    case Abort => AbortRetryEndsTheSame(w, at);
    case Resume => ResumeRetryEndsTheSame(w, at);
    case Cleanup(t) =>
  }

  /** Where the update from one world to the next leaves the first when it is rolled back. */
  function Undone(w: World, next: World): World {
    if w.control.Some? && next.control.Some? then RolledBack(w, next.control.value.selector) else w
  }

  /** Only the update that quiesce makes of the control plane changes anything when it is rolled back: the
      template turns the service on again. */
  lemma RollbackRestarts(c: Command, w: World, at: nat)
    requires Consistent(w) && Runnable(c, w) && Permitted(c, w) && at < |Trace(c, w)| - 1
    requires !c.Quiesce? || at != 4
    ensures Undone(Trace(c, w)[at], Trace(c, w)[at + 1]) == Trace(c, w)[at]
  {
    if c.Abort? {
      AbortStays(w, at);
    }
  }

  lemma QuiesceRollbackEndsTheSame(w: World, approval: Approval, newFile: bool)
    requires Consistent(w) && Runnable(Quiesce(approval, newFile), w) && (newFile ==> Finished(w))
    ensures var t := QuiesceTrace(w, approval, newFile);
            && Consistent(Undone(t[4], t[5]))
            && EndsAs(Quiesce(approval, false), Undone(t[4], t[5]), t[8])
  {
    QuiesceStays(w, approval, newFile, 4);
  }

  /** A command whose update is rolled back, with what the template makes of the service then, is accepted
      again and still ends where the uninterrupted command would have. */
  lemma RollbackEndsTheSame(c: Command, w: World, at: nat)
    requires Consistent(w) && Runnable(c, w) && Permitted(c, w) && at < |Trace(c, w)| - 1
    ensures var again := Undone(Trace(c, w)[at], Trace(c, w)[at + 1]);
            Consistent(again) && EndsAs(Retry(c, at), again, Final(c, w))
  {
    if c.Quiesce? && at == 4 {
      QuiesceRollbackEndsTheSame(w, c.approval, c.newFile);
    } else {
      RollbackRestarts(c, w, at);
      StepKeepsConsistent(w, Run(c, at), Trace(c, w)[at]);
      RetryEndsTheSame(c, w, at);
    }
  }

  /** Once a command's selector updates have landed, repeating it has none left to issue. */
  lemma RetryHasNothingToIssue(c: Command, w: World, at: nat)
    requires Consistent(w) && Runnable(c, w) && at < |Trace(c, w)| - 1
    requires Unmoved(Trace(c, w)[at], Final(c, w))
    ensures var again := Trace(c, w)[at];
            Runnable(Retry(c, at), again) && Unmoved(again, Final(Retry(c, at), again))
  {
    RetryEndsTheSame(c, w, at);
  }

  /** Once the recovery has its record, tasks starting or stopping and autoscaling acting between two
      attempts change nothing about where the command ends. */
  lemma DriftEndsTheSame(c: Command, w: World, s: Service)
    requires Consistent(w) && Runnable(c, w) && !(c.Quiesce? && c.newFile)
    requires w.control.Some? && ServiceDrifts(w.control.value.service, s)
    requires !c.Cleanup?
    ensures EndsAs(c, WithService(w, s), Final(c, w))
  {
  }

  /** A command ends the same from worlds that differ in task counts only. */
  lemma TasksEndTheSame(c: Command, a: World, b: World)
    requires SameButTasks(a, b) && Consistent(b) && Runnable(c, b) && !(c.Quiesce? && c.newFile) && !c.Cleanup?
    ensures Consistent(a) && EndsAs(c, a, Final(c, b))
  {
    TasksKeepConsistent(a, b);
    if c.Quiesce? {
      QuiesceEndsTheSame(a, b, c.approval);
    } else if c.Select? {
      SelectEndsTheSame(a, b, c.table);
    } else if c.Abort? {
      AbortEndsTheSame(a, b);
    } else if c.Resume? {
      ResumeEndsTheSame(a, b);
    }
  }

  lemma SelectEndsTheSame(a: World, b: World, table: Table)
    requires SameButTasks(a, b) && Consistent(a) && Consistent(b) && Runnable(Select(table), b)
    ensures EndsAs(Select(table), a, Final(Select(table), b))
  {
  }

  lemma ResumeEndsTheSame(a: World, b: World)
    requires SameButTasks(a, b) && Consistent(a) && Consistent(b) && Runnable(Resume, b)
    ensures EndsAs(Resume, a, Final(Resume, b))
  {
  }

  lemma QuiesceEndsTheSame(a: World, b: World, approval: Approval)
    requires SameButTasks(a, b) && Consistent(a) && Consistent(b) && Runnable(Quiesce(approval, false), b)
    ensures EndsAs(Quiesce(approval, false), a, Final(Quiesce(approval, false), b))
  {
  }

  lemma AbortEndsTheSame(a: World, b: World)
    requires SameButTasks(a, b) && Consistent(a) && Consistent(b) && Runnable(Abort, b)
    ensures EndsAs(Abort, a, Final(Abort, b))
  {
    AbortRecovers(a);
  }

  /** One interrupted attempt: the world it found when it began to write, the entry of its trace it had
      reached, and the world it left; tasks move all the while. */
  datatype Attempt = Attempt(base: World, at: nat, left: World)

  ghost predicate Interrupted(c: Command, w: World, attempts: seq<Attempt>, r: Command, m: World)
    decreases |attempts|
  {
    if attempts == [] then r == c && SameButTasks(m, w)
    else
      var a := attempts[0];
      && SameButTasks(a.base, w) && Runnable(c, a.base) && a.at < |Trace(c, a.base)| - 1
      && SameButTasks(a.left, Trace(c, a.base)[a.at])
      && Interrupted(Retry(c, a.at), a.left, attempts[1..], r, m)
  }

  lemma TasksFurther(a: World, b: World, c: World)
    requires SameButTasks(a, b) && SameButTasks(b, c)
    ensures SameButTasks(a, c)
  {
  }

  predicate MakesRecord(c: Command) {
    c.Quiesce? && c.newFile
  }

  lemma RunnableFromTasks(c: Command, a: World, b: World)
    requires SameButTasks(a, b) && Consistent(b) && Runnable(c, b) && Permitted(c, b) && MakesRecord(c)
    ensures Consistent(a) && Runnable(c, a) && Permitted(c, a)
  {
    TasksKeepConsistent(a, b);
  }

  /** Any number of interrupted attempts, with tasks moving during and between them, and then one that
      completes: it ends where a single uninterrupted run ends that began on the first world, but for
      tasks that moved before a new quiesce made its record. */
  lemma {:induction false} InterruptionsEndTheSame(c: Command, w: World, attempts: seq<Attempt>, r: Command, m: World)
      returns (base: World)
    requires Consistent(w) && Runnable(c, w) && Permitted(c, w) && !c.Cleanup?
    requires Interrupted(c, w, attempts, r, m)
    ensures SameButTasks(base, w) && Runnable(c, base) && EndsAs(r, m, Final(c, base))
    ensures !MakesRecord(c) ==> base == w
    decreases |attempts|
  {
    if attempts == [] {
      if MakesRecord(c) {
        RunnableFromTasks(c, m, w);
        base := m;
      } else {
        TasksEndTheSame(c, m, w);
        base := w;
      }
    } else {
      var a := attempts[0];
      base := InterruptedOnce(c, w, a);
      var again := InterruptionsEndTheSame(Retry(c, a.at), a.left, attempts[1..], r, m);
      if MakesRecord(Retry(c, a.at)) {
        assert a.at == 0;
        TasksFurther(again, a.left, a.base);
        TasksFurther(again, a.base, w);
        base := again;
      }
    }
  }

  /** After one interrupted attempt its retry can run, and unless it still has its record to make, it
      ends as the attempt would have. */
  lemma InterruptedOnce(c: Command, w: World, a: Attempt) returns (base: World)
    requires Consistent(w) && Runnable(c, w) && Permitted(c, w) && !c.Cleanup?
    requires SameButTasks(a.base, w) && Runnable(c, a.base) && a.at < |Trace(c, a.base)| - 1
    requires SameButTasks(a.left, Trace(c, a.base)[a.at])
    ensures Consistent(a.left) && Runnable(Retry(c, a.at), a.left) && Permitted(Retry(c, a.at), a.left)
    ensures SameButTasks(base, w) && Runnable(c, base) && (!MakesRecord(c) ==> base == w)
    ensures !MakesRecord(Retry(c, a.at)) ==> Final(Retry(c, a.at), a.left) == Final(c, base)
  {
    base := if MakesRecord(c) then a.base else w;
    if MakesRecord(c) {
      RunnableFromTasks(c, a.base, w);
    } else {
      TasksEndTheSame(c, a.base, w);
    }
    var next := Trace(c, a.base)[a.at];
    RetryEndsTheSame(c, a.base, a.at);
    StepKeepsConsistent(a.base, Run(c, a.at), next);
    if MakesRecord(Retry(c, a.at)) {
      assert next == a.base;
      RunnableFromTasks(c, a.left, a.base);
    } else {
      TasksEndTheSame(Retry(c, a.at), a.left, next);
    }
  }
}
