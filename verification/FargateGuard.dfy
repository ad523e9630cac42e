/** The guard that the Fargate stack runs before its service is updated, over whole runs of stack updates,
    scaling and task churn.  Anything can happen between the guard's look and the update of the service. */
module FargateGuard {
  import opened Options

  /** The table parameter; blank selects the primary table. */
  datatype Properties = Properties(cutoverMode: bool, targetTable: string)

  datatype Request = Create | Update(previous: Properties) | Delete

  datatype Target = Target(minCapacity: int, scaleInSuspended: bool, scaleOutSuspended: bool, scheduledSuspended: bool)

  datatype Counts = Counts(desired: nat, pending: nat, running: nat)

  /** What the two lookups return: the scalable targets, and the services unless a failure is reported. */
  datatype Lookup = Lookup(targets: seq<Target>, failures: bool, services: seq<Counts>)

  datatype Verdict = Admitted | NeedsCutoverMode | NotOneTarget | NotSuspended | ServiceNotResolved | NotQuiesced

  predicate Suspended(t: Target) {
    t.minCapacity == 0 && t.scaleInSuspended && t.scaleOutSuspended && t.scheduledSuspended
  }

  function CheckService(l: Lookup): Verdict {
    if |l.targets| != 1 then NotOneTarget
    else if !Suspended(l.targets[0]) then NotSuspended
    else if l.failures || |l.services| != 1 then ServiceNotResolved
    else if l.services[0] != Counts(0, 0, 0) then NotQuiesced
    else Admitted
  }

  function Handle(request: Request, properties: Properties, l: Lookup): Verdict {
    match request
    case Delete => Admitted
    case Create => if properties.cutoverMode then CheckService(l) else Admitted
    case Update(previous) =>
      var targetChanged := properties.targetTable != previous.targetTable;
      var rollback := targetChanged && previous.cutoverMode;
      if targetChanged && !(properties.cutoverMode || rollback) then NeedsCutoverMode
      else if properties.cutoverMode || rollback then CheckService(l)
      else Admitted
  }

  /** An update may change the table exactly when one of its ends is in cutover mode and the service is
      suspended and empty. */
  lemma TableChangeNeedsQuiet(previous: Properties, properties: Properties, l: Lookup)
    requires previous.targetTable != properties.targetTable
    ensures Handle(Update(previous), properties, l).Admitted? <==>
              && (previous.cutoverMode || properties.cutoverMode)
              && |l.targets| == 1 && Suspended(l.targets[0])
              && !l.failures && l.services == [Counts(0, 0, 0)]
  {
    assert |l.services| == 1 ==> l.services == [l.services[0]];
  }

  /** Whatever table change is admitted, its reverse is admitted from the same service. */
  lemma ReverseIsAdmitted(previous: Properties, properties: Properties, l: Lookup)
    requires previous.targetTable != properties.targetTable
    requires Handle(Update(previous), properties, l).Admitted?
    ensures Handle(Update(properties), previous, l).Admitted?
  {
    TableChangeNeedsQuiet(previous, properties, l);
    TableChangeNeedsQuiet(properties, previous, l);
  }

  // ----- runs of the stack -----

  datatype Task = Task(table: string, pending: bool)

  /** An update that the guard has let through is under way until the service is rewritten or it is given up. */
  datatype Stack = Stack(deployed: Properties, desired: nat, tasks: seq<Task>, target: Target,
                         underWay: Option<Properties>)

  function Pending(tasks: seq<Task>): nat {
    if tasks == [] then 0 else Pending(tasks[..|tasks| - 1]) + if tasks[|tasks| - 1].pending then 1 else 0
  }

  lemma {:induction false} PendingIsPart(tasks: seq<Task>)
    ensures Pending(tasks) <= |tasks|
    decreases |tasks|
  {
    if tasks != [] {
      PendingIsPart(tasks[..|tasks| - 1]);
    }
  }

  function Observe(s: Stack): Lookup {
    PendingIsPart(s.tasks);
    Lookup([s.target], false, [Counts(s.desired, Pending(s.tasks), |s.tasks| - Pending(s.tasks))])
  }

  datatype Event =
    | Begin(properties: Properties)                    // an update starts; the guard looks
    | Rewrite(service: bool)                           // it goes through; service: the service resource changes
    | GiveUp                                           // it fails elsewhere
    | Scale(desired: nat)                              // autoscaling, or an operator
    | Register(target: Target)                         // an operator changes the scalable target
    | TaskStarts                                       // on the table of the current task definition
    | TaskRuns(i: nat)
    | TaskStops(i: nat)

  /** The guard runs when one of its own properties changes. */
  predicate Begins(s: Stack, properties: Properties) {
    && s.underWay.None?
    && (properties != s.deployed ==> Handle(Update(s.deployed), properties, Observe(s)).Admitted?)
  }

  /** The service is rewritten whenever a property of the guard changes. */
  predicate Rewrites(s: Stack, service: bool) {
    s.underWay.Some? && (s.underWay.value != s.deployed ==> service)
  }

  function Next(s: Stack, event: Event): Stack {
    match event
    case Begin(properties) => if Begins(s, properties) then s.(underWay := Some(properties)) else s
    case Rewrite(service) =>
      if !Rewrites(s, service) then s
      else
        var properties := s.underWay.value;
        s.(deployed := properties, underWay := None,
           desired := if !service then s.desired else if properties.cutoverMode then 0 else 2)
    case GiveUp => s.(underWay := None)
    case Scale(desired) => s.(desired := desired)
    case Register(target) => s.(target := target)
    case TaskStarts => if s.desired > 0 then s.(tasks := s.tasks + [Task(s.deployed.targetTable, true)]) else s
    case TaskRuns(i) => if i < |s.tasks| then s.(tasks := s.tasks[i := s.tasks[i].(pending := false)]) else s
    case TaskStops(i) => if i < |s.tasks| then s.(tasks := s.tasks[..i] + s.tasks[i + 1..]) else s
  }

  function After(s: Stack, events: seq<Event>): Stack {
    if events == [] then s else Next(After(s, events[..|events| - 1]), events[|events| - 1])
  }

  /** Every task reads and writes the deployed table. */
  predicate OneTable(s: Stack) {
    forall i | 0 <= i < |s.tasks| :: s.tasks[i].table == s.deployed.targetTable
  }

  /** An update under way will change the table. */
  predicate Changing(s: Stack) {
    s.underWay.Some? && s.underWay.value.targetTable != s.deployed.targetTable
  }

  /** The table is rewritten under a task. */
  predicate RewritesUnderTasks(s: Stack, event: Event) {
    event == Rewrite(true) && Changing(s) && s.tasks != []
  }

  /** The guard lets a table change begin only while nothing is desired, pending or running. */
  lemma TableChangeBeginsEmpty(s: Stack, event: Event)
    requires !Changing(s) && Changing(Next(s, event))
    ensures event.Begin? && s.desired == 0 && s.tasks == [] && Suspended(s.target)
    ensures s.deployed.cutoverMode || event.properties.cutoverMode
  {
    TableChangeNeedsQuiet(s.deployed, event.properties, Observe(s));
    assert Observe(s).services[0] == Counts(0, 0, 0);
  }

  /** An event keeps all tasks on one table exactly if it is not the rewrite of a table under a task. */
  lemma OneTableBreaksOnlyUnderTasks(s: Stack, event: Event)
    requires OneTable(s)
    ensures OneTable(Next(s, event)) <==> !RewritesUnderTasks(s, event)
  {
    if RewritesUnderTasks(s, event) {
      assert Next(s, event).tasks[0].table != Next(s, event).deployed.targetTable;
    }
  }

  /** Over any run, all tasks are on one table at every moment exactly if no event rewrites the table under a
      task. */
  lemma {:induction false} OneTableThroughout(s: Stack, events: seq<Event>)
    requires OneTable(s)
    ensures (forall n | 0 <= n <= |events| :: OneTable(After(s, events[..n])))
            <==> forall n | 0 <= n < |events| :: !RewritesUnderTasks(After(s, events[..n]), events[n])
    decreases |events|
  {
    if events == [] {
      assert events[..0] == [];
    } else {
      var earlier := events[..|events| - 1];
      assert forall n | 0 <= n <= |earlier| :: earlier[..n] == events[..n];
      assert events[..|events|] == events && events[..|earlier|] == earlier;
      OneTableThroughout(s, earlier);
      if OneTable(After(s, earlier)) {
        OneTableBreaksOnlyUnderTasks(After(s, earlier), events[|earlier|]);
      }
    }
  }

  /** While a table change is under way nobody sets a desired count. */
  predicate Undisturbed(s: Stack, events: seq<Event>) {
    forall n | 0 <= n < |events| && Changing(After(s, events[..n])) :: !(events[n].Scale? && events[n].desired > 0)
  }

  /** Over any run in which nobody scales the service up between the guard's look and the rewrite, the tasks
      that exist at one time never use two different tables. */
  lemma {:induction false} RunsUseOneTable(s: Stack, events: seq<Event>)
    requires OneTable(s) && s.underWay.None? && Undisturbed(s, events)
    ensures var m := After(s, events); OneTable(m) && (Changing(m) ==> m.desired == 0 && m.tasks == [])
    decreases |events|
  {
    if events != [] {
      var earlier, event := events[..|events| - 1], events[|events| - 1];
      forall n | 0 <= n < |earlier| && Changing(After(s, earlier[..n]))
        ensures !(earlier[n].Scale? && earlier[n].desired > 0)
      {
        assert earlier[..n] == events[..n];
      }
      RunsUseOneTable(s, earlier);
      var m := After(s, earlier);
      OneTableBreaksOnlyUnderTasks(m, event);
      if !Changing(m) && Changing(Next(m, event)) {
        TableChangeBeginsEmpty(m, event);
      }
    }
  }

  /** A task that starts between the guard's look and the rewrite is left on the old table. */
  lemma ScalingBetweenMixesTables(s: Stack, properties: Properties)
    requires OneTable(s) && s.underWay.None?
    requires properties.targetTable != s.deployed.targetTable && Begins(s, properties)
    ensures !OneTable(Next(Next(Next(Next(s, Begin(properties)), Scale(1)), TaskStarts), Rewrite(true)))
  {
    var m := Next(Next(Next(s, Begin(properties)), Scale(1)), TaskStarts);
    OneTableBreaksOnlyUnderTasks(m, Rewrite(true));
  }

  /** A deployment that changes the table can be taken back at once whenever the service stays empty: the
      guard admits the way back, and the stack is then as it was but for the desired count. */
  lemma ThereAndBack(s: Stack, properties: Properties)
    requires properties.targetTable != s.deployed.targetTable && Begins(s, properties)
    requires properties.cutoverMode
    ensures var m := Next(Next(s, Begin(properties)), Rewrite(true));
            && Begins(m, s.deployed)
            && Next(Next(m, Begin(s.deployed)), Rewrite(true)) == s.(desired := if s.deployed.cutoverMode then 0 else 2)
  {
    TableChangeNeedsQuiet(s.deployed, properties, Observe(s));
    var m := Next(Next(s, Begin(properties)), Rewrite(true));
    assert Observe(s).services[0] == Counts(0, 0, 0);
    assert Observe(m) == Observe(s);
    ReverseIsAdmitted(s.deployed, properties, Observe(s));
  }
}
