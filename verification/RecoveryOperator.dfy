/** The recovery commands as they run: against live stacks, with updates that may stay in flight, a process
    that may die between any two remote or file writes, and any command following any other. */
module RecoveryOperator {
  import opened Options
  import opened RecoveryModel
  import opened RecoveryTraces
  import opened RecoveryRuns
  import opened RecoveryProgress
  import opened RecoveryHistory
  import opened RecoveryInFlight
  import opened RecoveryCloud
  import opened RecoveryPlans

  datatype Outcome =
    | Done       // the command returned its result
    | Rejected   // an error before anything was written
    | Stopped    // an error, a timeout or a kill after something was written

  class Operator {
    const cloud: Cloud
    var evidence: Option<Evidence>   // the state file
    ghost var seen: set<World>       // every world so far

    constructor (cloud: Cloud)
      requires Initial(cloud.Stacks(None).world) && Settled(cloud.Stacks(None))
      ensures this.cloud == cloud && evidence.None? && Holds()
      ensures seen == {Now()}
    {
      this.cloud := cloud;
      evidence := None;
      seen := {cloud.Stacks(None).world};
      new;
      GuardedIsSafe(Current());
    }

    ghost function Current(): Live
      reads this, cloud
    {
      cloud.Stacks(evidence)
    }

    ghost function Now(): World
      reads this, cloud
    {
      Current().world
    }

    /** Holds between any two atomic actions. */
    ghost predicate Holds()
      reads this, cloud
    {
      && Guarded(Current())
      && Paired(Now())
      && (cloud.controlUpdate.Some? ==> cloud.control.Some?)
      && (forall w | w in seen :: Safe(w))
      && Now() in seen
    }

    /** The next command starts on settled stacks of a disciplined run. */
    ghost predicate Exact()
      reads this, cloud
    {
      Settled(Current()) && Consistent(Now()) && cloud.tablesStay
    }

    ghost predicate At(w: World)
      reads this, cloud
    {
      Matches(cloud.undisturbed, Now(), w) && Settled(Current()) && cloud.tablesStay
    }

    /** The stacks are at an entry of the trace, or at one with the update to the next in flight, or that
        update has been rolled back. */
    ghost predicate Tracks(t: seq<World>, at: nat)
      reads this, cloud
    {
      && at < |t|
      && (|| (&& Matches(cloud.undisturbed, Now(), t[at])
              && (Settled(Current()) || (at + 1 < |t| && Matches(cloud.undisturbed, Landed(Current()), t[at + 1]))))
          || (&& at + 1 < |t| && Settled(Current())
              && Matches(cloud.undisturbed, Now(), Undone(t[at], t[at + 1]))))
    }

    /** The command stopped along its trace, at its end if it returned. */
    ghost predicate Ended(t: seq<World>, at: nat, r: Outcome, sure: bool)
      reads this, cloud
    {
      && Tracks(t, at) && !r.Rejected?
      && (r.Done? ==> at == |t| - 1 && Settled(Current()))
      && (sure ==> r.Done?)
    }

    // ----- remote and file operations -----

    /** Time passes between two actions; the process may not survive it. */
    method Interlude(ghost w: World) returns (alive: bool)
      requires Holds()
      modifies this`seen, cloud
      ensures Holds() && old(seen) <= seen
      ensures Elapses(old(Current()), Current()) && Evolves(old(Current()), Current())
      ensures cloud.tablesStay ==> cloud.tables == old(cloud.tables) && Passes(old(Current()), Current())
      ensures cloud.undisturbed ==> Lands(old(Current()), Current())
      ensures old(At(w)) ==> At(w)
      ensures cloud.reliable ==> alive
      ensures cloud.updatesIssued == old(cloud.updatesIssued)
    {
      cloud.Pass(evidence);
      ElapsingEvolves(old(Current()), Current());
      EvolvingKeepsGuarded(old(Current()), Current());
      if old(Settled(Current())) && cloud.tablesStay {
        SettledStays(old(Current()), Current());
      }
      GuardedIsSafe(Current());
      seen := seen + {Now()};
      alive := cloud.reliable;
      if !alive {
        alive := *;
      }
    }

    method WriteState(e: Evidence, ghost w: World)
      requires Holds()
      requires Guarded(Current().(world := Now().(evidence := Some(e))))
      requires Paired(Now().(evidence := Some(e)))
      modifies this
      ensures Holds() && old(seen) <= seen
      ensures Current() == old(Current()).(world := old(Now()).(evidence := Some(e)))
      ensures old(At(w)) ==> At(w.(evidence := Some(e)))
    {
      evidence := Some(e);
      GuardedIsSafe(Current());
      seen := seen + {Now()};
    }

    /** Change the service, by a scaling or a count request. */
    method WriteService(s: Service)
      requires Holds() && cloud.control.Some?
      requires Guarded(Current().(world := WithService(Now(), s)))
      modifies this`seen, cloud
      ensures Holds() && old(seen) <= seen
      ensures Current() == old(Current()).(world := WithService(old(Now()), s))
      ensures cloud.updatesIssued == old(cloud.updatesIssued)
    {
      cloud.control := Some(cloud.control.value.(service := s));
      GuardedIsSafe(Current());
      seen := seen + {Now()};
    }

    /** Issue an update of the AgentCore stack and poll until it lands, rolls back or times out. */
    method UpdateRuntime(mode: Mode, table: Table, approval: Approval, polls: nat, ghost w: World)
      returns (landed: bool)
      requires Holds()
      requires cloud.runtimeUpdate.None? ==>
                 Guarded(Current().(runtimeUpdate := Some(Landing(mode, table, approval))))
      modifies this`seen, cloud
      ensures Holds() && old(seen) <= seen && evidence == old(evidence)
      ensures ControlEvolves(old(Current()), Current())
      ensures landed ==> cloud.runtimeUpdate.None? && cloud.runtime == Landing(mode, table, approval)
      ensures !old(cloud.runtimeUpdate.None?) ==> !landed && Current() == old(Current())
      ensures old(At(w)) ==>
                var next := LandRuntime(w, Landing(mode, table, approval));
                if landed then At(next) else Tracks([w, next], 0)
      ensures old(ServesNothing()) ==> ServesNothing()
      ensures cloud.reliable && old(cloud.runtimeUpdate.None?) ==> landed
    {
      if cloud.runtimeUpdate.Some? {
        return false;
      }
      var target := Landing(mode, table, approval);
      cloud.runtimeUpdate := Some(target);
      cloud.updatesIssued := cloud.updatesIssued + 1;
      GuardedIsSafe(Current());
      ghost var issued := Current();
      seen := seen + {Now()};
      PollRuntime(target, polls, w);
      if cloud.reliable {
        cloud.runtime, cloud.runtimeUpdate := target, None;
        EvolvingKeepsGuarded(issued, Current());
        GuardedIsSafe(Current());
        seen := seen + {Now()};
      }
      landed := cloud.runtimeUpdate.None? && cloud.runtime == target;
    }

    method PollRuntime(target: Selector, polls: nat, ghost start: World)
      requires Holds() && cloud.runtimeUpdate == Some(target)
      modifies this`seen, cloud
      ensures Holds() && old(seen) <= seen && Evolves(old(Current()), Current())
      ensures cloud.reliable ==> Current() == old(Current())
      ensures cloud.tablesStay && old(RuntimeMidway(cloud.undisturbed, Current(), start, target)) ==>
                RuntimeMidway(cloud.undisturbed, Current(), start, target)
      ensures cloud.updatesIssued == old(cloud.updatesIssued)
    {
      ghost var issued := Current();
      ghost var midway := cloud.tablesStay && RuntimeMidway(cloud.undisturbed, Current(), start, target);
      var n := 0;
      while n < polls && cloud.runtimeUpdate.Some? && !cloud.reliable
        invariant Holds() && old(seen) <= seen && Evolves(issued, Current())
        invariant cloud.updatesIssued == old(cloud.updatesIssued)
        invariant cloud.reliable ==> Current() == issued
        invariant midway ==> RuntimeMidway(cloud.undisturbed, Current(), start, target)
      {
        ghost var before := Current();
        var _ := Interlude(start);
        EvolvesFurther(issued, before, Current());
        if midway {
          RuntimeMidwayPasses(cloud.undisturbed, before, Current(), start, target);
        }
        n := n + 1;
      }
    }

    /** Issue an update of the control-plane stack and poll until it lands, rolls back or times out. */
    method UpdateControl(mode: Mode, table: Table, approval: Approval, polls: nat, ghost w: World)
      returns (landed: bool)
      requires Holds() && cloud.control.Some?
      requires cloud.controlUpdate.None? ==>
                 Guarded(Current().(controlUpdate := Some(Landing(mode, table, approval))))
      modifies this`seen, cloud
      ensures Holds() && old(seen) <= seen && evidence == old(evidence)
      ensures RuntimeEvolves(old(Current()), Current()) && cloud.control.Some?
      ensures landed ==> cloud.controlUpdate.None? && cloud.control.value.selector == Landing(mode, table, approval)
      ensures !old(cloud.controlUpdate.None?) ==> !landed && Current() == old(Current())
      ensures w.control.Some? && QuietOrNormal(w.control.value)
              && old(At(w) && (Quiet(cloud.control.value.service) || mode.Normal?)) ==>
                var next := LandControl(w, Landing(mode, table, approval));
                if landed then At(next) else Tracks([w, next], 0)
      ensures !mode.Normal? && old(ServesNothing() && !cloud.control.value.selector.mode.Normal?) ==> ServesNothing()
      ensures cloud.reliable && old(cloud.controlUpdate.None?) ==> landed
    {
      if cloud.controlUpdate.Some? {
        return false;
      }
      var target := Landing(mode, table, approval);
      cloud.controlUpdate := Some(target);
      cloud.updatesIssued := cloud.updatesIssued + 1;
      GuardedIsSafe(Current());
      ghost var issued := Current();
      seen := seen + {Now()};
      PollControl(target, polls, w);
      if cloud.reliable {
        LandNow(target);
      }
      landed := cloud.controlUpdate.None? && cloud.control.value.selector == target;
    }

    /** The update of the control plane lands. */
    method LandNow(target: Selector)
      requires Holds() && cloud.controlUpdate == Some(target)
      modifies this`seen, cloud
      ensures Holds() && old(seen) <= seen
      ensures Current() == Live(LandControl(old(Now()), target), old(cloud.runtimeUpdate), None)
    {
      ghost var issued := Current();
      var c := cloud.control.value;
      cloud.control := Some(ControlPlane(target, ServiceUnder(c.service, c.selector.mode, target.mode)));
      cloud.controlUpdate := None;
      EvolvingKeepsGuarded(issued, Current());
      GuardedIsSafe(Current());
      seen := seen + {Now()};
    }

    method PollControl(target: Selector, polls: nat, ghost start: World)
      requires Holds() && cloud.controlUpdate == Some(target)
      modifies this`seen, cloud
      ensures Holds() && old(seen) <= seen && Evolves(old(Current()), Current())
      ensures cloud.reliable ==> Current() == old(Current())
      ensures cloud.tablesStay && start.control.Some?
              && old(ControlMidway(cloud.undisturbed, Current(), start, target)) ==>
                ControlMidway(cloud.undisturbed, Current(), start, target)
      ensures cloud.updatesIssued == old(cloud.updatesIssued)
    {
      ghost var issued := Current();
      ghost var midway := cloud.tablesStay && start.control.Some?
                          && ControlMidway(cloud.undisturbed, Current(), start, target);
      var n := 0;
      while n < polls && cloud.controlUpdate.Some? && !cloud.reliable
        invariant Holds() && old(seen) <= seen && Evolves(issued, Current())
        invariant cloud.updatesIssued == old(cloud.updatesIssued)
        invariant cloud.reliable ==> Current() == issued
        invariant midway ==> ControlMidway(cloud.undisturbed, Current(), start, target)
      {
        ghost var before := Current();
        var _ := Interlude(start);
        EvolvesFurther(issued, before, Current());
        if midway {
          ControlMidwayPasses(cloud.undisturbed, before, Current(), start, target);
        }
        n := n + 1;
      }
    }

    /** At this world but for the tasks that have started or stopped. */
    ghost predicate Waiting(w: World)
      reads this, cloud
    {
      && Settled(Current()) && SameButTasks(Now(), w) && cloud.tablesStay
      && (cloud.undisturbed ==> Now() == w || (w.control.Some? && Now() == Stable(w)))
    }

    /** No task runs, and neither an update that lands nor one that rolls back can start one. */
    ghost predicate ServesNothing()
      reads cloud
    {
      cloud.control.Some? ==>
        && Quiet(cloud.control.value.service)
        && (cloud.controlUpdate.Some? ==>
              !cloud.controlUpdate.value.mode.Normal? && !cloud.control.value.selector.mode.Normal?)
    }

    /** The wanted count cannot move on its own. */
    ghost predicate Steady(desired: nat)
      reads this, cloud
    {
      && Settled(Current()) && cloud.control.Some? && cloud.control.value.service.desired == desired
      && (cloud.undisturbed || cloud.control.value.service.suspended == ALL_SUSPENDED)
    }

    /** Poll the service until it is stable at the wanted count or the polls run out. */
    method WaitStable(desired: nat, polls: nat, ghost w: World) returns (stable: bool)
      requires Holds() && cloud.control.Some?
      modifies this`seen, cloud
      ensures Holds() && old(seen) <= seen && Evolves(old(Current()), Current())
      ensures stable ==> cloud.control.value.service.desired == desired
                         && cloud.control.value.service.running == desired
                         && cloud.control.value.service.pending == 0
      ensures w.control.Some? && w.control.value.service.desired == desired && old(At(w)) ==>
                (At(w) || At(Stable(w))) && (stable ==> At(Stable(w)))
      ensures cloud.reliable && old(Steady(desired)) ==> stable
      ensures cloud.updatesIssued == old(cloud.updatesIssued)
    {
      ghost var start := Current();
      var n := 0;
      stable := false;
      while n < polls
        invariant Holds() && old(seen) <= seen && Evolves(start, Current())
        invariant (old(At(w)) ==> Waiting(w)) && (old(Steady(desired)) ==> Steady(desired))
        invariant cloud.updatesIssued == old(cloud.updatesIssued)
      {
        var s := cloud.control.value.service;
        if s.desired == desired && s.running == desired && s.pending == 0 {
          return true;
        }
        ghost var before := Current();
        Poll(desired, w);
        EvolvesFurther(start, before, Current());
        n := n + 1;
      }
      if cloud.reliable {
        ghost var before := Current();
        Converge(desired, w);
        EvolvesFurther(start, before, Current());
      }
      var s := cloud.control.value.service;
      stable := s.desired == desired && s.running == desired && s.pending == 0;
    }

    method Poll(desired: nat, ghost w: World)
      requires Holds() && cloud.control.Some?
      modifies this`seen, cloud
      ensures Holds() && old(seen) <= seen && Evolves(old(Current()), Current())
      ensures old(Waiting(w)) ==> Waiting(w)
      ensures old(Steady(desired)) ==> Steady(desired)
      ensures cloud.updatesIssued == old(cloud.updatesIssued)
    {
      ghost var start := Current();
      var _ := Interlude(w);
      if * {
        ghost var before := Current();
        Converge(desired, w);
        EvolvesFurther(start, before, Current());
      }
    }

    /** The tasks reach the desired count. */
    method Converge(desired: nat, ghost w: World)
      requires Holds() && cloud.control.Some?
      modifies this`seen, cloud
      ensures Holds() && old(seen) <= seen && cloud.control.Some?
      ensures Current() == old(Current()).(world := Stable(old(Now())))
      ensures Evolves(old(Current()), Current())
      ensures old(Waiting(w)) ==> Waiting(w)
      ensures old(Steady(desired)) ==> Steady(desired)
      ensures cloud.updatesIssued == old(cloud.updatesIssued)
    {
      var s := cloud.control.value.service;
      cloud.control := Some(cloud.control.value.(service := s.(pending := 0, running := s.desired)));
      EvolvingKeepsGuarded(old(Current()), Current());
      GuardedIsSafe(Current());
      seen := seen + {Now()};
    }

    /** Suspend scaling, ask for no tasks, and wait until there are none. */
    method StopControlPlane(polls: nat, ghost w: World) returns (stopped: bool, ghost writes: nat)
      requires Holds() && cloud.control.Some?
      requires evidence.Some? && QuiesceRetryable(evidence.value.phase)
      modifies this`seen, cloud
      ensures Holds() && old(seen) <= seen && evidence == old(evidence) && cloud.control.Some?
      ensures RuntimeEvolves(old(Current()), Current()) && ControlEvolves(old(Current()), Current())
      ensures Stoppable(w) && old(At(w)) ==>
                var w1 := ScalingSuspended(w);
                var w2 := DesiredAt(w1, 0);
                && writes < 4 && At([w, w1, w2, Stable(w2)][writes])
                && (stopped ==> writes == 3 && Quiet(cloud.control.value.service)) && (cloud.reliable ==> stopped)
      ensures cloud.updatesIssued == old(cloud.updatesIssued)
    {
      ghost var w1 := if Stoppable(w) then ScalingSuspended(w) else w;
      ghost var w2 := if Stoppable(w) then DesiredAt(w1, 0) else w;
      SuspendScaling(w);
      writes := 1;
      stopped := Interlude(w1);
      if !stopped { return; }
      AskFor(0, w1);
      writes := 2;
      stopped := Interlude(w2);
      if !stopped { return; }
      stopped, writes := Drain(polls, w2);
    }

    /** Wait until no task is left. */
    method Drain(polls: nat, ghost w: World) returns (stopped: bool, ghost writes: nat)
      requires Holds() && cloud.control.Some?
      modifies this`seen, cloud
      ensures Holds() && old(seen) <= seen && Evolves(old(Current()), Current())
      ensures w.control.Some? && w.control.value.service.desired == 0
              && old(At(w) && Emptied(cloud.control.value.service)) ==>
                && (if writes == 3 then At(Stable(w)) else writes == 2 && At(w))
                && (stopped ==> writes == 3 && Quiet(cloud.control.value.service)) && (cloud.reliable ==> stopped)
      ensures cloud.updatesIssued == old(cloud.updatesIssued)
    {
      stopped := WaitStable(0, polls, w);
      writes := if stopped || (w.control.Some? && At(Stable(w))) then 3 else 2;
    }

    method SuspendScaling(ghost w: World)
      requires Holds() && cloud.control.Some?
      requires evidence.Some? && QuiesceRetryable(evidence.value.phase)
      modifies this`seen, cloud
      ensures Holds() && old(seen) <= seen
      ensures Current() == old(Current()).(world := ScalingSuspended(old(Now())))
      ensures Stoppable(w) && old(At(w)) ==>
                At(ScalingSuspended(w)) && QuietOrNormal(ScalingSuspended(w).control.value)
      ensures cloud.updatesIssued == old(cloud.updatesIssued)
    {
      WriteService(cloud.control.value.service.(
        minCapacity := 0, maxCapacity := evidence.value.controlPlane.value.maxCapacity, suspended := ALL_SUSPENDED));
    }

    method AskFor(desired: nat, ghost w: World)
      requires Holds() && cloud.control.Some?
      requires Guarded(Current().(world := DesiredAt(Now(), desired)))
      modifies this`seen, cloud
      ensures Holds() && old(seen) <= seen
      ensures Current() == old(Current()).(world := DesiredAt(old(Now()), desired))
      ensures w.control.Some? && QuietOrNormal(w.control.value) && old(At(w)) ==> At(DesiredAt(w, desired))
      ensures cloud.updatesIssued == old(cloud.updatesIssued)
    {
      WriteService(cloud.control.value.service.(desired := desired));
    }

    // ----- the commands -----

    /** The world quiesce records is the one it finds, but for tasks that moved before the record was made. */
    method Quiesce(approval: Approval, newFile: bool, polls: nat)
      returns (r: Outcome, ghost at: nat, ghost base: World)
      requires Holds() && (newFile ==> Finished(Now()))
      modifies this, cloud
      ensures Holds() && old(seen) <= seen
      ensures old(Exact() && QuiesceAccepts(Now(), approval, newFile)) ==>
                && Matches(cloud.undisturbed, base, old(Now()))
                && Consistent(base) && QuiesceAccepts(base, approval, newFile)
                && Ended(QuiesceTrace(base, approval, newFile), at, r, cloud.reliable)
      ensures old(Exact() && QuiesceAccepts(Now(), approval, newFile) &&
                  Unmoved(Now(), QuiesceTrace(Now(), approval, newFile)[8])) ==>
                cloud.updatesIssued == old(cloud.updatesIssued)
      ensures old(Exact() && !QuiesceAccepts(Now(), approval, newFile)) ==> !r.Done? && At(old(Now()))
      ensures r.Done? ==> ServesNothing()
    {
      base := Now();
      if approval.Blank? { return Rejected, 0, base; }
      if newFile {
        r, at, base := QuiesceNew(approval, polls);
      } else {
        r, at := QuiesceAgain(approval, polls);
      }
    }

    method QuiesceNew(approval: Approval, polls: nat)
      returns (r: Outcome, ghost at: nat, ghost base: World)
      requires Holds() && Finished(Now()) && approval.Change?
      modifies this, cloud
      ensures Holds() && old(seen) <= seen
      ensures old(Exact() && QuiesceAccepts(Now(), approval, true)) ==>
                && Matches(cloud.undisturbed, base, old(Now()))
                && Consistent(base) && QuiesceAccepts(base, approval, true)
                && Ended(QuiesceTrace(base, approval, true), at, r, cloud.reliable)
      ensures old(Exact() && !QuiesceAccepts(Now(), approval, true)) ==> !r.Done? && At(old(Now()))
      ensures r.Done? ==> ServesNothing()
    {
      var go, refusal;
      go, refusal, base := Record(approval);
      if !go { return refusal, 0, base; }
      ghost var exact := old(Exact());
      ghost var t := if exact then QuiesceTrace(base, approval, true) else Nowhere(base, 9);
      if exact {
        QuiesceFollows(base, approval, true);
      }
      var alive := Interlude(t[1]);
      if !alive { return Stopped, 1, base; }
      r, at := QuiescePlanes(polls, t, exact);
    }

    /** The checks of a new quiesce, and its record of what it finds. */
    method Record(approval: Approval) returns (go: bool, refusal: Outcome, ghost base: World)
      requires Holds() && Finished(Now()) && approval.Change?
      modifies this, cloud
      ensures Holds() && old(seen) <= seen && !refusal.Done?
      ensures go ==> evidence.Some? && evidence.value.phase.Quiescing?
      ensures old(Exact()) ==>
                && Matches(cloud.undisturbed, base, old(Now())) && Consistent(base) && Settled(Current())
                && (go ==> QuiesceAccepts(base, approval, true) && At(QuiesceTrace(base, approval, true)[1])
                           && evidence == QuiesceTrace(base, approval, true)[1].evidence)
                && (!go ==> At(base) && At(old(Now())))
      ensures old(Exact() && QuiesceAccepts(Now(), approval, true)) ==>
                QuiesceAccepts(base, approval, true) && (go || (refusal.Stopped? && !cloud.reliable))
      ensures old(Exact() && !QuiesceAccepts(Now(), approval, true)) ==> !go
      ensures cloud.updatesIssued == old(cloud.updatesIssued)
    {
      base := Now();
      var runtime := cloud.runtime;
      refusal := Rejected;
      go := runtime.mode.Normal? && approval != runtime.approval;
      if !go { return; }
      var alive := Interlude(base);
      if old(Exact()) {
        TasksKeepConsistent(Now(), base);
      }
      base := Now();
      if !alive { return false, Stopped, base; }
      var c := cloud.control;
      go := c.Some? ==> c.value.selector == runtime;
      if !go { return; }
      WriteState(Evidence(Quiescing, runtime.table, runtime.approval, approval, None,
                          if c.Some? then Some(SnapshotOf(c.value)) else None), base);
    }

    method QuiesceAgain(approval: Approval, polls: nat) returns (r: Outcome, ghost at: nat)
      requires Holds() && approval.Change?
      modifies this, cloud
      ensures Holds() && old(seen) <= seen
      ensures old(Exact() && QuiesceAccepts(Now(), approval, false)) ==>
                Ended(old(QuiesceTrace(Now(), approval, false)), at, r, cloud.reliable)
      ensures old(Exact() && QuiesceAccepts(Now(), approval, false) &&
                  Unmoved(Now(), QuiesceTrace(Now(), approval, false)[8])) ==>
                cloud.updatesIssued == old(cloud.updatesIssued)
      ensures old(Exact() && !QuiesceAccepts(Now(), approval, false)) ==> !r.Done? && At(old(Now()))
      ensures r.Done? ==> ServesNothing()
    {
      ghost var w := Now();
      if evidence.None? || !QuiesceRetryable(evidence.value.phase) || evidence.value.approval != approval {
        return Rejected, 0;
      }
      var runtime := cloud.runtime;
      if runtime != Before(evidence.value) && runtime != Blocked(evidence.value) { return Rejected, 0; }
      var alive := Interlude(w);
      if !alive { return Stopped, 0; }
      ghost var exact := old(Exact() && QuiesceAccepts(Now(), approval, false));
      ghost var t := if exact then QuiesceTrace(w, approval, false) else Nowhere(w, 9);
      if exact {
        QuiesceFollows(w, approval, false);
      }
      r, at := QuiescePlanes(polls, t, exact);
    }

    /** The part of quiesce that runs once the evidence is on file. */
    method QuiescePlanes(polls: nat, ghost t: seq<World>, ghost exact: bool) returns (r: Outcome, ghost at: nat)
      requires Holds() && evidence.Some? && QuiesceRetryable(evidence.value.phase) && |t| == 9
      requires exact ==> At(t[1]) && StopsBoth(t, evidence.value)
      modifies this, cloud
      ensures Holds() && old(seen) <= seen
      ensures exact ==> Ended(t, at, r, cloud.reliable)
      ensures exact && Unmoved(t[1], t[8]) ==> cloud.updatesIssued == old(cloud.updatesIssued)
      ensures r.Done? ==> ServesNothing()
    {
      at := 6;
      if cloud.control.Some? {
        var ok;
        ok, at := QuiesceControl(polls, t, exact);
        if !ok { return Stopped, at; }
      }
      r, at := QuiesceRuntime(polls, t, exact);
    }

    method QuiesceControl(polls: nat, ghost t: seq<World>, ghost exact: bool) returns (ok: bool, ghost at: nat)
      requires Holds() && evidence.Some? && QuiesceRetryable(evidence.value.phase) && cloud.control.Some? && |t| == 9
      requires exact ==> At(t[1]) && StopsControl(t, evidence.value)
      modifies this, cloud
      ensures Holds() && old(seen) <= seen && cloud.control.Some?
      ensures ok ==> evidence == Some(old(evidence.value).(phase := ControlPlaneQuiesced))
      ensures exact ==> Tracks(t, at) && (ok ==> at == 6 && Settled(Current())) && (cloud.reliable ==> ok)
      ensures exact && !t[1].control.value.selector.mode.Normal? ==> cloud.updatesIssued == old(cloud.updatesIssued)
    {
      ok, at := StopControlPlane(polls, t[1]);
      at := at + 1;
      if !ok { return; }
      ok, at := BlockControl(polls, t, exact);
      if !ok { return; }
      WriteState(evidence.value.(phase := ControlPlaneQuiesced), t[5]);
      at := 6;
    }

    /** Move the stopped control plane out of normal mode, and make sure of it. */
    method BlockControl(polls: nat, ghost t: seq<World>, ghost exact: bool) returns (ok: bool, ghost at: nat)
      requires Holds() && evidence.Some? && QuiesceRetryable(evidence.value.phase) && cloud.control.Some? && |t| == 9
      requires exact ==> At(t[4]) && StopsControl(t, evidence.value) && Quiet(cloud.control.value.service)
      modifies this`seen, cloud
      ensures Holds() && old(seen) <= seen && cloud.control.Some? && evidence == old(evidence)
      ensures exact ==> Tracks(t, at) && (ok ==> at == 5 && Settled(Current())) && (cloud.reliable ==> ok)
      ensures ok ==> Guarded(Current().(world := InPhase(Now(), ControlPlaneQuiesced)))
      ensures exact && !t[1].control.value.selector.mode.Normal? ==> cloud.updatesIssued == old(cloud.updatesIssued)
    {
      var e := evidence.value;
      at := 4;
      ok := Interlude(t[4]);
      if !ok { return; }
      var c := cloud.control.value;
      ok := Quiet(c.service) && (c.selector == Before(e) || c.selector == Blocked(e));
      if !ok { return; }
      if c.selector.mode.Normal? {
        ok := UpdateControl(Quiesced, e.controlPlane.value.table, e.approval, polls, t[4]);
        if !ok { return; }
      }
      at := 5;
      ok := Interlude(t[5]);
      if !ok { return; }
      c := cloud.control.value;
      ok := Quiet(c.service) && c.selector == Blocked(e);
      if !ok { return; }
      ok := Interlude(t[5]);
    }

    method QuiesceRuntime(polls: nat, ghost t: seq<World>, ghost exact: bool) returns (r: Outcome, ghost at: nat)
      requires Holds() && evidence.Some? && QuiesceRetryable(evidence.value.phase) && |t| == 9
      requires cloud.control.Some? ==> evidence.value.phase.ControlPlaneQuiesced?
      requires exact ==> At(t[6]) && StopsRuntime(t, evidence.value)
      modifies this, cloud
      ensures Holds() && old(seen) <= seen
      ensures exact ==> Ended(t, at, r, cloud.reliable)
      ensures exact && !t[6].runtime.mode.Normal? ==> cloud.updatesIssued == old(cloud.updatesIssued)
      ensures r.Done? ==> ServesNothing()
    {
      var blocked := BlockRuntime(polls, t, exact);
      if !blocked { return Stopped, 6; }
      var alive := Interlude(t[7]);
      if !alive { return Stopped, 7; }
      WriteState(evidence.value.(phase := QuiescedPhase), t[7]);
      return Done, 8;
    }

    /** Block the runtime on its table unless it is blocked already. */
    method BlockRuntime(polls: nat, ghost t: seq<World>, ghost exact: bool) returns (ok: bool)
      requires Holds() && evidence.Some? && QuiesceRetryable(evidence.value.phase) && |t| == 9
      requires cloud.control.Some? ==> evidence.value.phase.ControlPlaneQuiesced?
      requires exact ==> At(t[6]) && StopsRuntime(t, evidence.value)
      modifies this`seen, cloud
      ensures Holds() && old(seen) <= seen && evidence == old(evidence)
      ensures cloud.control.Some? <==> old(cloud.control.Some?)
      ensures exact ==> (if ok then At(t[7]) else Tracks(t, 6)) && (cloud.reliable ==> ok)
      ensures exact && !t[6].runtime.mode.Normal? ==> cloud.updatesIssued == old(cloud.updatesIssued)
    {
      var e := evidence.value;
      ok := Interlude(t[6]);
      if !ok { return; }
      var runtime := cloud.runtime;
      ok := runtime == Before(e) || runtime == Blocked(e);
      if !ok { return; }
      ok := Interlude(t[6]);
      if !ok { return; }
      if runtime.mode.Normal? {
        ok := UpdateRuntime(Quiesced, runtime.table, e.approval, polls, t[6]);
      }
    }

    method Select(table: Table, polls: nat) returns (r: Outcome, ghost at: nat)
      requires Holds()
      modifies this, cloud
      ensures Holds() && old(seen) <= seen
      ensures old(Exact() && SelectAccepts(Now(), table)) ==>
                Ended(old(SelectTrace(Now(), table)), at, r, cloud.reliable)
      ensures old(Exact() && SelectAccepts(Now(), table) && Unmoved(Now(), SelectTrace(Now(), table)[5])) ==>
                cloud.updatesIssued == old(cloud.updatesIssued)
      ensures old(Exact() && !SelectAccepts(Now(), table)) ==> !r.Done? && At(old(Now()))
    {
      at := 0;
      ghost var w := Now();
      var go, mode, refusal := CheckSelection(table);
      if !go { return refusal, 0; }
      ghost var exact := old(Exact());
      ghost var t := if exact then SelectTrace(w, table) else Nowhere(w, 6);
      if exact {
        SelectFollows(w, table);
      }
      if evidence.value.phase.QuiescedPhase? {
        WriteState(evidence.value.(phase := Selecting, target := Some(table)), t[0]);
      }
      r, at := SelectPlanes(table, mode, polls, t, exact);
    }

    /** The checks of select up to the vetting of the table, and the runtime's mode as they found it. */
    method CheckSelection(table: Table) returns (go: bool, mode: Mode, refusal: Outcome)
      requires Holds()
      modifies this`seen, cloud
      ensures Holds() && old(seen) <= seen && evidence == old(evidence) && !refusal.Done?
      ensures cloud.updatesIssued == old(cloud.updatesIssued)
      ensures go ==> && evidence.Some? && SelectRetryable(evidence.value.phase)
                     && (!evidence.value.phase.QuiescedPhase? ==> evidence.value.target == Some(table))
      ensures old(Exact()) ==> At(old(Now())) && mode == cloud.runtime.mode
      ensures old(Exact()) && go ==> old(SelectAccepts(Now(), table))
      ensures old(Exact() && SelectAccepts(Now(), table)) ==> go || (refusal.Stopped? && !cloud.reliable)
    {
      mode := cloud.runtime.mode;
      if evidence.None? || !SelectRetryable(evidence.value.phase) { return false, mode, Rejected; }
      var e := evidence.value;
      if e.phase.QuiescedPhase? && table == e.tableBefore { return false, mode, Rejected; }
      if !e.phase.QuiescedPhase? && e.target != Some(table) { return false, mode, Rejected; }
      var runtime := cloud.runtime;
      if runtime != Blocked(e) && runtime != Selector(Selected, table, e.approval) {
        return false, mode, Rejected;
      }
      var alive := Interlude(Now());
      if !alive { return false, mode, Stopped; }
      go := Usable(World(cloud.dataKey, cloud.runtime, cloud.control, evidence, cloud.tables), table);
      refusal := Rejected;
    }

    /** Move the control plane to the target, then the runtime. */
    method SelectPlanes(table: Table, mode: Mode, polls: nat, ghost t: seq<World>, ghost exact: bool)
      returns (r: Outcome, ghost at: nat)
      requires Holds() && evidence.Some? && evidence.value.phase in {Selecting, ControlPlaneSelected} && |t| == 6
      requires evidence.value.target == Some(table)
      requires exact ==> At(t[1]) && MovesBoth(t, evidence.value, table, mode)
      modifies this, cloud
      ensures Holds() && old(seen) <= seen
      ensures exact ==> Ended(t, at, r, cloud.reliable)
      ensures exact && Unmoved(t[1], t[5]) ==> cloud.updatesIssued == old(cloud.updatesIssued)
    {
      at := 3;
      if cloud.control.Some? {
        var ok;
        ok, at := SelectControl(table, mode, polls, t, exact);
        if !ok { return Stopped, at; }
      }
      r, at := SelectRuntime(table, mode, polls, t, exact);
    }

    method SelectControl(table: Table, mode: Mode, polls: nat, ghost t: seq<World>, ghost exact: bool)
      returns (ok: bool, ghost at: nat)
      requires Holds() && evidence.Some? && evidence.value.phase in {Selecting, ControlPlaneSelected} && |t| == 6
      requires evidence.value.target == Some(table) && cloud.control.Some?
      requires exact ==> At(t[1]) && MovesControl(t, evidence.value, table, mode)
      modifies this, cloud
      ensures Holds() && old(seen) <= seen
      ensures ok ==> && evidence.Some? && evidence.value.phase in {Selecting, ControlPlaneSelected}
                     && evidence.value.(phase := old(evidence.value.phase)) == old(evidence.value)
      ensures exact ==> Tracks(t, at) && (ok ==> at == 3 && Settled(Current())) && (cloud.reliable ==> ok)
      ensures exact && !t[1].control.value.selector.mode.Quiesced? ==> cloud.updatesIssued == old(cloud.updatesIssued)
    {
      var e := evidence.value;
      at := 1;
      ok := Interlude(t[1]);
      if !ok { return; }
      var c := cloud.control.value;
      ok := SelectControlMatches(e, table, mode, c);
      if !ok { return; }
      ok := Interlude(t[1]);
      if !ok { return; }
      if c.selector.mode.Quiesced? {
        ok, at := MoveControl(table, polls, t, exact);
        if !ok { return; }
        WriteState(e.(phase := ControlPlaneSelected), t[2]);
      }
      at := 3;
    }

    /** Select the target on the blocked control plane, and make sure of it. */
    method MoveControl(table: Table, polls: nat, ghost t: seq<World>, ghost exact: bool)
      returns (ok: bool, ghost at: nat)
      requires Holds() && evidence.Some? && evidence.value.phase in {Selecting, ControlPlaneSelected} && |t| == 6
      requires evidence.value.target == Some(table) && cloud.control.Some?
      requires exact ==> && At(t[1]) && t[1].control.Some? && Quiet(t[1].control.value.service)
                         && t[2] == LandControl(t[1], Selector(Selected, table, evidence.value.approval))
      modifies this`seen, cloud
      ensures Holds() && old(seen) <= seen && evidence == old(evidence)
      ensures exact ==> Tracks(t, at) && (ok ==> at == 2 && Settled(Current())) && (cloud.reliable ==> ok)
    {
      var e := evidence.value;
      at := 1;
      ok := UpdateControl(Selected, table, e.approval, polls, t[1]);
      if !ok { return; }
      at := 2;
      ok := Interlude(t[2]);
      if !ok { return; }
      var c := cloud.control.value;
      ok := Quiet(c.service) && c.selector == Selector(Selected, table, e.approval);
      if !ok { return; }
      ok := Interlude(t[2]);
    }

    method SelectRuntime(table: Table, mode: Mode, polls: nat, ghost t: seq<World>, ghost exact: bool)
      returns (r: Outcome, ghost at: nat)
      requires Holds() && evidence.Some? && evidence.value.phase in {Selecting, ControlPlaneSelected} && |t| == 6
      requires evidence.value.target == Some(table)
      requires exact ==> At(t[3]) && MovesRuntime(t, evidence.value, table, mode)
      modifies this, cloud
      ensures Holds() && old(seen) <= seen
      ensures exact ==> Ended(t, at, r, cloud.reliable)
      ensures !mode.Quiesced? ==> cloud.updatesIssued == old(cloud.updatesIssued)
    {
      if mode.Quiesced? {
        var moved := MoveRuntime(table, polls, t, exact);
        if !moved { return Stopped, 3; }
      }
      var alive := Interlude(t[4]);
      if !alive { return Stopped, 4; }
      WriteState(evidence.value.(phase := SelectedPhase, target := Some(table)), t[4]);
      return Done, 5;
    }

    /** Select the target on the blocked runtime. */
    method MoveRuntime(table: Table, polls: nat, ghost t: seq<World>, ghost exact: bool) returns (ok: bool)
      requires Holds() && evidence.Some? && evidence.value.phase in {Selecting, ControlPlaneSelected} && |t| == 6
      requires evidence.value.target == Some(table)
      requires exact ==> At(t[3]) && t[4] == LandRuntime(t[3], Selector(Selected, table, evidence.value.approval))
      modifies this`seen, cloud
      ensures Holds() && old(seen) <= seen && evidence == old(evidence)
      ensures exact ==> (if ok then At(t[4]) else Tracks(t, 3)) && (cloud.reliable ==> ok)
    {
      ok := Interlude(t[3]);
      if !ok { return; }
      ok := UpdateRuntime(Selected, table, evidence.value.approval, polls, t[3]);
    }

    method Start(table: Table, polls: nat) returns (r: Outcome, ghost at: nat)
      requires Holds()
      modifies this, cloud
      ensures Holds() && old(seen) <= seen
      ensures old(Exact() && StartAccepts(Now(), table)) ==>
                Ended(old(StartTrace(Now(), table)), at, r, cloud.reliable)
      ensures old(Exact() && StartAccepts(Now(), table) && Unmoved(Now(), StartTrace(Now(), table)[3])) ==>
                cloud.updatesIssued == old(cloud.updatesIssued)
      ensures old(Exact() && !StartAccepts(Now(), table)) ==> !r.Done? && At(old(Now()))
    {
      at := 0;
      ghost var w := Now();
      if evidence.None? || evidence.value.phase !in {SelectedPhase, StartingValidation}
         || evidence.value.target != Some(table) {
        return Rejected, 0;
      }
      ghost var read := Current();
      var go, mode, refusal;
      ghost var checked;
      go, mode, refusal, checked := CheckStart(table, w);
      if !go { return refusal, 0; }
      ghost var exact := old(Exact());
      r, at := StartRuntime(table, mode, polls, read, checked,
                            if exact then StartTrace(w, table) else Nowhere(w, 4), exact);
    }

    /** Both planes as start looks at them. */
    method CheckStart(table: Table, ghost w: World)
      returns (go: bool, mode: Mode, refusal: Outcome, ghost checked: Live)
      requires Holds() && evidence.Some? && evidence.value.phase in {SelectedPhase, StartingValidation}
      requires evidence.value.target == Some(table) && w == Now()
      modifies this`seen, cloud
      ensures Holds() && old(seen) <= seen && evidence == old(evidence) && !refusal.Done?
      ensures cloud.updatesIssued == old(cloud.updatesIssued)
      ensures go ==> mode in {Selected, Validation} && mode == w.runtime.mode
      ensures go ==> ReadBefore(old(Current()), checked, Current())
      ensures old(Exact()) ==> At(w) && (go ==> StartAccepts(w, table))
      ensures old(Exact()) && StartAccepts(w, table) ==> go || (refusal.Stopped? && !cloud.reliable)
    {
      var e := evidence.value;
      var runtime := cloud.runtime;
      mode := runtime.mode;
      go := Interlude(w);
      checked := Current();
      refusal := Stopped;
      if !go { return; }
      refusal := Rejected;
      go := && (cloud.control.Some? ==>
                  Quiet(cloud.control.value.service) && cloud.control.value.selector == Chosen(e))
            && (runtime == Chosen(e) || runtime == Trial(e));
      if !go { return; }
      go := Interlude(w);
      refusal := Stopped;
    }

    method StartRuntime(table: Table, mode: Mode, polls: nat, ghost read: Live, ghost checked: Live,
                        ghost t: seq<World>, ghost exact: bool)
      returns (r: Outcome, ghost at: nat)
      requires Holds() && evidence.Some? && evidence.value.phase in {SelectedPhase, StartingValidation} && |t| == 4
      requires evidence.value.target == Some(table) && mode in {Selected, Validation}
      requires ReadBefore(read, checked, Current()) && read.world.runtime.mode == mode
      requires read.world.evidence == evidence
      requires exact ==> At(t[0]) && Validates(t, evidence.value, table, mode)
      modifies this, cloud
      ensures Holds() && old(seen) <= seen
      ensures exact ==> Ended(t, at, r, cloud.reliable)
      ensures !mode.Selected? ==> cloud.updatesIssued == old(cloud.updatesIssued)
    {
      at := 2;
      if mode.Selected? {
        var ok;
        ok, at := BeginValidation(table, polls, read, checked, t, exact);
        if !ok { return Stopped, at; }
      } else {
        StartMayFinish(read, checked, Current());
      }
      var ready := EndpointReady();
      if !ready { return Stopped, 2; }
      WriteState(evidence.value.(phase := ValidationPhase), t[2]);
      return Done, 3;
    }

    method BeginValidation(table: Table, polls: nat, ghost read: Live, ghost checked: Live,
                           ghost t: seq<World>, ghost exact: bool)
      returns (ok: bool, ghost at: nat)
      requires Holds() && evidence.Some? && evidence.value.phase in {SelectedPhase, StartingValidation} && |t| == 4
      requires evidence.value.target == Some(table)
      requires ReadBefore(read, checked, Current()) && read.world.runtime.mode.Selected?
      requires read.world.evidence == evidence
      requires exact ==> At(t[0]) && Validates(t, evidence.value, table, Selected)
      modifies this, cloud
      ensures Holds() && old(seen) <= seen
      ensures ok ==> && evidence == Some(old(evidence.value).(phase := StartingValidation))
                     && cloud.runtimeUpdate.None? && cloud.runtime.mode.Validation?
      ensures exact ==> Tracks(t, at) && (ok ==> at == 2 && Settled(Current())) && (cloud.reliable ==> ok)
    {
      var e := evidence.value;
      StartMayBegin(read, checked, Current());
      WriteState(e.(phase := StartingValidation), t[0]);
      at := 1;
      ok := Interlude(t[1]);
      if !ok { return; }
      if cloud.runtimeUpdate.None? {
        StartMayValidate(read, checked, Current(), table, e.approval);
      }
      ok := UpdateRuntime(Validation, table, e.approval, polls, t[1]);
      if ok { at := 2; }
    }

    /** Whether the endpoint answers that it is ready, at one stable version. */
    method EndpointReady() returns (ready: bool)
      ensures cloud.reliable ==> ready
    {
      ready := cloud.reliable;
      if !ready {
        ready := *;
      }
    }

    method Promote(table: Table, polls: nat) returns (r: Outcome, ghost at: nat)
      requires Holds()
      modifies this, cloud
      ensures Holds() && old(seen) <= seen
      ensures old(Exact() && PromoteAccepts(Now(), table)) ==>
                Ended(old(PromoteTrace(Now(), table)), at, r, cloud.reliable)
      ensures old(Exact() && PromoteAccepts(Now(), table) && Unmoved(Now(), PromoteTrace(Now(), table)[3])) ==>
                cloud.updatesIssued == old(cloud.updatesIssued)
      ensures old(Exact() && !PromoteAccepts(Now(), table)) ==> !r.Done? && At(old(Now()))
    {
      at := 0;
      ghost var w := Now();
      if evidence.None? || evidence.value.phase !in {ValidationPhase, Promoting}
         || evidence.value.target != Some(table) {
        return Rejected, 0;
      }
      var e := evidence.value;
      ghost var read := Current();
      var runtime := cloud.runtime;
      var alive := Interlude(w);
      if !alive { return Stopped, 0; }
      if cloud.control.Some? {
        var c := cloud.control.value;
        if !Quiet(c.service) || c.selector != Chosen(e) { return Rejected, 0; }
      }
      if runtime != Trial(e) && runtime != Promotion(e) { return Rejected, 0; }
      ghost var exact := old(Exact());
      r, at := PromoteRuntime(table, runtime.mode, polls, read,
                              if exact then PromoteTrace(w, table) else Nowhere(w, 4), exact);
    }

    method PromoteRuntime(table: Table, mode: Mode, polls: nat, ghost read: Live,
                          ghost t: seq<World>, ghost exact: bool)
      returns (r: Outcome, ghost at: nat)
      requires Holds() && evidence.Some? && evidence.value.phase in {ValidationPhase, Promoting} && |t| == 4
      requires evidence.value.target == Some(table) && mode in {Validation, Normal}
      requires Guarded(read) && Evolves(read, Current()) && read.world.runtime.mode == mode
      requires exact ==> At(t[0]) && Promotes(t, evidence.value, table, mode)
      modifies this, cloud
      ensures Holds() && old(seen) <= seen
      ensures exact ==> Ended(t, at, r, cloud.reliable)
      ensures !mode.Validation? ==> cloud.updatesIssued == old(cloud.updatesIssued)
    {
      ghost var from := read;
      if mode.Validation? {
        var ok;
        ok, at := BeginPromotion(table, polls, t, exact);
        if !ok { return Stopped, at; }
        from := Current();
      }
      ghost var before := Current();
      var alive := Interlude(t[2]);
      if !alive { return Stopped, 2; }
      var ready := EndpointReady();
      if !ready { return Stopped, 2; }
      EvolvesFurther(from, before, Current());
      PromoteMayFinish(from, Current());
      WriteState(evidence.value.(phase := Promoted), t[2]);
      return Done, 3;
    }

    method BeginPromotion(table: Table, polls: nat, ghost t: seq<World>, ghost exact: bool)
      returns (ok: bool, ghost at: nat)
      requires Holds() && evidence.Some? && evidence.value.phase in {ValidationPhase, Promoting} && |t| == 4
      requires evidence.value.target == Some(table)
      requires exact ==> At(t[0]) && Promotes(t, evidence.value, table, Validation)
      modifies this, cloud
      ensures Holds() && old(seen) <= seen
      ensures ok ==> && evidence == Some(old(evidence.value).(phase := Promoting))
                     && cloud.runtimeUpdate.None? && cloud.runtime.mode.Normal?
      ensures exact ==> Tracks(t, at) && (ok ==> at == 2 && Settled(Current())) && (cloud.reliable ==> ok)
    {
      var e := evidence.value;
      at := 0;
      ok := EndpointReady();
      if !ok { return; }
      WriteState(e.(phase := Promoting), t[0]);
      at := 1;
      ok := Interlude(t[1]);
      if !ok { return; }
      ok := UpdateRuntime(Normal, table, e.approval, polls, t[1]);
      if ok { at := 2; }
    }

    method Abort(polls: nat) returns (r: Outcome, ghost at: nat)
      requires Holds()
      modifies this, cloud
      ensures Holds() && old(seen) <= seen
      ensures old(Exact() && AbortAccepts(Now())) ==> Ended(old(AbortTrace(Now())), at, r, cloud.reliable)
      ensures old(Exact() && AbortAccepts(Now()) && Unmoved(Now(), AbortTrace(Now())[7])) ==>
                cloud.updatesIssued == old(cloud.updatesIssued)
      ensures old(Exact() && !AbortAccepts(Now())) ==> !r.Done? && At(old(Now()))
      ensures old(Exact()) && r.Done? ==> ServesNothing()
    {
      at := 0;
      ghost var w := Now();
      if evidence.None? || !Abortable(evidence.value.phase) { return Rejected, 0; }
      var e := evidence.value;
      ghost var exact := old(Exact()) && AbortAccepts(w);
      ghost var t := if exact then AbortTrace(w) else Nowhere(w, 8);
      var stops := cloud.control.Some? && e.phase in {Quiescing, ControlPlaneQuiesced};
      if stops {
        var stopped;
        stopped, at := StopControlPlane(polls, w);
        if !stopped { return Stopped, at; }
      }
      if old(Exact()) && !exact {
        RefusedAborts(w, e);
      }
      r, at := AbortPlanes(polls, stops, t, exact);
    }

    /** Check where both planes are, then undo them: the runtime while it is blocked, the control plane,
        and last the runtime's block. */
    method AbortPlanes(polls: nat, wrote: bool, ghost t: seq<World>, ghost exact: bool)
      returns (r: Outcome, ghost at: nat)
      requires Holds() && evidence.Some? && Abortable(evidence.value.phase) && |t| == 8
      requires exact ==> At(t[3]) && Undoes(t, evidence.value) && ServesNothing()
      modifies this, cloud
      ensures Holds() && old(seen) <= seen
      ensures exact ==> Ended(t, at, r, cloud.reliable)
      ensures exact && Unmoved(t[3], t[7]) ==> cloud.updatesIssued == old(cloud.updatesIssued)
      ensures exact && r.Done? ==> ServesNothing()
      ensures old(!PreValidation(evidence.value, cloud.runtime)) ==> !r.Done? && Current() == old(Current())
    {
      var e := evidence.value;
      var refusal := if wrote then Stopped else Rejected;
      ghost var read := Current();
      var runtime := cloud.runtime;
      at := 3;
      if !PreValidation(e, runtime) { return refusal, 3; }
      var alive := Interlude(t[3]);
      if !alive { return Stopped, 3; }
      ghost var checked := Current();
      if cloud.control.Some? {
        var c := cloud.control.value;
        if !Quiet(c.service) || !PreValidation(e, c.selector)
           || !SafeOrdering(runtime.mode, c.selector.mode) {
          return refusal, 3;
        }
        OrderingExcludesTrial(read, checked, e);
      }
      r, at := Undo(runtime.mode, polls, e, read, checked, t, exact);
    }

    method Undo(runtime: Mode, polls: nat, e: Evidence, ghost read: Live, ghost checked: Live,
                ghost t: seq<World>, ghost exact: bool)
      returns (r: Outcome, ghost at: nat)
      requires Holds() && Abortable(e.phase) && Found(read, checked, e) && |t| == 8
      requires checked == Current() && read.world.runtime.mode == runtime
      requires exact ==> At(t[3]) && Undoes(t, e) && ServesNothing() && t[3].runtime.mode == runtime
      modifies this, cloud
      ensures Holds() && old(seen) <= seen
      ensures exact ==> Ended(t, at, r, cloud.reliable)
      ensures exact && Unmoved(t[3], t[7]) ==> cloud.updatesIssued == old(cloud.updatesIssued)
      ensures exact && r.Done? ==> ServesNothing()
    {
      var ok;
      ghost var since;
      ok, since, at := TakeBack(runtime, polls, e, read, checked, t, exact);
      if !ok { return Stopped, at; }
      var mode := if runtime.Selected? then Quiesced else runtime;
      ghost var looked;
      ok, looked, at := UndoControl(polls, e, since, t, exact);
      if !ok { return Stopped, at; }
      r, at := UndoRuntime(mode, polls, e, since, looked, t, exact);
    }

    /** Take a selected runtime back to the original table while it is blocked. */
    method TakeBack(runtime: Mode, polls: nat, e: Evidence, ghost read: Live, ghost checked: Live,
                    ghost t: seq<World>, ghost exact: bool)
      returns (ok: bool, ghost since: Live, ghost at: nat)
      requires Holds() && Abortable(e.phase) && Found(read, checked, e) && |t| == 8
      requires checked == Current() && read.world.runtime.mode == runtime
      requires exact ==> At(t[3]) && Undoes(t, e) && ServesNothing() && t[3].runtime.mode == runtime
      modifies this`seen, cloud
      ensures Holds() && old(seen) <= seen && evidence == old(evidence)
      ensures ok ==> Undoing(since, Current(), e)
      ensures ok ==> since.world.runtime.mode == if runtime.Selected? then Quiesced else runtime
      ensures exact ==> Tracks(t, at) && (ok ==> at == 4 && At(t[4]) && ServesNothing()) && (cloud.reliable ==> ok)
      ensures !runtime.Selected? ==> cloud.updatesIssued == old(cloud.updatesIssued)
    {
      since := read;
      at := 3;
      ok := Interlude(t[3]);
      if !ok { return; }
      if runtime.Selected? {
        ok := UpdateRuntime(Quiesced, e.tableBefore, e.approval, polls, t[3]);
        if !ok { return; }
        since := Current();
      } else if cloud.control.Some? && e.phase.Quiescing? {
        QuiescingStaysPut(checked, Current(), e);
      }
      at := 4;
    }

    method UndoControl(polls: nat, e: Evidence, ghost read: Live, ghost t: seq<World>, ghost exact: bool)
      returns (ok: bool, ghost looked: Live, ghost at: nat)
      requires Holds() && Undoing(read, Current(), e) && |t| == 8
      requires exact ==> At(t[4]) && Undoes(t, e) && ServesNothing()
      modifies this`seen, cloud
      ensures Holds() && old(seen) <= seen && evidence == old(evidence)
      ensures ok ==> Undoing(read, Current(), e)
      ensures ok ==> && Guarded(looked) && looked.world.evidence == Some(e) && ControlEvolves(looked, Current())
                     && (looked.world.control.Some? ==> !looked.world.control.value.selector.mode.Selected?)
      ensures exact ==> Tracks(t, at) && (ok ==> at == 5 && At(t[5]) && ServesNothing()) && (cloud.reliable ==> ok)
      ensures exact && (t[3].control.Some? ==> !t[3].control.value.selector.mode.Selected?) ==>
                cloud.updatesIssued == old(cloud.updatesIssued)
    {
      ghost var before := Current();
      ok := Interlude(t[4]);
      UndoingPersists(read, before, Current(), e);
      looked := Current();
      at := 4;
      if !ok { return; }
      if cloud.control.Some? {
        ok := Quiet(cloud.control.value.service);
        if !ok { return; }
        if cloud.control.value.selector.mode.Selected? {
          ok := Reverse(polls, e, read, t, exact);
          looked := Current();
          if !ok {
            return;
          }
        }
      }
      at := 5;
    }

    /** Take a selected control plane back to the original table. */
    method Reverse(polls: nat, e: Evidence, ghost read: Live, ghost t: seq<World>, ghost exact: bool)
      returns (ok: bool)
      requires Holds() && Undoing(read, Current(), e) && cloud.control.Some? && |t| == 8
      requires cloud.control.value.selector.mode.Selected?
      requires exact ==> At(t[4]) && Undoes(t, e) && ServesNothing()
      modifies this`seen, cloud
      ensures Holds() && old(seen) <= seen && evidence == old(evidence) && cloud.control.Some?
      ensures ok ==> Undoing(read, Current(), e) && cloud.control.value.selector == Blocked(e)
      ensures exact ==> (if ok then At(t[5]) && ServesNothing() else Tracks(t, 4)) && (cloud.reliable ==> ok)
    {
      ghost var before := Current();
      ok := Interlude(t[4]);
      if !ok { return; }
      UndoingPersists(read, before, Current(), e);
      if cloud.controlUpdate.None? {
        AbortMayReverse(read, Current(), e);
      }
      ok := UpdateControl(Quiesced, e.tableBefore, e.approval, polls, t[4]);
    }

    method UndoRuntime(mode: Mode, polls: nat, e: Evidence, ghost read: Live, ghost looked: Live,
                       ghost t: seq<World>, ghost exact: bool)
      returns (r: Outcome, ghost at: nat)
      requires Holds() && Undoing(read, Current(), e) && |t| == 8
      requires read.world.runtime.mode == mode
      requires Guarded(looked) && looked.world.evidence == Some(e) && ControlEvolves(looked, Current())
      requires looked.world.control.Some? ==> !looked.world.control.value.selector.mode.Selected?
      requires exact ==> At(t[5]) && Undoes(t, e) && ServesNothing() && t[4].runtime.mode == mode
      modifies this, cloud
      ensures Holds() && old(seen) <= seen
      ensures exact ==> Ended(t, at, r, cloud.reliable)
      ensures mode.Normal? ==> cloud.updatesIssued == old(cloud.updatesIssued)
      ensures exact && r.Done? ==> ServesNothing()
    {
      ghost var start := read;
      at := 5;
      if mode.Quiesced? {
        var ok;
        ok := Unblock(polls, e, read, looked, t, exact);
        if !ok { return Stopped, 5; }
        start := Current();
      }
      ghost var before := Current();
      var alive := Interlude(t[6]);
      if !alive { return Stopped, 6; }
      UndoingPersists(start, before, Current(), e);
      AbortMayFinish(start, Current(), e);
      WriteState(e.(phase := Aborted), t[6]);
      return Done, 7;
    }

    /** Return the blocked runtime to where it was before the recovery. */
    method Unblock(polls: nat, e: Evidence, ghost read: Live, ghost looked: Live, ghost t: seq<World>, ghost exact: bool)
      returns (ok: bool)
      requires Holds() && Undoing(read, Current(), e) && |t| == 8
      requires Guarded(looked) && looked.world.evidence == Some(e) && ControlEvolves(looked, Current())
      requires looked.world.control.Some? ==> !looked.world.control.value.selector.mode.Selected?
      requires exact ==> At(t[5]) && Undoes(t, e) && ServesNothing() && t[4].runtime.mode.Quiesced?
      modifies this`seen, cloud
      ensures Holds() && old(seen) <= seen && evidence == old(evidence)
      ensures ok ==> cloud.runtime == Before(e) && Undoing(Current(), Current(), e)
      ensures exact ==> (if ok then At(t[6]) && ServesNothing() else Tracks(t, 5)) && (cloud.reliable ==> ok)
    {
      ghost var before := Current();
      ok := Interlude(t[5]);
      if !ok { return; }
      UndoingPersists(read, before, Current(), e);
      if cloud.runtimeUpdate.None? {
        AbortMayUndo(read, looked, Current(), e);
      }
      ok := UpdateRuntime(Normal, e.tableBefore, e.approvalBefore, polls, t[5]);
    }

    method Resume(polls: nat) returns (r: Outcome, ghost at: nat)
      requires Holds()
      modifies this, cloud
      ensures Holds() && old(seen) <= seen
      ensures old(Exact() && ResumeAccepts(Now())) ==>
                Ended(old(ResumeTrace(Now())), at, r, cloud.reliable && cloud.undisturbed)
      ensures old(Exact() && ResumeAccepts(Now()) && Unmoved(Now(), ResumeTrace(Now())[5])) ==>
                cloud.updatesIssued == old(cloud.updatesIssued)
      ensures old(Exact() && !ResumeAccepts(Now())) ==> !r.Done? && At(old(Now()))
    {
      at := 0;
      ghost var w := Now();
      if evidence.None? || evidence.value.phase !in {Promoted, Aborted} || !cloud.runtime.mode.Normal? {
        return Rejected, 0;
      }
      if evidence.value.controlPlane.None? { return Done, 5; }
      var go, mode, runtime, refusal := CheckResumption();
      if !go { return refusal, 0; }
      ghost var exact := old(Exact());
      r, at := ResumeControl(runtime, mode, polls, if exact then ResumeTrace(w) else Nowhere(w, 6), exact);
    }

    /** The checks of resume, the control plane's mode and the runtime's selector as they found them. */
    method CheckResumption() returns (go: bool, mode: Mode, runtime: Selector, refusal: Outcome)
      requires Holds() && evidence.Some? && evidence.value.phase in {Promoted, Aborted}
      requires cloud.runtime.mode.Normal? && cloud.control.Some?
      modifies this`seen, cloud
      ensures Holds() && old(seen) <= seen && evidence == old(evidence) && !refusal.Done? && cloud.control.Some?
      ensures cloud.updatesIssued == old(cloud.updatesIssued)
      ensures Resuming(Current(), evidence.value, runtime.table)
      ensures go ==> evidence.value.controlPlane.value.desired >= 1
      ensures go && mode.Normal? ==> Bound(Current(), runtime.table)
      ensures old(Exact()) ==> At(old(Now())) && runtime == old(cloud.runtime)
      ensures old(Exact()) && go ==> old(ResumeAccepts(Now())) && mode == old(cloud.control.value.selector.mode)
      ensures old(Exact() && ResumeAccepts(Now())) ==> go || (refusal.Stopped? && !cloud.reliable)
    {
      ghost var w := Now();
      var e := evidence.value;
      runtime, mode := cloud.runtime, Normal;
      ResumeReads(Current(), e);
      refusal := Stopped;
      go := Interlude(w);
      if !go { return; }
      var c := cloud.control.value;
      mode := c.selector.mode;
      refusal := Rejected;
      go := && c.selector.table == runtime.table && !mode.Validation?
            && (mode.Quiesced? || c.selector.approval == runtime.approval);
      if !go { return; }
      refusal := Stopped;
      go := StaysBound(e, runtime.table, w);
      if !go { return; }
      refusal := Rejected;
      go := (!mode.Normal? ==> Quiet(cloud.control.value.service)) && e.controlPlane.value.desired >= 1;
    }

    /** Time passes; a control plane that was normal stays bound to the table. */
    method StaysBound(e: Evidence, table: Table, ghost w: World) returns (alive: bool)
      requires Holds() && cloud.control.Some? && Resuming(Current(), e, table)
      modifies this`seen, cloud
      ensures Holds() && old(seen) <= seen && cloud.control.Some?
      ensures Resuming(Current(), e, table)
      ensures old(cloud.control.value.selector.mode.Normal?) ==> Bound(Current(), table)
      ensures old(At(w)) ==> At(w)
      ensures cloud.reliable ==> alive
      ensures cloud.updatesIssued == old(cloud.updatesIssued)
    {
      ghost var before := Current();
      alive := Interlude(w);
      if before.world.control.value.selector.mode.Normal? {
        NormalIsBound(before, e, table);
        BoundPersists(before, Current(), e, table);
      }
    }

    method ResumeControl(runtime: Selector, mode: Mode, polls: nat, ghost t: seq<World>, ghost exact: bool)
      returns (r: Outcome, ghost at: nat)
      requires Holds() && evidence.Some? && Resuming(Current(), evidence.value, runtime.table) && |t| == 6
      requires cloud.control.Some?
      requires mode.Normal? ==> Bound(Current(), runtime.table)
      requires exact ==> At(t[0]) && Resumes(t, evidence.value, runtime) && mode == t[0].control.value.selector.mode
      modifies this, cloud
      ensures Holds() && old(seen) <= seen
      ensures exact ==> Ended(t, at, r, cloud.reliable && cloud.undisturbed)
      ensures mode.Normal? ==> cloud.updatesIssued == old(cloud.updatesIssued)
    {
      var e := evidence.value;
      at := 0;
      if !mode.Normal? {
        var ok := BringBack(runtime, polls, t, exact);
        if !ok { return Stopped, 0; }
      }
      var ok;
      ok, at := RestoreCount(e, runtime.table, polls, t, exact);
      if !ok { return Stopped, at; }
      ok := RestoreScaling(e, runtime.table, t, exact);
      if !ok { return Stopped, 4; }
      WriteState(e.(phase := Complete), t[4]);
      return Done, 5;
    }

    /** Put the control plane back into normal mode on the runtime's table. */
    method BringBack(runtime: Selector, polls: nat, ghost t: seq<World>, ghost exact: bool) returns (ok: bool)
      requires Holds() && evidence.Some? && Resuming(Current(), evidence.value, runtime.table) && |t| == 6
      requires cloud.control.Some?
      requires exact ==> && At(t[0]) && t[0].control.Some? && QuietOrNormal(t[0].control.value)
                         && t[1] == LandControl(t[0], Selector(Normal, runtime.table, runtime.approval))
      modifies this`seen, cloud
      ensures Holds() && old(seen) <= seen && evidence == old(evidence)
      ensures ok ==> Resuming(Current(), evidence.value, runtime.table) && Bound(Current(), runtime.table)
      ensures exact ==> (if ok then At(t[1]) else Tracks(t, 0)) && (cloud.reliable ==> ok)
    {
      ok := Interlude(t[0]);
      if !ok { return; }
      if cloud.controlUpdate.None? {
        ResumeMayUpdate(Current(), evidence.value, runtime.table, runtime.approval);
      }
      ok := UpdateControl(Normal, runtime.table, runtime.approval, polls, t[0]);
      if !ok { return; }
      NormalIsBound(Current(), evidence.value, runtime.table);
    }

    /** Ask for the recorded number of tasks and wait until they run. */
    method RestoreCount(e: Evidence, ghost table: Table, polls: nat, ghost t: seq<World>, ghost exact: bool)
      returns (ok: bool, ghost at: nat)
      requires Holds() && evidence == Some(e) && Resuming(Current(), e, table) && Bound(Current(), table) && |t| == 6
      requires exact ==> At(t[1]) && Restores(t, e)
      modifies this`seen, cloud
      ensures Holds() && old(seen) <= seen && evidence == old(evidence)
      ensures cloud.updatesIssued == old(cloud.updatesIssued)
      ensures Resuming(Current(), e, table) && Bound(Current(), table)
      ensures exact ==> && Tracks(t, at) && (ok ==> at == 3 && Settled(Current()))
                        && (cloud.reliable && cloud.undisturbed ==> ok)
    {
      var desired := e.controlPlane.value.desired;
      at := 1;
      ghost var before := Current();
      ok := Interlude(t[1]);
      BoundPersists(before, Current(), e, table);
      if !ok { return; }
      ResumeMayServe(Current(), e, table, cloud.control.value.service.(desired := desired));
      AskFor(desired, t[1]);
      before := Current();
      ok := Interlude(t[2]);
      BoundPersists(before, Current(), e, table);
      at := 2;
      if !ok { return; }
      before := Current();
      ok := WaitStable(desired, polls, t[2]);
      BoundPersists(before, Current(), e, table);
      at := if ok || (exact && At(t[3])) then 3 else 2;
      if !ok { return; }
      before := Current();
      ok := Interlude(t[3]);
      BoundPersists(before, Current(), e, table);
    }

    /** Give the service its recorded capacity range and suspension flags back. */
    method RestoreScaling(e: Evidence, ghost table: Table, ghost t: seq<World>, ghost exact: bool) returns (ok: bool)
      requires Holds() && evidence == Some(e) && Resuming(Current(), e, table) && Bound(Current(), table) && |t| == 6
      requires e.controlPlane.Some?
      requires exact ==> && At(t[3]) && t[3].control.Some? && t[3].control.value.selector.mode.Normal?
                         && t[3].evidence == Some(e) && t[4] == ScalingRestored(t[3])
      modifies this`seen, cloud
      ensures Holds() && old(seen) <= seen && evidence == old(evidence)
      ensures cloud.updatesIssued == old(cloud.updatesIssued)
      ensures ok ==> Guarded(Current().(world := InPhase(Now(), Complete)))
      ensures exact ==> At(t[4]) && (cloud.reliable ==> ok)
    {
      var s := cloud.control.value.service.(
        minCapacity := e.controlPlane.value.minCapacity, maxCapacity := e.controlPlane.value.maxCapacity,
        suspended := e.controlPlane.value.suspended);
      ResumeMayServe(Current(), e, table, s);
      WriteService(s);
      ghost var before := Current();
      ok := Interlude(t[4]);
      BoundPersists(before, Current(), e, table);
      ResumeMayFinish(Current(), e, table);
    }

    method Cleanup(table: Table, polls: nat) returns (r: Outcome, ghost at: nat)
      requires Holds()
      modifies this`seen, cloud
      ensures Holds() && old(seen) <= seen
      ensures old(Exact() && CleanupAccepts(Now(), table)) ==>
                Ended(old(CleanupTrace(Now(), table)), at, r, cloud.reliable)
      ensures old(Exact() && !CleanupAccepts(Now(), table)) ==> !r.Done? && At(old(Now()))
      ensures cloud.updatesIssued == old(cloud.updatesIssued)
    {
      ghost var w := Now();
      var go, refusal := CheckCleanup(table);
      if !go { return refusal, 0; }
      ghost var from := if table in w.tables then w else Now();
      ghost var w1 := CleanupTrace(from, table)[1];
      var ok := Unprotect(table, polls, from);
      if !ok { return Stopped, 1; }
      WriteTables(cloud.tables - {table}, w1);
      return Done, 2;
    }

    /** Neither plane uses the table, both are normal, and the table is there and active. */
    method CheckCleanup(table: Table) returns (go: bool, refusal: Outcome)
      requires Holds()
      modifies this`seen, cloud
      ensures Holds() && old(seen) <= seen && evidence == old(evidence) && !refusal.Done?
      ensures cloud.updatesIssued == old(cloud.updatesIssued)
      ensures cloud.tablesStay ==> cloud.tables == old(cloud.tables)
      ensures go ==> table in cloud.tables
      ensures old(Exact()) ==> At(old(Now())) && (go ==> old(CleanupAccepts(Now(), table)))
      ensures old(Exact() && CleanupAccepts(Now(), table)) ==> go || (refusal.Stopped? && !cloud.reliable)
    {
      ghost var w := Now();
      var runtime := cloud.runtime;
      refusal := Rejected;
      go := table.Restored? && runtime.table != table && runtime.mode.Normal?;
      if !go { return; }
      refusal := Stopped;
      go := Interlude(w);
      if !go { return; }
      refusal := Rejected;
      go := cloud.control.Some? ==>
              var c := cloud.control.value.selector;
              c.table != table && c.mode.Normal? && c.table == runtime.table;
      if !go { return; }
      refusal := Stopped;
      go := Interlude(w);
      if !go { return; }
      refusal := Rejected;
      go := table in cloud.tables && cloud.tables[table].active;
    }

    /** Take the deletion protection off and poll until the table shows that. */
    method Unprotect(table: Table, polls: nat, ghost w: World) returns (ok: bool)
      requires Holds() && table in cloud.tables && table in w.tables
      modifies this`seen, cloud
      ensures Holds() && old(seen) <= seen && evidence == old(evidence)
      ensures old(At(w)) ==> At(CleanupTrace(w, table)[1])
      ensures cloud.updatesIssued == old(cloud.updatesIssued)
      ensures cloud.reliable && old(cloud.tables[table].active) ==> ok
    {
      ghost var w1 := CleanupTrace(w, table)[1];
      CleanupUnprotects(w, table);
      if cloud.tables[table].deletionProtected {
        WriteTables(WithoutProtection(cloud.tables, table), w);
        ok := AwaitUnprotected(table, polls, w1);
      } else {
        ok := Interlude(w1);
      }
    }

    predicate Unprotected(table: Table)
      reads cloud
    {
      table in cloud.tables && cloud.tables[table].active && !cloud.tables[table].deletionProtected
    }

    method AwaitUnprotected(table: Table, polls: nat, ghost w: World) returns (ok: bool)
      requires Holds()
      modifies this`seen, cloud
      ensures Holds() && old(seen) <= seen && evidence == old(evidence)
      ensures old(At(w)) ==> At(w)
      ensures cloud.updatesIssued == old(cloud.updatesIssued)
      ensures cloud.reliable && old(Unprotected(table)) ==> ok
    {
      var n := 0;
      ok := Unprotected(table);
      while n < polls && !ok
        invariant Holds() && old(seen) <= seen && evidence == old(evidence)
        invariant old(At(w)) ==> At(w)
        invariant cloud.updatesIssued == old(cloud.updatesIssued)
        invariant cloud.reliable && old(Unprotected(table)) ==> ok
      {
        var alive := Interlude(w);
        if !alive { return; }
        ok := Unprotected(table);
        n := n + 1;
      }
      var alive := Interlude(w);
      ok := ok && alive;
    }

    method WriteTables(tables: map<Table, TableInfo>, ghost w: World)
      requires Holds()
      modifies this`seen, cloud
      ensures Holds() && old(seen) <= seen
      ensures Current() == old(Current()).(world := old(Now()).(tables := tables))
      ensures old(At(w)) ==> At(w.(tables := tables))
      ensures cloud.updatesIssued == old(cloud.updatesIssued)
    {
      cloud.tables := tables;
      GuardedIsSafe(Current());
      seen := seen + {Now()};
    }

    /** Any commands in any order, each on whatever the ones before it left behind and possibly still in
        flight: no world along the way is unsafe. */
    method Operate(commands: seq<Command>, polls: nat)
      requires Holds()
      modifies this, cloud
      ensures Holds() && old(seen) <= seen
      ensures forall w | w in seen :: Safe(w)
    {
      for i := 0 to |commands|
        invariant Holds() && old(seen) <= seen
      {
        var _ := Interlude(Now());
        match commands[i] {
          case Quiesce(approval, newFile) =>
            if !newFile || evidence.None? || evidence.value.phase == Complete
               || (cloud.control.None? && evidence.value.phase in {Promoted, Aborted}) {
              var _, _, _ := Quiesce(approval, newFile, polls);
            }
          case Select(table) => var _, _ := Select(table, polls);
          case Start(table) => var _, _ := Start(table, polls);
          case Promote(table) => var _, _ := Promote(table, polls);
          case Abort => var _, _ := Abort(polls);
          case Resume => var _, _ := Resume(polls);
          case Cleanup(table) => var _, _ := Cleanup(table, polls);
        }
      }
    }

    /** The runbook end to end, on stacks that behave: every command returns, and both planes end normal
        on the new table with the service as it was. */
    method Recover(approval: Approval, table: Table, polls: nat)
      requires Holds() && Exact() && cloud.reliable && cloud.undisturbed && Finished(Now())
      requires cloud.control.Some? && cloud.control.value.service.desired >= 1
      requires approval.Change? && approval != cloud.runtime.approval
      requires Usable(Now(), table) && table != cloud.runtime.table
      modifies this, cloud
      ensures Holds() && Exact() && Finished(Now())
      ensures cloud.runtime == Selector(Normal, table, approval)
      ensures var s := old(cloud.control.value.service);
              cloud.control == Some(ControlPlane(cloud.runtime,
                Service(s.desired, 0, s.desired, s.minCapacity, s.maxCapacity, s.suspended)))
    {
      MoveBoth(approval, table, polls);
      ServeBoth(table, polls);
    }

    method MoveBoth(approval: Approval, table: Table, polls: nat)
      requires Holds() && Exact() && cloud.reliable && cloud.undisturbed && Finished(Now()) && cloud.control.Some?
      requires approval.Change? && approval != cloud.runtime.approval
      requires Usable(Now(), table) && table != cloud.runtime.table
      modifies this, cloud
      ensures Holds() && Exact()
      ensures evidence == Some(old(FreshEvidence(Now(), approval)).(phase := SelectedPhase, target := Some(table)))
      ensures cloud.runtime == Chosen(evidence.value) && cloud.control.Some?
    {
      ghost var w1 := ToQuiesced(Now(), approval);
      var _, _, _ := Quiesce(approval, true, polls);
      ghost var w2 := ToSelected(w1, table);
      var _, _ := Select(table, polls);
    }

    method ServeBoth(table: Table, polls: nat)
      requires Holds() && Exact() && cloud.reliable && cloud.undisturbed && cloud.control.Some?
      requires evidence.Some? && evidence.value.phase.SelectedPhase? && evidence.value.target == Some(table)
      requires Resumable(Now()) && cloud.runtime == Chosen(evidence.value)
      modifies this, cloud
      ensures Holds() && Exact()
      ensures evidence == Some(old(evidence.value).(phase := Complete))
      ensures cloud.runtime == Promotion(evidence.value)
      ensures var s := evidence.value.controlPlane.value;
              cloud.control == Some(ControlPlane(cloud.runtime,
                Service(s.desired, 0, s.desired, s.minCapacity, s.maxCapacity, s.suspended)))
    {
      ghost var w3, w4 := ToPromoted(Now(), table);
      var _, _ := Start(table, polls);
      var _, _ := Promote(table, polls);
      ghost var f := ToComplete(w4);
      var _, _ := Resume(polls);
    }
  }
}
