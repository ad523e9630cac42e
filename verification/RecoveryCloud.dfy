/** The deployed stacks as mutable state: what they run, what update is in flight on each, and how they move
    while nobody acts on them. */
module RecoveryCloud {
  import opened Options
  import opened RecoveryModel
  import opened RecoveryRuns
  import opened RecoveryInFlight

  class Cloud {
    const dataKey: nat
    const reliable: bool      // updates succeed, tasks and endpoints become ready, nothing is killed
    const undisturbed: bool   // tasks and counts move only when a command waits for them
    const tablesStay: bool    // no table appears, changes or goes while a command runs, but by cleanup
    var runtime: Selector
    var runtimeUpdate: Option<Selector>
    var control: Option<ControlPlane>
    var controlUpdate: Option<Selector>
    var tables: map<Table, TableInfo>
    var updatesIssued: nat

    constructor (dataKey: nat, reliable: bool, undisturbed: bool, tablesStay: bool,
                 runtime: Selector, control: Option<ControlPlane>, tables: map<Table, TableInfo>)
      ensures this.dataKey == dataKey && this.reliable == reliable
      ensures this.undisturbed == undisturbed && this.tablesStay == tablesStay
      ensures this.runtime == runtime && this.control == control && this.tables == tables
      ensures runtimeUpdate.None? && controlUpdate.None? && updatesIssued == 0
    {
      this.dataKey, this.reliable := dataKey, reliable;
      this.undisturbed, this.tablesStay := undisturbed, tablesStay;
      this.runtime, this.control, this.tables := runtime, control, tables;
      runtimeUpdate, controlUpdate, updatesIssued := None, None, 0;
    }

    ghost function Stacks(evidence: Option<Evidence>): Live
      reads this
    {
      Live(World(dataKey, runtime, control, evidence, tables), runtimeUpdate, controlUpdate)
    }

    /** Time passes: updates in flight may land or roll back, and the service and the tables may change. */
    method Pass(ghost evidence: Option<Evidence>)
      modifies this
      ensures Elapses(old(Stacks(evidence)), Stacks(evidence))
      ensures undisturbed ==> Lands(old(Stacks(evidence)), Stacks(evidence))
      ensures tablesStay ==> tables == old(tables)
      ensures updatesIssued == old(updatesIssued)
    {
      StacksPass(evidence);
      if !tablesStay {
        var changed: map<Table, TableInfo> := *;
        tables := changed;
      }
    }

    method StacksPass(ghost evidence: Option<Evidence>)
      modifies this`runtime, this`runtimeUpdate, this`control, this`controlUpdate
      ensures Passes(old(Stacks(evidence)), Stacks(evidence))
      ensures undisturbed ==> Lands(old(Stacks(evidence)), Stacks(evidence))
    {
      if runtimeUpdate.Some? {
        if * {
          if RuntimeTransition(runtime.mode, runtimeUpdate.value.mode) {
            runtime := runtimeUpdate.value;
          }
          runtimeUpdate := None;
        }
      }
      if control.Some? && controlUpdate.Some? {
        if * {
          ControlEnds();
        }
      }
      if control.Some? && !undisturbed {
        Drift();
      }
    }

    /** The control-plane update lands, unless its guard refuses it or it fails, and is rolled back. */
    method ControlEnds()
      requires control.Some? && controlUpdate.Some?
      modifies this`control, this`controlUpdate
      ensures control.Some? && controlUpdate.None?
      ensures var c, u := old(control.value), old(controlUpdate.value);
              || (control == Some(ControlPlane(u, ServiceUnder(c.service, c.selector.mode, u.mode)))
                  && ControlTransition(c.selector.mode, u.mode))
              || control.value == c
              || control == Some(c.(service := ServiceUnder(c.service, u.mode, c.selector.mode)))
    {
      var c, u := control.value, controlUpdate.value;
      if * {
        if ControlTransition(c.selector.mode, u.mode) {
          control := Some(ControlPlane(u, ServiceUnder(c.service, c.selector.mode, u.mode)));
        }
      } else if * {
        control := Some(c.(service := ServiceUnder(c.service, u.mode, c.selector.mode)));
      }
      controlUpdate := None;
    }

    /** Tasks start and stop, and autoscaling acts where it may. */
    method Drift()
      requires control.Some?
      modifies this`control
      ensures control.Some? && control.value.selector == old(control.value.selector)
      ensures ServiceDrifts(old(control.value.service), control.value.service)
    {
      var drifted: Service := *;
      if ServiceDrifts(control.value.service, drifted) {
        control := Some(control.value.(service := drifted));
      }
    }
  }

  /** Updates land or roll back and nothing else happens. */
  predicate Lands(l: Live, l': Live) {
    && (l.runtimeUpdate.None? ==> l'.runtimeUpdate.None? && l'.world.runtime == l.world.runtime)
    && (l.controlUpdate.None? ==> l'.controlUpdate.None? && l'.world.control == l.world.control)
    && (l.controlUpdate.Some? && l.world.control.Some? ==>
          || l'.world.control == l.world.control
          || (l'.controlUpdate.None? && l'.world.control == LandControl(l.world, l.controlUpdate.value).control)
          || (l'.controlUpdate.None? && l'.world.control == RolledBack(l.world, l.controlUpdate.value).control))
  }
}
