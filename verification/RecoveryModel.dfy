/** The two deployed planes, the recovery state file, and what one remote or file write does to them.

    The AgentCore runtime and the control plane are separate CloudFormation stacks.  Each publishes a
    selector (mode, state table, approval).  The control plane also owns an ECS service with one
    scalable target.  The state file is the evidence of one recovery. */
module RecoveryModel {

  import opened Options

  /** A state table: the primary one, a restore in the primary's restore-validation namespace, or a
      table outside it.  Names matter only through this and through equality. */
  datatype Table = Primary | Restored(id: nat) | Foreign(id: nat)

  /** A change or incident identifier; blank on a stack that never recovered. */
  datatype Approval = Blank | Change(id: nat)

  datatype Mode = Normal | Quiesced | Selected | Validation

  datatype Selector = Selector(mode: Mode, table: Table, approval: Approval)

  datatype Suspension = Suspension(scaleIn: bool, scaleOut: bool, scheduled: bool)

  const ALL_SUSPENDED := Suspension(true, true, true)
  const NONE_SUSPENDED := Suspension(false, false, false)

  datatype Service = Service(
    desired: nat, pending: nat, running: nat,
    minCapacity: nat, maxCapacity: nat, suspended: Suspension)

  datatype ControlPlane = ControlPlane(selector: Selector, service: Service)

  datatype Phase =
    | Quiescing | ControlPlaneQuiesced | QuiescedPhase
    | Selecting | ControlPlaneSelected | SelectedPhase
    | StartingValidation | ValidationPhase | Promoting
    | Promoted | Aborted | Complete

  /** What quiesce records about the control plane before it touches it. */
  datatype Snapshot = Snapshot(
    desired: nat, minCapacity: nat, maxCapacity: nat, suspended: Suspension, table: Table)

  datatype Evidence = Evidence(
    phase: Phase, tableBefore: Table, approvalBefore: Approval, approval: Approval,
    target: Option<Table>, controlPlane: Option<Snapshot>)

  /** What describe-table, describe-continuous-backups and describe-time-to-live say about a table. */
  datatype TableInfo = TableInfo(
    active: bool, deletionProtected: bool, encrypted: bool, key: nat,
    keyedByPkSk: bool, pointInTimeRecovery: bool, expiresAtTtl: bool)

  datatype World = World(
    dataKey: nat,
    runtime: Selector, control: Option<ControlPlane>,
    evidence: Option<Evidence>, tables: map<Table, TableInfo>)

  predicate Usable(w: World, table: Table) {
    && !table.Foreign?
    && table in w.tables
    && var t := w.tables[table];
       t.active && t.deletionProtected && t.encrypted && t.key == w.dataKey
       && t.keyedByPkSk && t.pointInTimeRecovery && t.expiresAtTtl
  }

  /** The stack parameter is left empty for the primary table; the template resolves an empty one to it. */
  function TargetParameter(table: Table): Option<Table> {
    if table == Primary then None else Some(table)
  }

  function ResolveParameter(parameter: Option<Table>): Table {
    if parameter.None? then Primary else parameter.value
  }

  /** The selector a stack publishes once an update to this mode, table and approval has landed. */
  function Landing(mode: Mode, table: Table, approval: Approval): (s: Selector)
    ensures s == Selector(mode, table, approval)
  {
    Selector(mode, ResolveParameter(TargetParameter(table)), approval)
  }

  predicate Serving(s: Selector) {
    s.mode.Normal? || s.mode.Validation?
  }

  predicate Active(s: Service) {
    s.desired > 0 || s.pending > 0 || s.running > 0
  }

  /** Stopped, at minimum capacity zero, with every scaling path suspended. */
  predicate Quiet(s: Service) {
    !Active(s) && s.minCapacity == 0 && s.suspended == ALL_SUSPENDED
  }

  /** Told to stop, with every scaling path suspended; tasks may still be draining. */
  predicate Emptied(s: Service) {
    s.desired == 0 && s.minCapacity == 0 && s.suspended == ALL_SUSPENDED
  }

  /** The control-plane template pins count, minimum and suspension to the mode, so an update that
      enters or leaves normal mode rewrites them. */
  function ServiceUnder(s: Service, before: Mode, after: Mode): Service {
    if before.Normal? && !after.Normal? then
      s.(desired := 0, minCapacity := 0, suspended := ALL_SUSPENDED)
    else if !before.Normal? && after.Normal? then
      s.(desired := 2, minCapacity := 2, suspended := NONE_SUSPENDED)
    else s
  }

  /** The modes each stack's own guard lets an update go between; any other update is rolled back. */
  predicate RuntimeTransition(before: Mode, after: Mode) {
    (before, after) in {
      (Normal, Normal), (Normal, Quiesced), (Quiesced, Quiesced), (Quiesced, Normal), (Quiesced, Selected),
      (Selected, Selected), (Selected, Quiesced), (Selected, Validation), (Validation, Validation),
      (Validation, Normal)}
  }

  predicate ControlTransition(before: Mode, after: Mode) {
    (before, after) in {
      (Normal, Normal), (Normal, Quiesced), (Quiesced, Quiesced), (Quiesced, Normal), (Quiesced, Selected),
      (Selected, Selected), (Selected, Quiesced), (Selected, Normal)}
  }

  function LandRuntime(w: World, s: Selector): World {
    w.(runtime := s)
  }

  function LandControl(w: World, s: Selector): World
    requires w.control.Some?
  {
    var c := w.control.value;
    w.(control := Some(ControlPlane(s, ServiceUnder(c.service, c.selector.mode, s.mode))))
  }

  /** What a rolled-back update to this selector leaves: the template's values for the mode that is kept. */
  function RolledBack(w: World, s: Selector): World
    requires w.control.Some?
  {
    var c := w.control.value;
    w.(control := Some(c.(service := ServiceUnder(c.service, s.mode, c.selector.mode))))
  }

  function WithService(w: World, s: Service): World
    requires w.control.Some?
  {
    w.(control := Some(w.control.value.(service := s)))
  }

  function InPhase(w: World, phase: Phase): World
    requires w.evidence.Some?
  {
    w.(evidence := Some(w.evidence.value.(phase := phase)))
  }

  /** The property the recovery exists for: a serving runtime and a control plane with any task
      desired, pending or running never use two different tables. */
  predicate Safe(w: World) {
    w.control.Some? && Serving(w.runtime) && Active(w.control.value.service)
    ==> w.runtime.table == w.control.value.selector.table
  }

  /** No recovery is under way.  Without a control plane, promote and abort are the last commands. */
  predicate Finished(w: World) {
    w.evidence.Some? ==>
      || w.evidence.value.phase == Complete
      || (w.control.None? && w.evidence.value.phase in {Promoted, Aborted})
  }
}
