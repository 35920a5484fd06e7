/**
 The drain-surge machine: what NodeReconciler.reconcileWorkload does with one workload, as the
 plan of writes that follows from the object it read and everything else it read.
 */
module DrainMachine {
  import opened Base
  import opened Surge
  import opened Inputs

  /** FindMatchingHPA is called twice on the way into a drain and may answer differently. */
  datatype DrainInputs = DrainInputs(
    enabled: bool,
    status: Status,
    hpaCheck: Read<Option<Hpa>>,
    pdb: Read<bool>,
    hpa: Read<Option<Hpa>>,
    pods: Read<seq<Pod>>,
    now: int)

  predicate ShouldProcess(o: Obj, node: string, x: DrainInputs) {
    && x.enabled
    && o.replicas == 1
    && IsStable(x.status)
    && (o.node == EMPTY || o.node == Text(node))
    && CanSurge(x.status)
    && x.hpaCheck.Got?
    && (x.hpaCheck.value.Some? ==> x.hpaCheck.value.value.max > 1)
  }

  /** handlePending. */
  function Start(cfg: Config, o: Obj, node: string, x: DrainInputs): Plan {
    if x.pdb.ReadError? then FAIL
    else if !x.pdb.value then QUIET
    else if x.hpa.ReadError? then FAIL
    else
      var target := Succ32(o.replicas);
      var marked := o.(drain := ScaledUp, original := Some(o.replicas), node := Text(node),
                       start := Some(TruncateToSecond(x.now)));
      match x.hpa.value
      case None => Plan([Save(marked.(replicas := target))], Requeue(cfg.requeue))
      case Some(h) =>
        if h.max < target then QUIET
        else if AtMin(h, target) then Plan([], Requeue(250 * MILLISECOND))
        else
          Plan([Save(marked.(hpaName := Text(h.name), hpaMin := Some(MinOrDefault(h)))),
                Step(SurgeHpa(Text(h.name), target), true)],
               Requeue(cfg.requeue))
  }

  /** handleScaleUp, reached only from a `pending` that the controller itself never writes. */
  function ScaleUp(cfg: Config, o: Obj): Plan {
    if o.original.None? then DrainAbort(o)
    else
      var target := if o.replicas <= o.original.value then Succ32(o.original.value) else o.replicas;
      Plan([Save(o.(replicas := target, drain := ScaledUp))], Requeue(cfg.requeue))
  }

  /** handleWaitReady. */
  function WaitReady(cfg: Config, o: Obj, node: string, x: DrainInputs): Plan {
    if o.hpaName == EMPTY && o.original.None? then DrainAbort(o)
    else if o.hpaName == EMPTY && o.replicas <= o.original.value then
      Plan([Save(o.(replicas := Succ32(o.original.value)))], Requeue(cfg.requeue))
    else if x.pods.ReadError? then FAIL
    else if ReadyElsewhere(x.pods.value, node) then
      Plan([Save(o.(drain := Ready))], Requeue(cfg.requeue))
    else Plan([], Requeue(cfg.requeue))
  }

  /** handleWaitEviction. */
  function WaitEviction(cfg: Config, o: Obj, node: string, x: DrainInputs): Plan {
    if x.pods.ReadError? then FAIL
    else if LivePodOn(x.pods.value, node) then Plan([], Requeue(cfg.requeue))
    else if RestoreInvalid(o) then FAIL
    else if o.original.None? then
      Plan(RestoreSteps(o, true) + DrainAbort(o).steps, Requeue(0))
    else
      var target := if o.hpaName == EMPTY then o.original.value else o.replicas;
      Plan(RestoreSteps(o, true) + [Save(o.(replicas := target, drain := Draining))], Requeue(cfg.requeue))
  }

  /** handleScaleDown. */
  function ScaleDown(cfg: Config, o: Obj): Plan {
    if o.original.None? then DrainAbort(o)
    else
      var target := if o.hpaName == EMPTY then o.original.value else o.replicas;
      Plan([Save(o.(replicas := target, drain := Done))], Requeue(cfg.requeue))
  }

  /** handleCleanup. */
  function Cleanup(o: Obj): Plan {
    Plan([Save(ClearAll(o))], Requeue(0))
  }

  /** The timeout guard that runs before anything else. */
  predicate DrainOverdue(cfg: Config, o: Obj, now: int) {
    Active(o.drain) && o.start.Some? && TimedOut(cfg.readinessTimeout, o.start.value, now)
  }

  /** The handler of a drain in progress. */
  function Advance(cfg: Config, o: Obj, node: string, x: DrainInputs): Plan
    requires o.drain != Idle
  {
    match o.drain
    case Pending => ScaleUp(cfg, o)
    case ScaledUp => WaitReady(cfg, o, node, x)
    case Ready => WaitEviction(cfg, o, node, x)
    case Draining => ScaleDown(cfg, o)
    case Done => Cleanup(o)
    case Unknown => DrainAbort(o)
  }

  /** NodeReconciler.reconcileWorkload. */
  function DrainPlan(cfg: Config, o: Obj, node: string, x: DrainInputs): Plan {
    if DrainOverdue(cfg, o, x.now) then DrainAbort(o)
    else if o.drain == Idle then
      if ShouldProcess(o, node, x) then Start(cfg, o, node, x) else QUIET
    else if o.node != EMPTY && o.node != Text(node) then QUIET
    else Advance(cfg, o, node, x)
  }

  /** abortWorkloadsForNode, as it concerns one workload. */
  function NodeGonePlan(o: Obj, node: string): Plan {
    if o.node != EMPTY && o.node == Text(node) then DrainAbort(o) else QUIET
  }

  /** Whether the drain orphan scan aborts a workload, given the names of the tainted nodes. */
  predicate IsDrainOrphan(o: Obj, tainted: set<string>) {
    o.node != EMPTY && !(o.node.Text? && o.node.s in tainted)
  }

  function DrainOrphanPlan(o: Obj, tainted: set<string>): Plan {
    if IsDrainOrphan(o, tainted) then DrainAbort(o) else QUIET
  }
}
