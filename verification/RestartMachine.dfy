/** The restart-surge machine: RolloutReconciler.reconcileWorkload. */
module RestartMachine {
  import opened Base
  import opened Surge
  import opened Inputs
  import opened RestartDetect

  datatype RestartInputs = RestartInputs(
    enabled: bool,
    ro: Rollout,
    pdb: Read<bool>,
    hpa: Read<Option<Hpa>>,
    pods: Read<seq<Pod>>,
    now: int)

  /** handleRestartPending, up to the decision to surge. */
  function Start(cfg: Config, o: Obj, x: RestartInputs): Plan {
    if !x.enabled || o.replicas != 1 then QUIET
    else if x.pods.ReadError? then FAIL
    else if !IsRestartStuck(x.ro, x.pods.value, cfg.grace, x.now) then
      if x.ro.restartAt.Some? && x.ro.restartedAt != x.ro.restartAt then Plan([], Requeue(cfg.grace)) else QUIET
    else if !IsStableForRestart(x.ro) then Plan([], Requeue(cfg.requeue))
    else if x.pdb.ReadError? then FAIL
    else if !x.pdb.value then QUIET
    else if x.hpa.ReadError? then FAIL
    else SurgeUp(cfg, o, x)
  }

  /** handleRestartPending, once every check has passed. */
  function SurgeUp(cfg: Config, o: Obj, x: RestartInputs): Plan
    requires x.hpa.Got?
  {
    var target := Succ32(o.replicas);
    var marked := o.(restart := ScaledUp, original := Some(o.replicas), restartStart := Some(TruncateToSecond(x.now)));
    match x.hpa.value
    case None => Plan([Save(marked.(replicas := target))], Requeue(cfg.requeue))
    case Some(h) =>
      if h.max < target then QUIET
      else if AtMin(h, target) then Plan([], Requeue(250 * MILLISECOND))
      else
        Plan([Save(marked.(hpaName := Text(h.name), hpaMin := Some(MinOrDefault(h)))),
              Step(SurgeHpa(Text(h.name), target), true)],
             Requeue(cfg.requeue))
  }

  /** handleRestartScaleUp: re-applies the surge but never leaves `pending`. */
  function ScaleUp(cfg: Config, o: Obj): Plan {
    if o.original.None? then RestartAbort(o)
    else if o.hpaName != EMPTY || o.replicas > o.original.value then Plan([], Requeue(cfg.requeue))
    else Plan([Save(o.(replicas := Succ32(o.original.value)))], Requeue(cfg.requeue))
  }

  /** handleRestartWaitReady. */
  function WaitReady(cfg: Config, o: Obj, x: RestartInputs): Plan {
    if o.hpaName == EMPTY && o.original.None? then RestartAbort(o)
    else if o.hpaName == EMPTY && o.replicas <= o.original.value then
      Plan([Save(o.(replicas := Succ32(o.original.value)))], Requeue(cfg.requeue))
    else if x.pods.ReadError? then FAIL
    else if ReadyCount(x.pods.value) >= 2 then
      Plan([Save(o.(restart := Ready))], Requeue(cfg.requeue))
    else Plan([], Requeue(cfg.requeue))
  }

  /** handleRestartWaitForArgo. */
  function WaitForArgo(cfg: Config, o: Obj, x: RestartInputs): Plan {
    if !CaughtUp(x.ro) && x.pods.ReadError? then FAIL
    else if !CaughtUp(x.ro) && !RestartCompleted(x.ro, x.pods.value) then Plan([], Requeue(cfg.requeue))
    else if RestoreInvalid(o) then FAIL
    else if o.original.None? then
      Plan(RestoreSteps(o, true) + RestartAbort(o).steps, Requeue(0))
    else
      var target := if o.hpaName == EMPTY then o.original.value else o.replicas;
      Plan(RestoreSteps(o, true) + [Save(o.(replicas := target, restart := Draining))], Requeue(cfg.requeue))
  }

  /** handleRestartScaleDown. */
  function ScaleDown(cfg: Config, o: Obj): Plan {
    if o.original.None? then RestartAbort(o)
    else
      var target := if o.hpaName == EMPTY then o.original.value else o.replicas;
      Plan([Save(o.(replicas := target, restart := Done))], Requeue(cfg.requeue))
  }

  /** handleRestartCleanup. */
  function Cleanup(o: Obj): Plan {
    Plan([Save(ClearRestart(o))], Requeue(0))
  }

  /** yieldToDrain. */
  function Yield(o: Obj): Plan {
    Plan([Save(ClearRestartExclusive(if o.hpaName == EMPTY then BackToOriginal(o) else o))], Requeue(0))
  }

  predicate RestartOverdue(cfg: Config, o: Obj, now: int) {
    Active(o.restart) && o.restartStart.Some? && TimedOut(cfg.restartTimeout, o.restartStart.value, now)
  }

  /** The reconcile finds a drain in progress and gives its own operation up. */
  predicate Yields(cfg: Config, o: Obj, now: int) {
    !RestartOverdue(cfg, o, now) && o.drain != Idle && Active(o.restart)
  }

  /** The handler of a restart-surge in progress. */
  function Advance(cfg: Config, o: Obj, x: RestartInputs): Plan
    requires o.restart != Idle
  {
    match o.restart
    case Pending => ScaleUp(cfg, o)
    case ScaledUp => WaitReady(cfg, o, x)
    case Ready => WaitForArgo(cfg, o, x)
    case Draining => ScaleDown(cfg, o)
    case Done => Cleanup(o)
    case Unknown => RestartAbort(o)
  }

  /** RolloutReconciler.reconcileWorkload. */
  function RestartPlan(cfg: Config, o: Obj, x: RestartInputs): Plan {
    if RestartOverdue(cfg, o, x.now) then RestartAbort(o)
    else if o.drain != Idle then
      if Active(o.restart) then Yield(o) else QUIET
    else if o.restart == Idle then Start(cfg, o, x)
    else Advance(cfg, o, x)
  }

  function RestartOrphanPlan(o: Obj, ro: Rollout): Plan {
    if o.restart != Idle && ArgoIdle(ro) then RestartAbort(o) else QUIET
  }

  /** rolloutRelevantPredicate. */
  predicate Relevant(o: Obj, enabled: bool, ro: Rollout) {
    o.restart != Idle || (enabled && ro.restartAt.Some? && ro.restartedAt != ro.restartAt)
  }
}
