/**
 The decoded workload object, the writes the controller can issue on it, and what the API server
 makes of a handler's writes when each of them may land, be lost or be reported as failed.
 */
module Surge {
  import opened Base

  /** An annotation value: a text, or the RFC 3339 text of an instant (in nanoseconds). */
  datatype Value = Text(s: string) | Stamp(at: int)

  /** What a missing annotation reads as. */
  const EMPTY: Value := Text("")

  /** The values of drain-state and restart-surge-state; Idle is the empty or missing value. */
  datatype State = Idle | Pending | ScaledUp | Ready | Draining | Done | Unknown

  /** The states in which the extra replica is out. */
  predicate Surged(s: State) { s == ScaledUp || s == Ready }

  /** The states that the timeout watches. */
  predicate Active(s: State) { s != Idle && s != Done }

  /** A workload, as both machines read it: effective replicas and the eight owned annotations, decoded. */
  datatype Obj = Obj(
    replicas: Int32,
    drain: State,
    original: Option<Int32>,
    node: Value,
    start: Option<int>,
    hpaName: Value,
    hpaMin: Option<int>,
    restart: State,
    restartStart: Option<int>)

  /** The HPA that targets the workload. */
  datatype Hpa = Hpa(name: string, min: Option<Int32>, max: Int32)

  /** minReplicas with the autoscaling/v2 default. */
  function MinOrDefault(h: Hpa): Int32 {
    if h.min.Some? then h.min.value else 1
  }

  predicate AtMin(h: Hpa, target: Int32) {
    h.min.Some? && h.min.value >= target
  }

  /** Everything durable about one workload. */
  datatype World = World(obj: Obj, hpa: Option<Hpa>)

  datatype Write =
    | SetWorkload(obj: Obj)
    | SurgeHpa(name: Value, min: Int32)
    | RestoreHpa(name: Value, min: Int32)

  /** A write, and whether its failure makes the handler return. */
  datatype Step = Step(write: Write, required: bool)

  /** What a handler does after its reads: its writes in order, then a result. */
  datatype Plan = Plan(steps: seq<Step>, result: Result)

  datatype Result = Requeue(after: int) | Failed

  const QUIET: Plan := Plan([], Requeue(0))
  const FAIL: Plan := Plan([], Failed)

  /**
   What happens to one write: it takes effect and the controller hears so; it takes effect but the
   controller hears an error; or it is lost. A crash is the loss of this write and all later ones.
   */
  datatype Fate = Fine | Unheard | Lost

  /** The fates of a handler none of whose writes fails; no handler issues more than three. */
  const ALL_FINE: seq<Fate> := [Fine, Fine, Fine]

  predicate HasHpa(w: World, name: Value) {
    w.hpa.Some? && Text(w.hpa.value.name) == name
  }

  /** One write taking effect. Patching an HPA that is not there changes nothing. */
  function Land(w: World, x: Write): World {
    match x
    case SetWorkload(o) => w.(obj := o)
    case SurgeHpa(name, n) => SetMin(w, name, n)
    case RestoreHpa(name, n) => SetMin(w, name, n)
  }

  function SetMin(w: World, name: Value, n: Int32): World {
    if HasHpa(w, name) then w.(hpa := Some(w.hpa.value.(min := Some(n)))) else w
  }

  /** Whether the client call for a write returns without error. */
  predicate Succeeds(w: World, x: Write, f: Fate) {
    f == Fine && (x.SetWorkload? || HasHpa(w, x.name))
  }

  datatype Outcome = Outcome(world: World, result: Result)

  /** Carries out a plan's writes in order, each with its own fate, stopping where the handler returns. */
  function Execute(w: World, plan: Plan, fates: seq<Fate>): Outcome
    decreases |plan.steps|
  {
    if plan.steps == [] then Outcome(w, plan.result)
    else
      var f := if fates == [] then Lost else fates[0];
      var w' := if f != Lost then Land(w, plan.steps[0].write) else w;
      if plan.steps[0].required && !Succeeds(w, plan.steps[0].write, f) then Outcome(w', Failed)
      else Execute(w', Plan(plan.steps[1..], plan.result), if fates == [] then [] else fates[1..])
  }

  /** All owned annotations gone, which is how clearDrainAnnotations leaves a workload. */
  function ClearAll(o: Obj): Obj {
    Obj(o.replicas, Idle, None, EMPTY, None, EMPTY, None, Idle, None)
  }

  /** The restart-surge keys and the shared bookkeeping gone. */
  function ClearRestart(o: Obj): Obj {
    o.(restart := Idle, restartStart := None, original := None, hpaName := EMPTY, hpaMin := None)
  }

  /** Only the two restart-surge markers gone. */
  function ClearRestartExclusive(o: Obj): Obj {
    o.(restart := Idle, restartStart := None)
  }

  /** restoreHPA found an HPA on record but cannot read the minimum to put back. */
  predicate RestoreInvalid(o: Obj) {
    o.hpaName != EMPTY && o.hpaMin.None?
  }

  function RestoreSteps(o: Obj, required: bool): seq<Step> {
    if o.hpaName == EMPTY || o.hpaMin.None? then []
    else [Step(RestoreHpa(o.hpaName, Wrap32(o.hpaMin.value)), required)]
  }

  /** Replicas put back to the recorded original, when there is one. */
  function BackToOriginal(o: Obj): Obj {
    if o.original.Some? then o.(replicas := o.original.value) else o
  }

  function Save(o: Obj): Step { Step(SetWorkload(o), true) }

  /** abortWorkload: a failed restore is logged and swallowed. */
  function DrainAbort(o: Obj): Plan {
    Plan(RestoreSteps(o, false) + [Save(ClearAll(BackToOriginal(o)))], Requeue(0))
  }

  /** abortRestartSurge. */
  function RestartAbort(o: Obj): Plan {
    Plan(RestoreSteps(o, false) + [Save(ClearRestart(BackToOriginal(o)))], Requeue(0))
  }

  /**
   Both timeout checks of a reconcile: more than three timeouts, or more than one. The product is
   an int64 and may wrap around.
   */
  predicate TimedOut(timeout: int, start: int, now: int) {
    var elapsed := Clamp64(now - start);
    elapsed > Wrap64(3 * timeout) || elapsed > timeout
  }

  datatype Config = Config(requeue: int, readinessTimeout: int, grace: int, restartTimeout: int)
}
