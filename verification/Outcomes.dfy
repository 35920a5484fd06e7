/**
 What one reconcile comes to, stated on the fields of what it reads and of what is stored afterwards,
 for every state of either machine and all fates of the writes.
 */
module Outcomes {
  import opened Base
  import opened Surge
  import opened Inputs
  import opened DM = DrainMachine
  import opened RM = RestartMachine
  import opened Joint
  import R = Reconcilers

  // ---------- Shapes ----------

  /** One write of the workload, and the result unless it fails. */
  predicate Saved(out: Outcome, w: World, o': Obj, r: Result, f: Fate) {
    && out.world == (if f == Lost then w else World(o', w.hpa))
    && out.result == (if f == Fine then r else Failed)
  }

  /** One more replica, in an int32. */
  function OneMore(n: Int32): Int32 {
    if n == 0x7FFF_FFFF then -0x8000_0000 else n + 1
  }

  /** The HPA of that name, if it is there, at the given minimum. */
  function HpaAt(w: World, name: Value, min: Int32): World {
    if w.hpa.Some? && Text(w.hpa.value.name) == name
    then World(w.obj, Some(Hpa(w.hpa.value.name, Some(min), w.hpa.value.max)))
    else w
  }

  predicate Present(w: World, name: Value) {
    w.hpa.Some? && Text(w.hpa.value.name) == name
  }

  /** A restore of the HPA that must succeed before the workload is written. */
  predicate RestoredThenSaved(out: Outcome, w: World, o': Obj, r: Result, fates: seq<Fate>)
    requires w.obj.hpaMin.Some?
  {
    var w1 := if FateAt(fates, 0) == Lost then w else HpaAt(w, w.obj.hpaName, Wrap32(w.obj.hpaMin.value));
    if FateAt(fates, 0) == Fine && Present(w, w.obj.hpaName) then Saved(out, w1, o', r, FateAt(fates, 1))
    else out == Outcome(w1, Failed)
  }

  /** A write of the workload that must succeed before the HPA is surged. */
  predicate SavedThenSurged(out: Outcome, w: World, o': Obj, name: string, r: Result, fates: seq<Fate>) {
    var w1 := if FateAt(fates, 0) == Lost then w else World(o', w.hpa);
    if FateAt(fates, 0) == Fine then
      && out.world == (if FateAt(fates, 1) == Lost then w1 else HpaAt(w1, Text(name), 2))
      && out.result == (if FateAt(fates, 1) == Fine && Present(w, Text(name)) then r else Failed)
    else out == Outcome(w1, Failed)
  }

  /** An attempt to restore whose failure does not matter, and then one write of the workload. */
  predicate AbortedTo(out: Outcome, w: World, o': Obj, fates: seq<Fate>) {
    if w.obj.hpaName == Text("") || w.obj.hpaMin.None? then Saved(out, w, o', Requeue(0), FateAt(fates, 0))
    else
      var w1 := if FateAt(fates, 0) == Lost then w else HpaAt(w, w.obj.hpaName, Wrap32(w.obj.hpaMin.value));
      Saved(out, w1, o', Requeue(0), FateAt(fates, 1))
  }

  /** The workload at its original replicas, or where it is if none are on record, with nothing owned left. */
  function DrainCleared(o: Obj): Obj {
    var n := if o.original.Some? then o.original.value else o.replicas;
    Obj(n, Idle, None, Text(""), None, Text(""), None, Idle, None)
  }

  /** The same of a restart-surge, which leaves drain-state, drain-node and drain-start. */
  function RestartCleared(o: Obj): Obj {
    var n := if o.original.Some? then o.original.value else o.replicas;
    Obj(n, o.drain, None, o.node, o.start, Text(""), None, Idle, None)
  }

  lemma FateAtRest(fates: seq<Fate>, p: nat)
    ensures FateAt(R.Rest(fates), p) == FateAt(fates, p + 1)
  {
  }

  lemma SaveOutcome(w: World, o': Obj, r: Result, fates: seq<Fate>)
    ensures Saved(Execute(w, Plan([Save(o')], r), fates), w, o', r, FateAt(fates, 0))
  {
    R.ExecuteSave(w, o', r, fates);
  }

  lemma RestoreOutcome(w: World, o': Obj, r: Result, fates: seq<Fate>)
    requires w.obj.hpaName != Text("") && w.obj.hpaMin.Some?
    ensures RestoredThenSaved(Execute(w, Plan(RestoreSteps(w.obj, true) + [Save(o')], r), fates), w, o', r, fates)
  {
    FateAtRest(fates, 0);
    assert RestoreSteps(w.obj, true) + [Save(o')] == [RestoreSteps(w.obj, true)[0], Save(o')];
    R.ExecutePair(w, RestoreSteps(w.obj, true)[0], Save(o'), r, fates);
  }

  lemma SurgeOutcome(w: World, o': Obj, name: string, r: Result, fates: seq<Fate>)
    ensures var plan := Plan([Save(o'), Step(SurgeHpa(Text(name), 2), true)], r);
            SavedThenSurged(Execute(w, plan, fates), w, o', name, r, fates)
  {
    FateAtRest(fates, 0);
    R.ExecutePair(w, Save(o'), Step(SurgeHpa(Text(name), 2), true), r, fates);
  }

  lemma AbortOutcome(w: World, o': Obj, fates: seq<Fate>)
    ensures AbortedTo(Execute(w, Plan(RestoreSteps(w.obj, false) + [Save(o')], Requeue(0)), fates), w, o', fates)
  {
    var steps := RestoreSteps(w.obj, false);
    if steps == [] {
      R.ExecuteNothing(w, w.obj, false, [Save(o')], Requeue(0), fates);
      SaveOutcome(w, o', Requeue(0), fates);
    } else {
      FateAtRest(fates, 0);
      assert steps + [Save(o')] == [steps[0]] + [Save(o')];
      R.ExecuteFirst(w, steps[0], [Save(o')], Requeue(0), fates);
      var w1 := if FateAt(fates, 0) == Lost then w else Land(w, steps[0].write);
      SaveOutcome(w1, o', Requeue(0), R.Rest(fates));
    }
  }

  // ---------- A drain reconcile ----------

  function Drained(cfg: Config, w: World, node: string, x: DrainInputs, fates: seq<Fate>): Outcome {
    Execute(w, PlanOf(cfg, w.obj, DrainReconcile(node, x)), fates)
  }

  /** A drain that is late is aborted whoever reconciles it; one that is not is left alone by other nodes. */
  lemma DrainLateOrElsewhere(cfg: Config, w: World, node: string, x: DrainInputs, fates: seq<Fate>)
    requires w.obj.drain != Idle
    ensures w.obj.drain != Done && w.obj.start.Some? && TimedOut(cfg.readinessTimeout, w.obj.start.value, x.now) ==>
              AbortedTo(Drained(cfg, w, node, x, fates), w, DrainCleared(w.obj), fates)
    ensures !DrainOverdue(cfg, w.obj, x.now) && w.obj.node != Text("") && w.obj.node != Text(node) ==>
              Drained(cfg, w, node, x, fates) == Outcome(w, Requeue(0))
  {
    if DrainOverdue(cfg, w.obj, x.now) {
      AbortOutcome(w, DrainCleared(w.obj), fates);
    }
  }

  /** The reconcile is in time and of the node on record, if one is. */
  predicate Timely(cfg: Config, o: Obj, node: string, now: int) {
    && (o.node == Text("") || o.node == Text(node))
    && !(o.drain != Done && o.start.Some? && TimedOut(cfg.readinessTimeout, o.start.value, now))
  }

  lemma PendingOutcome(cfg: Config, w: World, node: string, x: DrainInputs, fates: seq<Fate>)
    requires w.obj.drain == Pending && Timely(cfg, w.obj, node, x.now)
    ensures var o, out := w.obj, Drained(cfg, w, node, x, fates);
            && (o.original.None? ==> AbortedTo(out, w, DrainCleared(o), fates))
            && (o.original.Some? && o.replicas > o.original.value ==>
                  Saved(out, w, o.(drain := ScaledUp), Requeue(cfg.requeue), FateAt(fates, 0)))
            && (o.original.Some? && o.replicas <= o.original.value ==>
                  Saved(out, w, o.(drain := ScaledUp, replicas := OneMore(o.original.value)), Requeue(cfg.requeue),
                        FateAt(fates, 0)))
  {
    var o, plan := w.obj, DM.ScaleUp(cfg, w.obj);
    if o.original.None? {
      AbortOutcome(w, DrainCleared(o), fates);
    } else {
      SaveOutcome(w, plan.steps[0].write.obj, plan.result, fates);
    }
  }

  lemma ScaledUpOutcome(cfg: Config, w: World, node: string, x: DrainInputs, fates: seq<Fate>)
    requires w.obj.drain == ScaledUp && Timely(cfg, w.obj, node, x.now)
    ensures var o, out := w.obj, Drained(cfg, w, node, x, fates);
            if o.hpaName == Text("") && o.original.None? then AbortedTo(out, w, DrainCleared(o), fates)
            else if o.hpaName == Text("") && o.replicas <= o.original.value then
              Saved(out, w, o.(replicas := OneMore(o.original.value)), Requeue(cfg.requeue), FateAt(fates, 0))
            else if x.pods.ReadError? then out == Outcome(w, Failed)
            else if exists p :: p in x.pods.value && p.node != node && p.ready && !p.terminating then
              Saved(out, w, o.(drain := Ready), Requeue(cfg.requeue), FateAt(fates, 0))
            else out == Outcome(w, Requeue(cfg.requeue))
  {
    var o, plan := w.obj, DM.WaitReady(cfg, w.obj, node, x);
    if o.hpaName == Text("") && o.original.None? {
      AbortOutcome(w, DrainCleared(o), fates);
    } else if plan.steps != [] {
      SaveOutcome(w, plan.steps[0].write.obj, plan.result, fates);
    }
  }

  lemma ReadyOutcome(cfg: Config, w: World, node: string, x: DrainInputs, fates: seq<Fate>)
    requires w.obj.drain == Ready && Timely(cfg, w.obj, node, x.now)
    ensures var o, out := w.obj, Drained(cfg, w, node, x, fates);
            if x.pods.ReadError? then out == Outcome(w, Failed)
            else if exists p :: p in x.pods.value && p.node == node && !p.terminating
                                && p.phase != Succeeded && p.phase != PodFailed then
              out == Outcome(w, Requeue(cfg.requeue))
            else if o.hpaName != Text("") && o.hpaMin.None? then out == Outcome(w, Failed)
            else if o.hpaName == Text("") && o.original.Some? then
              Saved(out, w, o.(replicas := o.original.value, drain := Draining), Requeue(cfg.requeue), FateAt(fates, 0))
            else if o.original.Some? then
              RestoredThenSaved(out, w, o.(drain := Draining), Requeue(cfg.requeue), fates)
            else if o.hpaName == Text("") then Saved(out, w, DrainCleared(o), Requeue(0), FateAt(fates, 0))
            else out.result == Failed || (FateAt(fates, 2) == Fine && out.world.obj == DrainCleared(o))
  {
    var o, plan := w.obj, DM.WaitEviction(cfg, w.obj, node, x);
    if plan.steps != [] {
      if o.original.Some? && o.hpaName == Text("") {
        var o' := o.(replicas := o.original.value, drain := Draining);
        assert plan.steps == [Save(o')];
        SaveOutcome(w, o', plan.result, fates);
      } else if o.original.Some? {
        RestoreOutcome(w, o.(drain := Draining), plan.result, fates);
      } else if o.hpaName == Text("") {
        assert plan.steps == [Save(DrainCleared(o))];
        SaveOutcome(w, DrainCleared(o), plan.result, fates);
      } else {
        var x0 := RestoreSteps(o, true)[0];
        assert plan.steps == [x0] + DrainAbort(o).steps;
        R.ExecuteFirst(w, x0, DrainAbort(o).steps, plan.result, fates);
        AbortOutcome(Land(w, x0.write), DrainCleared(o), R.Rest(fates));
        FateAtRest(fates, 1);
      }
    }
  }

  /** Draining, done and unknown states. */
  lemma LaterOutcome(cfg: Config, w: World, node: string, x: DrainInputs, fates: seq<Fate>)
    requires w.obj.drain in {Draining, Done, Unknown} && Timely(cfg, w.obj, node, x.now)
    ensures var o, out := w.obj, Drained(cfg, w, node, x, fates);
            if o.drain == Done then Saved(out, w, DrainCleared(o.(original := None)), Requeue(0), FateAt(fates, 0))
            else if o.drain == Unknown || o.original.None? then AbortedTo(out, w, DrainCleared(o), fates)
            else
              var n := if o.hpaName == Text("") then o.original.value else o.replicas;
              Saved(out, w, o.(replicas := n, drain := Done), Requeue(cfg.requeue), FateAt(fates, 0))
  {
    var o, plan := w.obj, PlanOf(cfg, w.obj, DrainReconcile(node, x));
    if o.drain == Unknown || (o.drain == Draining && o.original.None?) {
      AbortOutcome(w, DrainCleared(o), fates);
    } else {
      assert plan.steps == [plan.steps[0]];
      SaveOutcome(w, plan.steps[0].write.obj, plan.result, fates);
    }
  }

  // ---------- The start of a drain ----------

  /** Everything that a drain reconcile demands of a workload before it starts a drain, except for the HPA's minimum. */
  predicate DrainDemands(o: Obj, node: string, x: DrainInputs) {
    && x.enabled
    && o.replicas == 1
    && (match x.status
        case RolloutStatus(ro) => ro.phase == Healthy
        case DeploymentStatus(d) => (d.newReplicaSetAvailable || d.observedGeneration == d.generation) && !d.recreate)
    && (o.node == Text("") || o.node == Text(node))
    && x.hpaCheck.Got? && (x.hpaCheck.value.Some? ==> x.hpaCheck.value.value.max > 1)
  }

  /** The record of a drain that starts. */
  function DrainStarted(o: Obj, node: string, now: int): Obj {
    Obj(o.replicas, ScaledUp, Some(1), Text(node), Some(now - now % 1_000_000_000), o.hpaName, o.hpaMin, o.restart,
      o.restartStart)
  }

  lemma IdleOutcome(cfg: Config, w: World, node: string, x: DrainInputs, fates: seq<Fate>)
    requires w.obj.drain == Idle
    ensures var o, out, o' := w.obj, Drained(cfg, w, node, x, fates), DrainStarted(w.obj, node, x.now);
            if !DrainDemands(o, node, x) then out == Outcome(w, Requeue(0))
            else if x.pdb.ReadError? then out == Outcome(w, Failed)
            else if !x.pdb.value then out == Outcome(w, Requeue(0))
            else if x.hpa.ReadError? then out == Outcome(w, Failed)
            else match x.hpa.value
              case None => Saved(out, w, o'.(replicas := 2), Requeue(cfg.requeue), FateAt(fates, 0))
              case Some(h) =>
                if h.max < 2 then out == Outcome(w, Requeue(0))
                else if h.min.Some? && h.min.value >= 2 then out == Outcome(w, Requeue(250_000_000))
                else
                  var min := if h.min.Some? then h.min.value as int else 1;
                  SavedThenSurged(out, w, o'.(hpaName := Text(h.name), hpaMin := Some(min)), h.name,
                    Requeue(cfg.requeue), fates)
  {
    var o, plan := w.obj, DM.DrainPlan(cfg, w.obj, node, x);
    if |plan.steps| == 1 {
      assert plan.steps == [plan.steps[0]];
      SaveOutcome(w, plan.steps[0].write.obj, plan.result, fates);
    } else if |plan.steps| == 2 {
      assert plan.steps == [plan.steps[0], plan.steps[1]];
      SurgeOutcome(w, plan.steps[0].write.obj, x.hpa.value.value.name, plan.result, fates);
    }
  }

  /** The HPA leaves room for the surge and is not at its target yet. */
  predicate Room(r: Read<Option<Hpa>>) {
    r.Got? && (r.value.Some? ==> r.value.value.max >= 2 && (r.value.value.min.Some? ==> r.value.value.min.value < 2))
  }

  /**
   Exactly when a drain starts, on the fields: opted in at one replica, a healthy Rollout or an available
   or observed Deployment that is not Recreate, no other node on record, an HPA with room if there is one,
   a budget, and a first write that lands.
   */
  lemma DrainStartsIff(cfg: Config, w: World, e: Event, w': World)
    requires w.obj.drain == Idle && Next(cfg, w, e, w')
    ensures w'.obj.drain != Idle <==>
            && e.Controller? && e.action.DrainReconcile?
            && e.action.d.enabled && w.obj.replicas == 1
            && (e.action.d.status.RolloutStatus? ==> e.action.d.status.ro.phase == Healthy)
            && (e.action.d.status.DeploymentStatus? ==>
                  && (e.action.d.status.d.newReplicaSetAvailable
                      || e.action.d.status.d.observedGeneration == e.action.d.status.d.generation)
                  && !e.action.d.status.d.recreate)
            && (w.obj.node == Text("") || w.obj.node == Text(e.action.node))
            && e.action.d.hpaCheck.Got?
            && (e.action.d.hpaCheck.value.Some? ==> e.action.d.hpaCheck.value.value.max > 1)
            && e.action.d.pdb == Got(true)
            && Room(e.action.d.hpa)
            && FateAt(e.fates, 0) != Lost
  {
    if e.Controller? {
      var a := e.action;
      if a.DrainReconcile? {
        IdleOutcome(cfg, w, a.node, a.d, e.fates);
      } else {
        DrainStaysIdle(cfg, w.obj, a);
        ExecuteObj(w, PlanOf(cfg, w.obj, a), e.fates);
      }
    }
  }

  /** Nothing but a drain reconcile starts a drain. */
  lemma DrainStaysIdle(cfg: Config, o: Obj, a: Action)
    requires o.drain == Idle && !a.DrainReconcile?
    ensures forall o' :: Saves(PlanOf(cfg, o, a), o') ==> o'.drain == Idle
  {
    if a.RestartReconcile? && o.restart == Ready {
      var plan := PlanOf(cfg, o, a);
      forall p | 0 <= p < |plan.steps| && plan.steps[p].write.SetWorkload?
        ensures plan.steps[p].write.obj.drain == Idle
      {
      }
    }
  }

  // ---------- Node aborts and orphan scans of one workload ----------

  lemma NodeGoneOutcome(cfg: Config, w: World, node: string, fates: seq<Fate>)
    ensures var out := Execute(w, PlanOf(cfg, w.obj, NodeGone(node)), fates);
            if node != "" && w.obj.node == Text(node) then AbortedTo(out, w, DrainCleared(w.obj), fates)
            else out == Outcome(w, Requeue(0))
  {
    AbortOutcome(w, DrainCleared(w.obj), fates);
  }

  lemma OrphanScanOutcome(cfg: Config, w: World, tainted: set<string>, fates: seq<Fate>)
    ensures var out := Execute(w, PlanOf(cfg, w.obj, DrainOrphanScan(tainted)), fates);
            if w.obj.node == Text("") || exists n :: n in tainted && w.obj.node == Text(n)
              then out == Outcome(w, Requeue(0))
            else AbortedTo(out, w, DrainCleared(w.obj), fates)
  {
    AbortOutcome(w, DrainCleared(w.obj), fates);
  }

  lemma RestartScanOutcome(cfg: Config, w: World, ro: Rollout, fates: seq<Fate>)
    ensures var out := Execute(w, PlanOf(cfg, w.obj, RestartOrphanScan(ro)), fates);
            if w.obj.restart != Idle && (ro.restartAt.None? || ro.restartedAt == ro.restartAt)
            then AbortedTo(out, w, RestartCleared(w.obj), fates)
            else out == Outcome(w, Requeue(0))
  {
    AbortOutcome(w, RestartCleared(w.obj), fates);
  }
}
