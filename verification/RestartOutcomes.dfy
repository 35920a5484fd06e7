/** The same for the restart-surge machine: what one reconcile comes to, on the fields. */
module RestartOutcomes {
  import opened Base
  import opened Surge
  import opened Inputs
  import opened RestartDetect
  import opened RM = RestartMachine
  import opened Joint
  import opened Outcomes
  import R = Reconcilers
  import RP = RestartProperties
  import Scaler

  function Restarted(cfg: Config, w: World, x: RestartInputs, fates: seq<Fate>): Outcome {
    Execute(w, PlanOf(cfg, w.obj, RestartReconcile(x)), fates)
  }

  /** The restart-surge is on record, not done, and later than its timeout. */
  predicate Late(cfg: Config, o: Obj, now: int) {
    && o.restart != Idle && o.restart != Done
    && o.restartStart.Some? && TimedOut(cfg.restartTimeout, o.restartStart.value, now)
  }

  /** A late restart-surge is aborted, drain or no drain; one in time gives way to a drain. */
  lemma LateOrYieldOutcome(cfg: Config, w: World, x: RestartInputs, fates: seq<Fate>)
    requires Late(cfg, w.obj, x.now) || w.obj.drain != Idle
    ensures var o, out := w.obj, Restarted(cfg, w, x, fates);
            if Late(cfg, o, x.now) then AbortedTo(out, w, RestartCleared(o), fates)
            else if o.restart == Idle || o.restart == Done then out == Outcome(w, Requeue(0))
            else
              var n := if o.hpaName == Text("") && o.original.Some? then o.original.value else o.replicas;
              Saved(out, w, o.(replicas := n, restart := Idle, restartStart := None), Requeue(0), FateAt(fates, 0))
  {
    var o, plan := w.obj, RM.RestartPlan(cfg, w.obj, x);
    if Late(cfg, o, x.now) {
      AbortOutcome(w, RestartCleared(o), fates);
    } else if plan.steps != [] {
      assert plan.steps == [plan.steps[0]];
      SaveOutcome(w, plan.steps[0].write.obj, plan.result, fates);
    }
  }

  lemma RestartPendingOutcome(cfg: Config, w: World, x: RestartInputs, fates: seq<Fate>)
    requires w.obj.drain == Idle && w.obj.restart == Pending && !Late(cfg, w.obj, x.now)
    ensures var o, out := w.obj, Restarted(cfg, w, x, fates);
            if o.original.None? then AbortedTo(out, w, RestartCleared(o), fates)
            else if o.hpaName != Text("") || o.replicas > o.original.value then out == Outcome(w, Requeue(cfg.requeue))
            else Saved(out, w, o.(replicas := OneMore(o.original.value)), Requeue(cfg.requeue), FateAt(fates, 0))
  {
    var o, plan := w.obj, RM.RestartPlan(cfg, w.obj, x);
    if o.original.None? {
      AbortOutcome(w, RestartCleared(o), fates);
    } else if plan.steps != [] {
      SaveOutcome(w, plan.steps[0].write.obj, plan.result, fates);
    }
  }

  lemma RestartScaledUpOutcome(cfg: Config, w: World, x: RestartInputs, fates: seq<Fate>)
    requires w.obj.drain == Idle && w.obj.restart == ScaledUp && !Late(cfg, w.obj, x.now)
    ensures var o, out := w.obj, Restarted(cfg, w, x, fates);
            if o.hpaName == Text("") && o.original.None? then AbortedTo(out, w, RestartCleared(o), fates)
            else if o.hpaName == Text("") && o.replicas <= o.original.value then
              Saved(out, w, o.(replicas := OneMore(o.original.value)), Requeue(cfg.requeue), FateAt(fates, 0))
            else if x.pods.ReadError? then out == Outcome(w, Failed)
            else if exists i, j :: 0 <= i < j < |x.pods.value|
                                   && x.pods.value[i].ready && !x.pods.value[i].terminating
                                   && x.pods.value[j].ready && !x.pods.value[j].terminating then
              Saved(out, w, o.(restart := Ready), Requeue(cfg.requeue), FateAt(fates, 0))
            else out == Outcome(w, Requeue(cfg.requeue))
  {
    var o, plan := w.obj, RM.WaitReady(cfg, w.obj, x);
    if x.pods.Got? {
      var pods := x.pods.value;
      Scaler.TwoReady(pods);
      assert (exists i, j :: 0 <= i < j < |pods| && Scaler.Counts(pods[i]) && Scaler.Counts(pods[j])) <==>
             (exists i, j :: 0 <= i < j < |pods| && pods[i].ready && !pods[i].terminating && pods[j].ready
               && !pods[j].terminating);
    }
    if o.hpaName == Text("") && o.original.None? {
      AbortOutcome(w, RestartCleared(o), fates);
    } else if plan.steps != [] {
      SaveOutcome(w, plan.steps[0].write.obj, plan.result, fates);
    }
  }

  lemma RestartReadyOutcome(cfg: Config, w: World, x: RestartInputs, fates: seq<Fate>)
    requires w.obj.drain == Idle && w.obj.restart == Ready && !Late(cfg, w.obj, x.now)
    ensures var o, out, at := w.obj, Restarted(cfg, w, x, fates), x.ro.restartAt;
            var caughtUp := at.Some? && x.ro.restartedAt == at;
            if !caughtUp && x.pods.ReadError? then out == Outcome(w, Failed)
            else if !caughtUp && at.Some?
                    && exists p :: p in x.pods.value && !p.terminating && p.created < at.value then
              out == Outcome(w, Requeue(cfg.requeue))
            else if o.hpaName != Text("") && o.hpaMin.None? then out == Outcome(w, Failed)
            else if o.hpaName == Text("") && o.original.Some? then
              Saved(out, w, o.(replicas := o.original.value, restart := Draining), Requeue(cfg.requeue),
                FateAt(fates, 0))
            else if o.original.Some? then
              RestoredThenSaved(out, w, o.(restart := Draining), Requeue(cfg.requeue), fates)
            else if o.hpaName == Text("") then Saved(out, w, RestartCleared(o), Requeue(0), FateAt(fates, 0))
            else out.result == Failed || (FateAt(fates, 2) == Fine && out.world.obj == RestartCleared(o))
  {
    var o, plan := w.obj, RM.WaitForArgo(cfg, w.obj, x);
    if x.pods.Got? && x.ro.restartAt.Some? {
      RP.ScansAreDual(x.pods.value, x.ro.restartAt.value);
    }
    if plan.steps != [] {
      if o.original.Some? && o.hpaName == Text("") {
        var o' := o.(replicas := o.original.value, restart := Draining);
        assert plan.steps == [Save(o')];
        SaveOutcome(w, o', plan.result, fates);
      } else if o.original.Some? {
        RestoreOutcome(w, o.(restart := Draining), plan.result, fates);
      } else if o.hpaName == Text("") {
        assert plan.steps == [Save(RestartCleared(o))];
        SaveOutcome(w, RestartCleared(o), plan.result, fates);
      } else {
        var x0 := RestoreSteps(o, true)[0];
        assert plan.steps == [x0] + RestartAbort(o).steps;
        R.ExecuteFirst(w, x0, RestartAbort(o).steps, plan.result, fates);
        AbortOutcome(Land(w, x0.write), RestartCleared(o), R.Rest(fates));
        FateAtRest(fates, 1);
      }
    }
  }

  lemma RestartLaterOutcome(cfg: Config, w: World, x: RestartInputs, fates: seq<Fate>)
    requires w.obj.drain == Idle && w.obj.restart in {Draining, Done, Unknown} && !Late(cfg, w.obj, x.now)
    ensures var o, out := w.obj, Restarted(cfg, w, x, fates);
            if o.restart == Done then Saved(out, w, RestartCleared(o.(original := None)), Requeue(0), FateAt(fates, 0))
            else if o.restart == Unknown || o.original.None? then AbortedTo(out, w, RestartCleared(o), fates)
            else
              var n := if o.hpaName == Text("") then o.original.value else o.replicas;
              Saved(out, w, o.(replicas := n, restart := Done), Requeue(cfg.requeue), FateAt(fates, 0))
  {
    var o, plan := w.obj, RM.RestartPlan(cfg, w.obj, x);
    if o.restart == Unknown || (o.restart == Draining && o.original.None?) {
      AbortOutcome(w, RestartCleared(o), fates);
    } else {
      assert plan.steps == [plan.steps[0]];
      SaveOutcome(w, plan.steps[0].write.obj, plan.result, fates);
    }
  }

  // ---------- The start of a restart-surge ----------

  /** A pending restart whose grace period is over and that an old pod holds up. */
  predicate HeldUp(ro: Rollout, pods: seq<Pod>, grace: int, now: int) {
    && ro.restartAt.Some? && ro.restartedAt != ro.restartAt
    && now >= ro.restartAt.value + grace
    && exists p :: p in pods && !p.terminating && p.created < ro.restartAt.value
  }

  lemma StuckOnFields(ro: Rollout, pods: seq<Pod>, grace: int, now: int)
    requires 0 < grace <= MAX64
    ensures IsRestartStuck(ro, pods, grace, now) <==> HeldUp(ro, pods, grace, now)
  {
    if ro.restartAt.Some? {
      RP.ScansAreDual(pods, ro.restartAt.value);
    }
  }

  /** The record of a restart-surge that starts. */
  function RestartStarted(o: Obj, now: int): Obj {
    o.(restart := ScaledUp, original := Some(1), restartStart := Some(now - now % 1_000_000_000))
  }

  lemma RestartIdleOutcome(cfg: Config, w: World, x: RestartInputs, fates: seq<Fate>)
    requires w.obj.drain == Idle && w.obj.restart == Idle && 0 < cfg.grace <= MAX64
    ensures var o, out, o' := w.obj, Restarted(cfg, w, x, fates), RestartStarted(w.obj, x.now);
            if !x.enabled || o.replicas != 1 then out == Outcome(w, Requeue(0))
            else if x.pods.ReadError? then out == Outcome(w, Failed)
            else if !HeldUp(x.ro, x.pods.value, cfg.grace, x.now) then
              out == Outcome(w, Requeue(if x.ro.restartAt.Some? && x.ro.restartedAt != x.ro.restartAt then cfg.grace
                else 0))
            else if x.ro.phase != Healthy
              && !(x.ro.phase == Progressing && x.ro.message == "rollout is restarting") then
              out == Outcome(w, Requeue(cfg.requeue))
            else if x.pdb.ReadError? then out == Outcome(w, Failed)
            else if !x.pdb.value then out == Outcome(w, Requeue(0))
            else if x.hpa.ReadError? then out == Outcome(w, Failed)
            else match x.hpa.value
              case None => Saved(out, w, o'.(replicas := 2), Requeue(cfg.requeue), FateAt(fates, 0))
              case Some(h) =>
                if h.max < 2 then out == Outcome(w, Requeue(0))
                else if h.min.Some? && h.min.value >= 2 then out == Outcome(w, Requeue(250_000_000))
                else
                  var min := if h.min.Some? then h.min.value as int else 1;
                  SavedThenSurged(out, w, o'.(hpaName := Text(h.name), hpaMin := Some(min)), h.name,
                    Requeue(cfg.requeue), fates)
  {
    var plan := RM.RestartPlan(cfg, w.obj, x);
    if x.pods.Got? {
      StuckOnFields(x.ro, x.pods.value, cfg.grace, x.now);
    }
    if |plan.steps| == 1 {
      assert plan.steps == [plan.steps[0]];
      SaveOutcome(w, plan.steps[0].write.obj, plan.result, fates);
    } else if |plan.steps| == 2 {
      assert plan.steps == [plan.steps[0], plan.steps[1]];
      SurgeOutcome(w, plan.steps[0].write.obj, x.hpa.value.value.name, plan.result, fates);
    }
  }

  /**
   Exactly when a restart-surge starts, on the fields: no drain, opted in at one replica, a restart held
   up by an old pod for the grace period, a Rollout that is healthy or restarting, a budget, an HPA with
   room if there is one, and a first write that lands.
   */
  lemma RestartStartsIff(cfg: Config, w: World, e: Event, w': World)
    requires w.obj.restart == Idle && Next(cfg, w, e, w') && 0 < cfg.grace <= MAX64
    ensures w'.obj.restart != Idle <==>
            && e.Controller? && e.action.RestartReconcile?
            && w.obj.drain == Idle
            && e.action.r.enabled && w.obj.replicas == 1
            && e.action.r.pods.Got? && HeldUp(e.action.r.ro, e.action.r.pods.value, cfg.grace, e.action.r.now)
            && (|| e.action.r.ro.phase == Healthy
                || (e.action.r.ro.phase == Progressing && e.action.r.ro.message == "rollout is restarting"))
            && e.action.r.pdb == Got(true)
            && Room(e.action.r.hpa)
            && FateAt(e.fates, 0) != Lost
  {
    if e.Controller? {
      var a := e.action;
      if a.RestartReconcile? && w.obj.drain == Idle {
        RestartIdleOutcome(cfg, w, a.r, e.fates);
      } else {
        RestartStaysIdle(cfg, w.obj, a);
        ExecuteObj(w, PlanOf(cfg, w.obj, a), e.fates);
      }
    }
  }

  /** Nothing else starts a restart-surge. */
  lemma RestartStaysIdle(cfg: Config, o: Obj, a: Action)
    requires o.restart == Idle && (a.RestartReconcile? ==> o.drain != Idle)
    ensures forall o' :: Saves(PlanOf(cfg, o, a), o') ==> o'.restart == Idle
  {
    if a.DrainReconcile? && o.drain == Ready {
      var plan := PlanOf(cfg, o, a);
      forall p | 0 <= p < |plan.steps| && plan.steps[p].write.SetWorkload?
        ensures plan.steps[p].write.obj.restart == Idle
      {
      }
    }
  }
}
