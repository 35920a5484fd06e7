/** Under a cooperative environment an operation is a round trip of exactly five reconciles. */
module Cycle {
  import opened Base
  import opened Surge
  import opened Inputs
  import opened RestartDetect
  import opened DM = DrainMachine
  import opened RM = RestartMachine
  import opened Joint

  /** A workload the controller may take up: one replica, nothing recorded, and an HPA, if any, with room. */
  predicate Eligible(w: World) {
    && w.obj.replicas == 1
    && NoOwnedKeys(w.obj)
    && (w.hpa.Some? ==> w.hpa.value.name != "" && w.hpa.value.max >= 2 && MinOrDefault(w.hpa.value) < 2)
  }

  /**
   The same workload and the same effective minimum; with an HPA, spec.replicas is what the HPA
   controller last made it, and without one it is what it was.
   */
  predicate SameAsBefore(w: World, w': World, n: Int32) {
    && w'.obj == Nudged(w, n).obj
    && (w.hpa.None? <==> w'.hpa.None?)
    && (w.hpa.Some? ==>
          && w'.hpa.value.name == w.hpa.value.name && w'.hpa.value.max == w.hpa.value.max
          && w'.hpa.value.min == Some(if w.hpa.value.min.Some? then w.hpa.value.min.value else 1))
  }

  /** Between two reconciles the HPA controller, if the workload has one, sets spec.replicas as it likes. */
  function Nudged(w: World, n: Int32): World {
    if w.hpa.Some? then w.(obj := w.obj.(replicas := n)) else w
  }

  function Tick(cfg: Config, w: World, a: Action): World {
    Execute(w, PlanOf(cfg, w.obj, a), ALL_FINE).world
  }

  lemma OneFine(w: World, x: Step, r: Result)
    ensures Execute(w, Plan([x], r), ALL_FINE).world == Land(w, x.write)
  {
    ExecuteOne(w, x, r, ALL_FINE);
  }

  lemma TwoFine(w: World, x: Step, y: Step, r: Result)
    requires Succeeds(w, x.write, Fine)
    ensures Execute(w, Plan([x, y], r), ALL_FINE).world == Land(Land(w, x.write), y.write)
  {
    assert [x, y][1..] == [y];
    ExecuteOne(Land(w, x.write), y, r, ALL_FINE[1..]);
  }

  /** A restore of an HPA that is there, followed by a save, when both succeed. */
  lemma RestoreAndSave(w: World, o': Obj, r: Result)
    requires w.obj.hpaName != EMPTY ==> HasHpa(w, w.obj.hpaName) && w.obj.hpaMin.Some?
    ensures var w' := Execute(w, Plan(RestoreSteps(w.obj, true) + [Save(o')], r), ALL_FINE).world;
            && w'.obj == o'
            && w'.hpa == if w.obj.hpaName == EMPTY then w.hpa
                         else Some(w.hpa.value.(min := Some(Wrap32(w.obj.hpaMin.value))))
  {
    var steps := RestoreSteps(w.obj, true) + [Save(o')];
    if w.obj.hpaName == EMPTY {
      assert steps == [Save(o')];
      OneFine(w, Save(o'), r);
    } else {
      assert steps == [RestoreSteps(w.obj, true)[0], Save(o')];
      TwoFine(w, RestoreSteps(w.obj, true)[0], Save(o'), r);
    }
  }

  /** The five reconciles of a drain whose environment cooperates, all within the timeout. */
  predicate DrainCooperates(cfg: Config, w: World, node: string, xs: seq<DrainInputs>) {
    && |xs| == 5
    && node != ""
    && (forall k :: 0 <= k < 5 ==> !TimedOut(cfg.readinessTimeout, TruncateToSecond(xs[0].now), xs[k].now))
    && xs[0].enabled && IsStable(xs[0].status) && CanSurge(xs[0].status)
    && xs[0].hpaCheck == xs[0].hpa == Got(w.hpa)
    && xs[0].pdb == Got(true)
    && xs[1].pods.Got? && ReadyElsewhere(xs[1].pods.value, node)
    && xs[2].pods.Got? && !LivePodOn(xs[2].pods.value, node)
  }

  /** The first reconcile surges, by spec.replicas or by the HPA. */
  lemma DrainSurges(cfg: Config, w: World, node: string, xs: seq<DrainInputs>)
    requires Eligible(w) && DrainCooperates(cfg, w, node, xs)
    ensures var w' := Tick(cfg, w, DrainReconcile(node, xs[0]));
            var marked := w.obj.(drain := ScaledUp, original := Some(1), node := Text(node),
                                 start := Some(TruncateToSecond(xs[0].now)));
            if w.hpa.None? then w' == World(marked.(replicas := 2), None)
            else w' == World(marked.(hpaName := Text(w.hpa.value.name),
                                     hpaMin := Some(MinOrDefault(w.hpa.value) as int)),
                             Some(w.hpa.value.(min := Some(2))))
  {
    var plan := DM.DrainPlan(cfg, w.obj, node, xs[0]);
    if w.hpa.None? {
      assert plan.steps == [plan.steps[0]];
      OneFine(w, plan.steps[0], plan.result);
    } else {
      assert plan.steps == [plan.steps[0], plan.steps[1]];
      TwoFine(w, plan.steps[0], plan.steps[1], plan.result);
    }
  }

  /**
   A drain completes in exactly five successful reconciles, through scaled-up, ready, draining and
   done, and leaves the workload and the HPA's minimum as it found them.
   */
  lemma DrainRoundTrip(cfg: Config, w0: World, node: string, xs: seq<DrainInputs>, ns: seq<Int32>)
    requires Eligible(w0) && DrainCooperates(cfg, w0, node, xs) && |ns| == 4
    ensures var w1 := Tick(cfg, w0, DrainReconcile(node, xs[0]));
            var w2 := Tick(cfg, Nudged(w1, ns[0]), DrainReconcile(node, xs[1]));
            var w3 := Tick(cfg, Nudged(w2, ns[1]), DrainReconcile(node, xs[2]));
            var w4 := Tick(cfg, Nudged(w3, ns[2]), DrainReconcile(node, xs[3]));
            var w5 := Tick(cfg, Nudged(w4, ns[3]), DrainReconcile(node, xs[4]));
            && w1.obj.drain == ScaledUp
            && w2.obj.drain == Ready
            && w3.obj.drain == Draining
            && w4.obj.drain == Done
            && SameAsBefore(w0, w5, ns[3])
  {
    DrainSurges(cfg, w0, node, xs);
    var v1 := Nudged(Tick(cfg, w0, DrainReconcile(node, xs[0])), ns[0]);
    var o2 := v1.obj.(drain := Ready);
    OneFine(v1, Save(o2), Requeue(cfg.requeue));
    var v2 := Nudged(Tick(cfg, v1, DrainReconcile(node, xs[1])), ns[1]);
    assert v2.obj == o2.(replicas := v2.obj.replicas);
    var o3 := v2.obj.(replicas := if v2.hpa.None? then 1 else v2.obj.replicas, drain := Draining);
    RestoreAndSave(v2, o3, Requeue(cfg.requeue));
    var v3 := Nudged(Tick(cfg, v2, DrainReconcile(node, xs[2])), ns[2]);
    assert v3.obj == o3.(replicas := v3.obj.replicas);
    var o4 := v3.obj.(drain := Done);
    OneFine(v3, Save(o4), Requeue(cfg.requeue));
    var v4 := Nudged(Tick(cfg, v3, DrainReconcile(node, xs[3])), ns[3]);
    OneFine(v4, Save(ClearAll(v4.obj)), Requeue(0));
  }

  /** The five reconciles of a restart-surge whose environment cooperates. */
  predicate RestartCooperates(cfg: Config, w: World, xs: seq<RestartInputs>) {
    && |xs| == 5
    && (forall k :: 0 <= k < 5 ==> !TimedOut(cfg.restartTimeout, TruncateToSecond(xs[0].now), xs[k].now))
    && xs[0].enabled && IsStableForRestart(xs[0].ro)
    && xs[0].pods.Got? && IsRestartStuck(xs[0].ro, xs[0].pods.value, cfg.grace, xs[0].now)
    && xs[0].hpa == Got(w.hpa)
    && xs[0].pdb == Got(true)
    && xs[1].pods.Got? && ReadyCount(xs[1].pods.value) >= 2
    && (CaughtUp(xs[2].ro) || (xs[2].pods.Got? && RestartCompleted(xs[2].ro, xs[2].pods.value)))
  }

  lemma RestartSurges(cfg: Config, w: World, xs: seq<RestartInputs>)
    requires Eligible(w) && RestartCooperates(cfg, w, xs)
    ensures var w' := Tick(cfg, w, RestartReconcile(xs[0]));
            var marked := w.obj.(restart := ScaledUp, original := Some(1),
                                 restartStart := Some(TruncateToSecond(xs[0].now)));
            if w.hpa.None? then w' == World(marked.(replicas := 2), None)
            else w' == World(marked.(hpaName := Text(w.hpa.value.name),
                                     hpaMin := Some(MinOrDefault(w.hpa.value) as int)),
                             Some(w.hpa.value.(min := Some(2))))
  {
    var plan := RM.RestartPlan(cfg, w.obj, xs[0]);
    if w.hpa.None? {
      assert plan.steps == [plan.steps[0]];
      OneFine(w, plan.steps[0], plan.result);
    } else {
      assert plan.steps == [plan.steps[0], plan.steps[1]];
      TwoFine(w, plan.steps[0], plan.steps[1], plan.result);
    }
  }

  /** The same round trip for a restart-surge. */
  lemma RestartRoundTrip(cfg: Config, w0: World, xs: seq<RestartInputs>, ns: seq<Int32>)
    requires Eligible(w0) && RestartCooperates(cfg, w0, xs) && |ns| == 4
    ensures var w1 := Tick(cfg, w0, RestartReconcile(xs[0]));
            var w2 := Tick(cfg, Nudged(w1, ns[0]), RestartReconcile(xs[1]));
            var w3 := Tick(cfg, Nudged(w2, ns[1]), RestartReconcile(xs[2]));
            var w4 := Tick(cfg, Nudged(w3, ns[2]), RestartReconcile(xs[3]));
            var w5 := Tick(cfg, Nudged(w4, ns[3]), RestartReconcile(xs[4]));
            && w1.obj.restart == ScaledUp
            && w2.obj.restart == Ready
            && w3.obj.restart == Draining
            && w4.obj.restart == Done
            && SameAsBefore(w0, w5, ns[3])
  {
    RestartSurges(cfg, w0, xs);
    var v1 := Nudged(Tick(cfg, w0, RestartReconcile(xs[0])), ns[0]);
    var o2 := v1.obj.(restart := Ready);
    OneFine(v1, Save(o2), Requeue(cfg.requeue));
    var v2 := Nudged(Tick(cfg, v1, RestartReconcile(xs[1])), ns[1]);
    assert v2.obj == o2.(replicas := v2.obj.replicas);
    var o3 := v2.obj.(replicas := if v2.hpa.None? then 1 else v2.obj.replicas, restart := Draining);
    RestoreAndSave(v2, o3, Requeue(cfg.requeue));
    var v3 := Nudged(Tick(cfg, v2, RestartReconcile(xs[2])), ns[2]);
    assert v3.obj == o3.(replicas := v3.obj.replicas);
    var o4 := v3.obj.(restart := Done);
    OneFine(v3, Save(o4), Requeue(cfg.requeue));
    var v4 := Nudged(Tick(cfg, v3, RestartReconcile(xs[3])), ns[3]);
    OneFine(v4, Save(ClearRestart(v4.obj)), Requeue(0));
  }
}
