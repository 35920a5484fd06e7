/**
 The handlers as the controller runs them: they change the in-memory workload step by step and patch
 it, and each is proved to have the effect of its plan, whatever becomes of its writes and whatever
 the server holds by then.
 */
module Reconcilers {
  import opened Base
  import opened Surge
  import opened Inputs
  import opened Decimal
  import opened Annotations
  import opened Client
  import opened RestartDetect
  import DM = DrainMachine
  import RM = RestartMachine
  import Scaler

  /** What a method that carries out a plan on the server promises. */
  ghost predicate CarriedOut(before: World, plan: Plan, fates: seq<Fate>, after: World, r: Result) {
    Execute(before, plan, fates) == Outcome(after, r)
  }

  ghost function Rest(fates: seq<Fate>): seq<Fate> {
    if fates == [] then [] else fates[1..]
  }

  lemma ExecuteSave(w: World, o: Obj, r: Result, fates: seq<Fate>)
    ensures var f := if fates == [] then Lost else fates[0];
            Execute(w, Plan([Save(o)], r), fates) ==
            Outcome(if f == Lost then w else Land(w, SetWorkload(o)), if f == Fine then r else Failed)
  {
  }

  lemma ExecuteFirst(w: World, x: Step, rest: seq<Step>, r: Result, fates: seq<Fate>)
    ensures var f := if fates == [] then Lost else fates[0];
            var w' := if f == Lost then w else Land(w, x.write);
            Execute(w, Plan([x] + rest, r), fates) ==
            if x.required && !Succeeds(w, x.write, f) then Outcome(w', Failed)
            else Execute(w', Plan(rest, r), Rest(fates))
  {
  }

  /** Two required writes. */
  lemma ExecutePair(w: World, x: Step, y: Step, r: Result, fates: seq<Fate>)
    requires x.required && y.required
    ensures var f := if fates == [] then Lost else fates[0];
            var w1 := if f == Lost then w else Land(w, x.write);
            var g := if Rest(fates) == [] then Lost else Rest(fates)[0];
            var w2 := if g == Lost then w1 else Land(w1, y.write);
            Execute(w, Plan([x, y], r), fates) ==
            if !Succeeds(w, x.write, f) then Outcome(w1, Failed)
            else Outcome(w2, if Succeeds(w1, y.write, g) then r else Failed)
  {
    var f := if fates == [] then Lost else fates[0];
    var w1 := if f == Lost then w else Land(w, x.write);
    assert [x, y] == [x] + [y] && [y] == [y] + [];
    ExecuteFirst(w, x, [y], r, fates);
    ExecuteFirst(w1, y, [], r, Rest(fates));
  }

  lemma ExecuteNothing(w: World, o: Obj, required: bool, rest: seq<Step>, r: Result, fates: seq<Fate>)
    requires RestoreSteps(o, required) == []
    ensures Execute(w, Plan(RestoreSteps(o, required) + rest, r), fates) == Execute(w, Plan(rest, r), fates)
  {
    assert RestoreSteps(o, required) + rest == rest;
  }

  /** Both reconcilers restore the HPA in the same way. */
  method RestoreMinReplicas(wl: Workload, api: Api) returns (ok: bool)
    modifies api
    ensures api.doc == old(api.doc)
    ensures RestoreSteps(wl.Seen(), true) == [] ==>
              api.Stored() == old(api.Stored()) && api.fates == old(api.fates) && ok == !RestoreInvalid(wl.Seen())
    ensures RestoreSteps(wl.Seen(), true) != [] ==>
              var x := RestoreSteps(wl.Seen(), true)[0].write;
              && api.Stored() == (if old(api.Fate()) == Lost then old(api.Stored()) else Land(old(api.Stored()), x))
              && ok == Succeeds(old(api.Stored()), x, old(api.Fate()))
              && api.fates == Rest(old(api.fates))
  {
    var name := Lookup(wl.annotations, HpaNameKey);
    if name == EMPTY {
      return true;
    }
    var min := ParseInt(Lookup(wl.annotations, HpaMinKey));
    if min.None? {
      return false;
    }
    ok := api.PatchHpa(name, Wrap32(min.value));
  }

  /** Patches the workload as the last write of a handler. */
  method PatchAndReturn(wl: Workload, api: Api, whenDone: Result) returns (r: Result)
    modifies api
    ensures CarriedOut(old(api.Stored()), Plan([Save(wl.Seen())], whenDone), old(api.fates), api.Stored(), r)
  {
    ExecuteSave(api.Stored(), wl.Seen(), whenDone, api.fates);
    var ok := api.PatchWorkload(wl);
    r := if ok then whenDone else Failed;
  }

  /** The stale and timeout checks that both reconciles begin with. */
  method CheckTimeout(start: Option<int>, timeout: int, now: int) returns (late: bool)
    ensures late == (start.Some? && TimedOut(timeout, start.value, now))
  {
    if start.Some? {
      var elapsed := Clamp64(now - start.value);
      if elapsed > Wrap64(3 * timeout) {
        return true;
      }
      if elapsed > timeout {
        return true;
      }
    }
    return false;
  }

  /** The annotations of a new drain, in memory. */
  method RecordDrain(wl: Workload, originalReplicas: Int32, node: string, now: int)
    modifies wl`annotations
    ensures wl.Seen() == old(wl.Seen()).(drain := ScaledUp, original := Some(originalReplicas), node := Text(node),
                                         start := Some(TruncateToSecond(now)))
  {
    wl.annotations := wl.annotations[DrainStateKey := Text(StateText(ScaledUp))];
    wl.annotations := wl.annotations[OriginalReplicasKey := Text(Itoa(originalReplicas))];
    wl.annotations := wl.annotations[DrainNodeKey := Text(node)];
    wl.annotations := wl.annotations[DrainStartKey := Stamp(TruncateToSecond(now))];
    StateRoundTrip(ScaledUp);
    AtoiItoa(originalReplicas);
  }

  /** The annotations of a new restart-surge, in memory. */
  method RecordRestartSurge(wl: Workload, originalReplicas: Int32, now: int)
    modifies wl`annotations
    ensures wl.Seen() == old(wl.Seen()).(restart := ScaledUp, original := Some(originalReplicas),
                                         restartStart := Some(TruncateToSecond(now)))
  {
    wl.annotations := wl.annotations[RestartStateKey := Text(StateText(ScaledUp))];
    wl.annotations := wl.annotations[OriginalReplicasKey := Text(Itoa(originalReplicas))];
    wl.annotations := wl.annotations[RestartStartKey := Stamp(TruncateToSecond(now))];
    StateRoundTrip(ScaledUp);
    AtoiItoa(originalReplicas);
  }

  /** The HPA and its minimum, on record in memory. */
  method RecordHpa(wl: Workload, hpa: Hpa)
    modifies wl`annotations
    ensures wl.Seen() == old(wl.Seen()).(hpaName := Text(hpa.name), hpaMin := Some(MinOrDefault(hpa)))
  {
    var originalMin := MinOrDefault(hpa);
    wl.annotations := wl.annotations[HpaNameKey := Text(hpa.name)];
    wl.annotations := wl.annotations[HpaMinKey := Text(Itoa(originalMin))];
    AtoiItoa(originalMin);
  }

  /** The tail of handlePending and handleRestartPending: persist the record, then patch the HPA. */
  method SurgeByHpa(wl: Workload, api: Api, hpa: Hpa, target: Int32, requeue: int) returns (r: Result)
    modifies wl, api
    ensures CarriedOut(old(api.Stored()),
                       Plan([Save(old(wl.Seen()).(hpaName := Text(hpa.name), hpaMin := Some(MinOrDefault(hpa)))),
                             Step(SurgeHpa(Text(hpa.name), target), true)], Requeue(requeue)),
                       old(api.fates), api.Stored(), r)
  {
    RecordHpa(wl, hpa);
    ghost var x := Step(SurgeHpa(Text(hpa.name), target), true);
    ExecutePair(api.Stored(), Save(wl.Seen()), x, Requeue(requeue), api.fates);
    var ok := api.PatchWorkload(wl);
    if !ok {
      return Failed;
    }
    ok := api.PatchHpa(Text(hpa.name), target);
    r := if ok then Requeue(requeue) else Failed;
  }

  class NodeReconciler {
    const cfg: Config
    const enabledKey: Key
    const api: Api

    constructor (cfg: Config, enabledKey: Key, api: Api)
      ensures this.cfg == cfg && this.enabledKey == enabledKey && this.api == api
    {
      this.cfg, this.enabledKey, this.api := cfg, enabledKey, api;
    }

    method AbortWorkload(wl: Workload) returns (r: Result)
      modifies wl, api
      ensures CarriedOut(old(api.Stored()), DrainAbort(old(wl.Seen())), old(api.fates), api.Stored(), r)
    {
      ghost var o, w, fates := wl.Seen(), api.Stored(), api.fates;
      var _ := RestoreMinReplicas(wl, api);
      var original := OriginalReplicas(wl.annotations);
      if original.Some? {
        wl.SetReplicas(original.value);
      }
      wl.ClearDrainAnnotations();
      assert wl.Seen() == ClearAll(BackToOriginal(o));
      if RestoreSteps(o, false) == [] {
        ExecuteNothing(w, o, false, [Save(wl.Seen())], Requeue(0), fates);
      } else {
        ExecuteFirst(w, RestoreSteps(o, false)[0], [Save(wl.Seen())], Requeue(0), fates);
      }
      r := PatchAndReturn(wl, api, Requeue(0));
    }

    method HandlePending(wl: Workload, node: string, x: DM.DrainInputs) returns (r: Result)
      modifies wl, api
      ensures CarriedOut(old(api.Stored()), DM.Start(cfg, old(wl.Seen()), node, x), old(api.fates), api.Stored(), r)
    {
      if x.pdb.ReadError? {
        return Failed;
      }
      if !x.pdb.value {
        return Requeue(0);
      }
      var originalReplicas := wl.GetReplicas();
      RecordDrain(wl, originalReplicas, node, x.now);
      if x.hpa.ReadError? {
        return Failed;
      }
      var target := Succ32(originalReplicas);
      if x.hpa.value.Some? {
        var hpa := x.hpa.value.value;
        if hpa.max < target {
          return Requeue(0);
        }
        if AtMin(hpa, target) {
          return Requeue(250 * MILLISECOND);
        }
        r := SurgeByHpa(wl, api, hpa, target, cfg.requeue);
        return;
      }
      wl.SetReplicas(target);
      r := PatchAndReturn(wl, api, Requeue(cfg.requeue));
    }

    method HandleScaleUp(wl: Workload) returns (r: Result)
      modifies wl, api
      ensures CarriedOut(old(api.Stored()), DM.ScaleUp(cfg, old(wl.Seen())), old(api.fates), api.Stored(), r)
    {
      var original := OriginalReplicas(wl.annotations);
      if original.None? {
        r := AbortWorkload(wl);
        return;
      }
      if wl.GetReplicas() <= original.value {
        wl.SetReplicas(Succ32(original.value));
      }
      wl.SetDrainState(ScaledUp);
      r := PatchAndReturn(wl, api, Requeue(cfg.requeue));
    }

    method HandleWaitReady(wl: Workload, node: string, x: DM.DrainInputs) returns (r: Result)
      modifies wl, api
      ensures CarriedOut(old(api.Stored()), DM.WaitReady(cfg, old(wl.Seen()), node, x), old(api.fates), api.Stored(), r)
    {
      if Lookup(wl.annotations, HpaNameKey) == EMPTY {
        var original := OriginalReplicas(wl.annotations);
        if original.None? {
          r := AbortWorkload(wl);
          return;
        }
        if wl.GetReplicas() <= original.value {
          wl.SetReplicas(Succ32(original.value));
          r := PatchAndReturn(wl, api, Requeue(cfg.requeue));
          return;
        }
      }
      if x.pods.ReadError? {
        return Failed;
      }
      var ready := Scaler.FindReadyPodOnOtherNode(x.pods.value, node);
      if ready {
        wl.SetDrainState(Ready);
        r := PatchAndReturn(wl, api, Requeue(cfg.requeue));
        return;
      }
      return Requeue(cfg.requeue);
    }

    method HandleWaitEviction(wl: Workload, node: string, x: DM.DrainInputs) returns (r: Result)
      modifies wl, api
      ensures CarriedOut(old(api.Stored()), DM.WaitEviction(cfg, old(wl.Seen()), node, x), old(api.fates),
                         api.Stored(), r)
    {
      ghost var o, w, fates := wl.Seen(), api.Stored(), api.fates;
      if x.pods.ReadError? {
        return Failed;
      }
      var podOnNode := Scaler.FindPodOnNode(x.pods.value, node);
      if podOnNode {
        return Requeue(cfg.requeue);
      }
      ghost var plan := DM.WaitEviction(cfg, o, node, x);
      ghost var rest := plan.steps[|RestoreSteps(o, true)|..];
      if RestoreSteps(o, true) == [] {
        assert plan.steps == rest || RestoreInvalid(o);
      } else {
        assert plan.steps == [RestoreSteps(o, true)[0]] + rest;
        ExecuteFirst(w, RestoreSteps(o, true)[0], rest, plan.result, fates);
      }
      var ok := RestoreMinReplicas(wl, api);
      if !ok {
        return Failed;
      }
      var original := OriginalReplicas(wl.annotations);
      if original.None? {
        assert rest == DrainAbort(o).steps;
        r := AbortWorkload(wl);
        return;
      }
      if Lookup(wl.annotations, HpaNameKey) == EMPTY {
        wl.SetReplicas(original.value);
      }
      wl.SetDrainState(Draining);
      assert rest == [Save(wl.Seen())];
      r := PatchAndReturn(wl, api, Requeue(cfg.requeue));
    }

    method HandleScaleDown(wl: Workload) returns (r: Result)
      modifies wl, api
      ensures CarriedOut(old(api.Stored()), DM.ScaleDown(cfg, old(wl.Seen())), old(api.fates), api.Stored(), r)
    {
      var original := OriginalReplicas(wl.annotations);
      if original.None? {
        r := AbortWorkload(wl);
        return;
      }
      if Lookup(wl.annotations, HpaNameKey) == EMPTY && wl.GetReplicas() != original.value {
        wl.SetReplicas(original.value);
      }
      wl.SetDrainState(Done);
      r := PatchAndReturn(wl, api, Requeue(cfg.requeue));
    }

    method HandleCleanup(wl: Workload) returns (r: Result)
      modifies wl, api
      ensures CarriedOut(old(api.Stored()), DM.Cleanup(old(wl.Seen())), old(api.fates), api.Stored(), r)
    {
      wl.ClearDrainAnnotations();
      r := PatchAndReturn(wl, api, Requeue(0));
    }

    /** The opt-in annotation, which the machine takes as one of its inputs. */
    ghost function OptedIn(wl: Workload, x: DM.DrainInputs): DM.DrainInputs
      reads wl
    {
      x.(enabled := Lookup(wl.annotations, enabledKey) == Text("true"))
    }

    method ShouldProcess(wl: Workload, node: string, x: DM.DrainInputs) returns (b: bool)
      ensures b == DM.ShouldProcess(wl.Seen(), node, OptedIn(wl, x))
      ensures b ==> enabledKey in wl.annotations && wl.annotations[enabledKey] == Text("true")
    {
      if Lookup(wl.annotations, enabledKey) != Text("true") {
        return false;
      }
      if wl.GetReplicas() != 1 {
        return false;
      }
      if !IsStable(x.status) {
        return false;
      }
      var drainNode := Lookup(wl.annotations, DrainNodeKey);
      if drainNode != EMPTY && drainNode != Text(node) {
        return false;
      }
      if !CanSurge(x.status) {
        return false;
      }
      if x.hpaCheck.ReadError? {
        return false;
      }
      return x.hpaCheck.value.None? || x.hpaCheck.value.value.max > 1;
    }

    /** The switch over the states of a drain in progress. */
    method Advance(wl: Workload, node: string, x: DM.DrainInputs, currentState: State) returns (r: Result)
      requires currentState == wl.Seen().drain && currentState != Idle
      modifies wl, api
      ensures CarriedOut(old(api.Stored()), DM.Advance(cfg, old(wl.Seen()), node, x), old(api.fates), api.Stored(), r)
    {
      match currentState
      case Pending => r := HandleScaleUp(wl);
      case ScaledUp => r := HandleWaitReady(wl, node, x);
      case Ready => r := HandleWaitEviction(wl, node, x);
      case Draining => r := HandleScaleDown(wl);
      case Done => r := HandleCleanup(wl);
      case Unknown => r := AbortWorkload(wl);
    }

    /** The whole drain reconcile of one workload does what the drain machine says. */
    method ReconcileWorkload(wl: Workload, node: string, x: DM.DrainInputs) returns (r: Result)
      modifies wl, api
      ensures CarriedOut(old(api.Stored()), DM.DrainPlan(cfg, old(wl.Seen()), node, old(OptedIn(wl, x))),
                         old(api.fates), api.Stored(), r)
    {
      var currentState := ParseState(Lookup(wl.annotations, DrainStateKey));
      if currentState != Idle && currentState != Done {
        var late := CheckTimeout(ParseStart(Lookup(wl.annotations, DrainStartKey)), cfg.readinessTimeout, x.now);
        if late {
          r := AbortWorkload(wl);
          return;
        }
      }
      if currentState == Idle {
        var should := ShouldProcess(wl, node, x);
        if !should {
          return Requeue(0);
        }
      } else {
        var drainNode := Lookup(wl.annotations, DrainNodeKey);
        if drainNode != EMPTY && drainNode != Text(node) {
          return Requeue(0);
        }
      }
      if currentState == Idle {
        r := HandlePending(wl, node, x);
      } else {
        r := Advance(wl, node, x, currentState);
      }
    }
  }

  class RolloutReconciler {
    const cfg: Config
    const enabledKey: Key
    const api: Api

    constructor (cfg: Config, enabledKey: Key, api: Api)
      ensures this.cfg == cfg && this.enabledKey == enabledKey && this.api == api
    {
      this.cfg, this.enabledKey, this.api := cfg, enabledKey, api;
    }

    method AbortRestartSurge(wl: Workload) returns (r: Result)
      modifies wl, api
      ensures CarriedOut(old(api.Stored()), RestartAbort(old(wl.Seen())), old(api.fates), api.Stored(), r)
    {
      ghost var o, w, fates := wl.Seen(), api.Stored(), api.fates;
      var _ := RestoreMinReplicas(wl, api);
      var original := OriginalReplicas(wl.annotations);
      if original.Some? {
        wl.SetReplicas(original.value);
      }
      wl.ClearRestartSurgeAnnotations();
      assert wl.Seen() == ClearRestart(BackToOriginal(o));
      if RestoreSteps(o, false) == [] {
        ExecuteNothing(w, o, false, [Save(wl.Seen())], Requeue(0), fates);
      } else {
        ExecuteFirst(w, RestoreSteps(o, false)[0], [Save(wl.Seen())], Requeue(0), fates);
      }
      r := PatchAndReturn(wl, api, Requeue(0));
    }

    ghost function OptedIn(wl: Workload, x: RM.RestartInputs): RM.RestartInputs
      reads wl
    {
      x.(enabled := Lookup(wl.annotations, enabledKey) == Text("true"))
    }

    method HandleRestartPending(wl: Workload, x: RM.RestartInputs) returns (r: Result)
      modifies wl, api
      ensures CarriedOut(old(api.Stored()), RM.Start(cfg, old(wl.Seen()), old(OptedIn(wl, x))), old(api.fates),
                         api.Stored(), r)
      ensures old(enabledKey !in wl.annotations || wl.annotations[enabledKey] != Text("true")) ==>
                api.Stored() == old(api.Stored()) && r == Requeue(0)
    {
      if Lookup(wl.annotations, enabledKey) != Text("true") {
        return Requeue(0);
      }
      if wl.GetReplicas() != 1 {
        return Requeue(0);
      }
      if x.pods.ReadError? {
        return Failed;
      }
      if !IsRestartStuck(x.ro, x.pods.value, cfg.grace, x.now) {
        if x.ro.restartAt.Some? && x.ro.restartedAt != x.ro.restartAt {
          return Requeue(cfg.grace);
        }
        return Requeue(0);
      }
      if !IsStableForRestart(x.ro) {
        return Requeue(cfg.requeue);
      }
      if x.pdb.ReadError? {
        return Failed;
      }
      if !x.pdb.value {
        return Requeue(0);
      }
      var originalReplicas := wl.GetReplicas();
      RecordRestartSurge(wl, originalReplicas, x.now);
      if x.hpa.ReadError? {
        return Failed;
      }
      var target := Succ32(originalReplicas);
      if x.hpa.value.Some? {
        var hpa := x.hpa.value.value;
        if hpa.max < target {
          return Requeue(0);
        }
        if AtMin(hpa, target) {
          return Requeue(250 * MILLISECOND);
        }
        r := SurgeByHpa(wl, api, hpa, target, cfg.requeue);
        return;
      }
      wl.SetReplicas(target);
      r := PatchAndReturn(wl, api, Requeue(cfg.requeue));
    }

    method HandleRestartScaleUp(wl: Workload) returns (r: Result)
      modifies wl, api
      ensures CarriedOut(old(api.Stored()), RM.ScaleUp(cfg, old(wl.Seen())), old(api.fates), api.Stored(), r)
    {
      var original := OriginalReplicas(wl.annotations);
      if original.None? {
        r := AbortRestartSurge(wl);
        return;
      }
      if Lookup(wl.annotations, HpaNameKey) != EMPTY || wl.GetReplicas() > original.value {
        return Requeue(cfg.requeue);
      }
      wl.SetReplicas(Succ32(original.value));
      r := PatchAndReturn(wl, api, Requeue(cfg.requeue));
    }

    method HandleRestartWaitReady(wl: Workload, x: RM.RestartInputs) returns (r: Result)
      modifies wl, api
      ensures CarriedOut(old(api.Stored()), RM.WaitReady(cfg, old(wl.Seen()), x), old(api.fates), api.Stored(), r)
    {
      if Lookup(wl.annotations, HpaNameKey) == EMPTY {
        var original := OriginalReplicas(wl.annotations);
        if original.None? {
          r := AbortRestartSurge(wl);
          return;
        }
        if wl.GetReplicas() <= original.value {
          wl.SetReplicas(Succ32(original.value));
          r := PatchAndReturn(wl, api, Requeue(cfg.requeue));
          return;
        }
      }
      if x.pods.ReadError? {
        return Failed;
      }
      var readyCount := Scaler.CountReady(x.pods.value);
      if readyCount >= 2 {
        wl.SetRestartState(Ready);
        r := PatchAndReturn(wl, api, Requeue(cfg.requeue));
        return;
      }
      return Requeue(cfg.requeue);
    }

    method HandleRestartWaitForArgo(wl: Workload, x: RM.RestartInputs) returns (r: Result)
      modifies wl, api
      ensures CarriedOut(old(api.Stored()), RM.WaitForArgo(cfg, old(wl.Seen()), x), old(api.fates), api.Stored(), r)
    {
      ghost var o, w, fates := wl.Seen(), api.Stored(), api.fates;
      var statusCaughtUp := CaughtUp(x.ro);
      if !statusCaughtUp {
        if x.pods.ReadError? {
          return Failed;
        }
        if !RestartCompleted(x.ro, x.pods.value) {
          return Requeue(cfg.requeue);
        }
      }
      ghost var plan := RM.WaitForArgo(cfg, o, x);
      ghost var rest := plan.steps[|RestoreSteps(o, true)|..];
      if RestoreSteps(o, true) == [] {
        assert plan.steps == rest || RestoreInvalid(o);
      } else {
        assert plan.steps == [RestoreSteps(o, true)[0]] + rest;
        ExecuteFirst(w, RestoreSteps(o, true)[0], rest, plan.result, fates);
      }
      var ok := RestoreMinReplicas(wl, api);
      if !ok {
        return Failed;
      }
      var original := OriginalReplicas(wl.annotations);
      if original.None? {
        assert rest == RestartAbort(o).steps;
        r := AbortRestartSurge(wl);
        return;
      }
      if Lookup(wl.annotations, HpaNameKey) == EMPTY {
        wl.SetReplicas(original.value);
      }
      wl.SetRestartState(Draining);
      assert rest == [Save(wl.Seen())];
      r := PatchAndReturn(wl, api, Requeue(cfg.requeue));
    }

    method HandleRestartScaleDown(wl: Workload) returns (r: Result)
      modifies wl, api
      ensures CarriedOut(old(api.Stored()), RM.ScaleDown(cfg, old(wl.Seen())), old(api.fates), api.Stored(), r)
    {
      var original := OriginalReplicas(wl.annotations);
      if original.None? {
        r := AbortRestartSurge(wl);
        return;
      }
      if Lookup(wl.annotations, HpaNameKey) == EMPTY && wl.GetReplicas() != original.value {
        wl.SetReplicas(original.value);
      }
      wl.SetRestartState(Done);
      r := PatchAndReturn(wl, api, Requeue(cfg.requeue));
    }

    method HandleRestartCleanup(wl: Workload) returns (r: Result)
      modifies wl, api
      ensures CarriedOut(old(api.Stored()), RM.Cleanup(old(wl.Seen())), old(api.fates), api.Stored(), r)
    {
      wl.ClearRestartSurgeAnnotations();
      r := PatchAndReturn(wl, api, Requeue(0));
    }

    method YieldToDrain(wl: Workload) returns (r: Result)
      modifies wl, api
      ensures CarriedOut(old(api.Stored()), RM.Yield(old(wl.Seen())), old(api.fates), api.Stored(), r)
    {
      if Lookup(wl.annotations, HpaNameKey) == EMPTY {
        var original := OriginalReplicas(wl.annotations);
        if original.Some? {
          wl.SetReplicas(original.value);
        }
      }
      wl.ClearRestartSurgeExclusiveAnnotations();
      r := PatchAndReturn(wl, api, Requeue(0));
    }

    /** The switch over the states of a restart-surge in progress. */
    method Advance(wl: Workload, x: RM.RestartInputs, currentState: State) returns (r: Result)
      requires currentState == wl.Seen().restart && currentState != Idle
      modifies wl, api
      ensures CarriedOut(old(api.Stored()), RM.Advance(cfg, old(wl.Seen()), x), old(api.fates), api.Stored(), r)
    {
      match currentState
      case Pending => r := HandleRestartScaleUp(wl);
      case ScaledUp => r := HandleRestartWaitReady(wl, x);
      case Ready => r := HandleRestartWaitForArgo(wl, x);
      case Draining => r := HandleRestartScaleDown(wl);
      case Done => r := HandleRestartCleanup(wl);
      case Unknown => r := AbortRestartSurge(wl);
    }

    /** The whole restart-surge reconcile of one Rollout does what the restart machine says. */
    method ReconcileWorkload(wl: Workload, x: RM.RestartInputs) returns (r: Result)
      modifies wl, api
      ensures CarriedOut(old(api.Stored()), RM.RestartPlan(cfg, old(wl.Seen()), old(OptedIn(wl, x))),
                         old(api.fates), api.Stored(), r)
    {
      var currentState := ParseState(Lookup(wl.annotations, RestartStateKey));
      var isActive := currentState != Idle && currentState != Done;
      if isActive {
        var late := CheckTimeout(ParseStart(Lookup(wl.annotations, RestartStartKey)), cfg.restartTimeout, x.now);
        if late {
          r := AbortRestartSurge(wl);
          return;
        }
      }
      if ParseState(Lookup(wl.annotations, DrainStateKey)) != Idle {
        if isActive {
          r := YieldToDrain(wl);
          return;
        }
        return Requeue(0);
      }
      if currentState == Idle {
        r := HandleRestartPending(wl, x);
      } else {
        r := Advance(wl, x, currentState);
      }
    }
  }
}
