/** The pre-surge minReplicas of the workload's HPA is never lost and never mistaken. */
module HpaBaseline {
  import opened Base
  import opened Surge
  import opened DM = DrainMachine
  import opened RM = RestartMachine
  import opened Joint

  /** One HPA, of a fixed name, whose effective minimum is the baseline or the surge target. */
  predicate HpaWithin(w: World, name: string, base: Int32) {
    && w.hpa.Some?
    && w.hpa.value.name == name
    && (MinOrDefault(w.hpa.value) == base || (base < 2 && MinOrDefault(w.hpa.value) == 2))
  }

  // ---------- Conservation under crashes ----------

  /** An HPA away from its baseline is on record, with the baseline, by a machine that will restore it. */
  predicate Conserved(w: World, name: string, base: Int32) {
    && HpaWithin(w, name, base)
    && (MinOrDefault(w.hpa.value) != base ==>
          && w.obj.hpaName == Text(name)
          && w.obj.hpaMin == Some(base as int)
          && (Surged(w.obj.drain) || (w.obj.drain == Idle && Surged(w.obj.restart))))
  }

  /** The inductive form: whatever is on record about an HPA is right. */
  predicate Kept(w: World, name: string, base: Int32) {
    && Conserved(w, name, base)
    && (w.obj.hpaName != EMPTY ==> w.obj.hpaName == Text(name) && w.obj.hpaMin == Some(base as int))
  }

  /** An abort whose HPA restore does not take effect does not get to clear the annotations either. */
  ghost predicate NoSwallowedRestore(plan: Plan, fates: seq<Fate>) {
    forall p, q :: 0 <= p < q < |plan.steps| && !plan.steps[p].required && FateAt(fates, p) == Lost
                   ==> FateAt(fates, q) == Lost
  }

  /** Every prefix of the writes, taking effect in order, keeps the baseline. */
  predicate PrefixesKeep(w: World, steps: seq<Step>, name: string, base: Int32)
    decreases |steps|
  {
    && Kept(w, name, base)
    && (steps != [] ==> PrefixesKeep(Land(w, steps[0].write), steps[1..], name, base))
  }

  lemma {:induction false} AllLost(w: World, plan: Plan, fates: seq<Fate>)
    requires forall p :: 0 <= p < |plan.steps| ==> FateAt(fates, p) == Lost
    ensures Execute(w, plan, fates).world == w
    decreases |plan.steps|
  {
    if plan.steps != [] {
      var fates' := if fates == [] then [] else fates[1..];
      assert forall p :: 0 <= p < |plan.steps| - 1 ==> FateAt(fates', p) == FateAt(fates, p + 1);
      assert FateAt(fates, 0) == Lost;
      AllLost(w, Plan(plan.steps[1..], plan.result), fates');
    }
  }

  lemma {:induction false} ExecuteKeeps(w: World, plan: Plan, fates: seq<Fate>, name: string, base: Int32)
    requires PrefixesKeep(w, plan.steps, name, base)
    requires NoSwallowedRestore(plan, fates)
    ensures Kept(Execute(w, plan, fates).world, name, base)
    decreases |plan.steps|
  {
    if plan.steps != [] {
      var x, f := plan.steps[0], FateAt(fates, 0);
      var rest, fates' := Plan(plan.steps[1..], plan.result), if fates == [] then [] else fates[1..];
      forall p | 0 <= p < |rest.steps|
        ensures FateAt(fates', p) == FateAt(fates, p + 1) && rest.steps[p] == plan.steps[p + 1]
      {
      }
      if f != Lost {
        ExecuteKeeps(Land(w, x.write), rest, fates', name, base);
      } else if !x.required {
        AllLost(w, rest, fates');
      }
    }
  }

  lemma OneWrite(w: World, x: Step, name: string, base: Int32)
    requires Kept(w, name, base) && Kept(Land(w, x.write), name, base)
    ensures PrefixesKeep(w, [x], name, base)
  {
  }

  /** Restoring and then saving a workload that keeps the record, or drops it. */
  lemma RestoreThenSave(w: World, o': Obj, required: bool, name: string, base: Int32)
    requires Kept(w, name, base) && name != ""
    requires o'.hpaName == EMPTY || (o'.hpaName == w.obj.hpaName && o'.hpaMin == w.obj.hpaMin)
    ensures PrefixesKeep(w, RestoreSteps(w.obj, required) + [Save(o')], name, base)
  {
  }

  /** Restoring, and then aborting, which restores again. */
  lemma RestoreThenAbort(w: World, o': Obj, name: string, base: Int32)
    requires Kept(w, name, base) && name != "" && o'.hpaName == EMPTY
    ensures PrefixesKeep(w, RestoreSteps(w.obj, true) + (RestoreSteps(w.obj, false) + [Save(o')]), name, base)
  {
    var abort := RestoreSteps(w.obj, false) + [Save(o')];
    if w.obj.hpaName == EMPTY {
      RestoreThenSave(w, o', false, name, base);
      assert RestoreSteps(w.obj, true) + abort == abort;
    } else {
      var x := RestoreSteps(w.obj, true)[0];
      RestoreThenSave(Land(w, x.write), o', false, name, base);
      assert ([x] + abort)[1..] == abort;
    }
  }

  /** A surge through the HPA: the record first, then the patch. */
  lemma SurgeKeeps(w: World, o': Obj, name: string, base: Int32)
    requires Kept(w, name, base) && name != "" && !AtMin(w.hpa.value, 2)
    requires o'.hpaName == Text(name) && o'.hpaMin == Some(MinOrDefault(w.hpa.value) as int)
    requires Surged(o'.drain) || (o'.drain == Idle && Surged(o'.restart))
    ensures PrefixesKeep(w, [Save(o'), Step(SurgeHpa(Text(name), 2), true)], name, base)
  {
  }

  lemma DrainPlanKeeps(cfg: Config, w: World, node: string, x: DrainInputs, name: string, base: Int32)
    requires Kept(w, name, base) && name != "" && Fresh(w.hpa, DrainReconcile(node, x))
    ensures PrefixesKeep(w, DM.DrainPlan(cfg, w.obj, node, x).steps, name, base)
  {
    var o, plan := w.obj, DM.DrainPlan(cfg, w.obj, node, x);
    if plan == DrainAbort(o) {
      RestoreThenSave(w, ClearAll(BackToOriginal(o)), false, name, base);
    } else if o.drain == Ready && plan.steps != [] {
      if o.original.None? {
        RestoreThenAbort(w, ClearAll(BackToOriginal(o)), name, base);
      } else {
        var target := if o.hpaName == EMPTY then o.original.value else o.replicas;
        RestoreThenSave(w, o.(replicas := target, drain := Draining), true, name, base);
      }
    } else if |plan.steps| == 2 {
      SurgeKeeps(w, plan.steps[0].write.obj, name, base);
      assert plan.steps == [plan.steps[0], plan.steps[1]];
    } else if |plan.steps| == 1 {
      OneWrite(w, plan.steps[0], name, base);
      assert plan.steps == [plan.steps[0]];
    }
  }

  lemma RestartPlanKeeps(cfg: Config, w: World, x: RestartInputs, name: string, base: Int32)
    requires Kept(w, name, base) && name != "" && Fresh(w.hpa, RestartReconcile(x))
    ensures PrefixesKeep(w, RM.RestartPlan(cfg, w.obj, x).steps, name, base)
  {
    var o, plan := w.obj, RM.RestartPlan(cfg, w.obj, x);
    if plan == RestartAbort(o) {
      RestoreThenSave(w, ClearRestart(BackToOriginal(o)), false, name, base);
    } else if o.drain == Idle && o.restart == Ready && plan.steps != [] {
      if o.original.None? {
        RestoreThenAbort(w, ClearRestart(BackToOriginal(o)), name, base);
      } else {
        var target := if o.hpaName == EMPTY then o.original.value else o.replicas;
        RestoreThenSave(w, o.(replicas := target, restart := Draining), true, name, base);
      }
    } else if |plan.steps| == 2 {
      SurgeKeeps(w, plan.steps[0].write.obj, name, base);
      assert plan.steps == [plan.steps[0], plan.steps[1]];
    } else if |plan.steps| == 1 {
      OneWrite(w, plan.steps[0], name, base);
      assert plan.steps == [plan.steps[0]];
    }
  }

  /** In every state that keeps the baseline, so does every prefix of what the controller decides to write. */
  lemma PlanKeeps(cfg: Config, w: World, a: Action, name: string, base: Int32)
    requires Kept(w, name, base) && name != "" && Fresh(w.hpa, a)
    ensures PrefixesKeep(w, PlanOf(cfg, w.obj, a).steps, name, base)
  {
    match a
    case DrainReconcile(node, x) => DrainPlanKeeps(cfg, w, node, x, name, base);
    case RestartReconcile(x) => RestartPlanKeeps(cfg, w, x, name, base);
    case RestartOrphanScan(_) => RestoreThenSave(w, ClearRestart(BackToOriginal(w.obj)), false, name, base);
    case _ => RestoreThenSave(w, ClearAll(BackToOriginal(w.obj)), false, name, base);
  }

  /** Every controller step of the run is free of swallowed restores. */
  ghost predicate NothingSwallowed(cfg: Config, ws: seq<World>, es: seq<Event>)
    requires |ws| == |es| + 1
  {
    forall i :: 0 <= i < |es| && es[i].Controller? ==>
      NoSwallowedRestore(PlanOf(cfg, ws[i].obj, es[i].action), es[i].fates)
  }

  lemma {:induction false} StaysKept(cfg: Config, ws: seq<World>, es: seq<Event>, i: nat, name: string, base: Int32)
    requires Run(cfg, ws, es) && i < |ws| && NothingSwallowed(cfg, ws, es)
    requires Kept(ws[0], name, base) && name != ""
    ensures Kept(ws[i], name, base)
  {
    if i > 0 {
      StaysKept(cfg, ws, es, i - 1, name, base);
      var w, e := ws[i - 1], es[i - 1];
      assert Next(cfg, w, e, ws[i]);
      if e.Controller? {
        PlanKeeps(cfg, w, e.action, name, base);
        ExecuteKeeps(w, PlanOf(cfg, w.obj, e.action), e.fates, name, base);
      }
    }
  }

  /**
   HPA baseline conservation. From a workload without owned annotations, with handlers run one at a
   time, a crash or a failed write anywhere, spec.replicas changed by others at will, and no failed
   restore swallowed by an abort, the HPA's minimum is always the baseline or 2; and away from the
   baseline the HPA and the baseline are on record and one machine is in scaled-up or ready.
   */
  lemma BaselineConserved(cfg: Config, ws: seq<World>, es: seq<Event>, i: nat, hpa: Hpa, base: Int32)
    requires Run(cfg, ws, es) && i < |ws| && NothingSwallowed(cfg, ws, es)
    requires ws[0].hpa == Some(hpa) && hpa.name != "" && NoOwnedKeys(ws[0].obj) && IsBaseline(hpa.min, base)
    ensures ConservedFor(ws[i], hpa.name, base)
  {
    StaysKept(cfg, ws, es, i, hpa.name, base);
  }

  /** The minimum before any surge: what minReplicas says, or 1 where it is unset. */
  predicate IsBaseline(min: Option<Int32>, base: Int32) {
    min == Some(base) || (min.None? && base == 1)
  }

  /**
   The HPA stands at the baseline or, surged from below, at 2; then it is on record with the baseline, by a
   machine that will restore it. Whatever is on record is that HPA and the baseline.
   */
  predicate ConservedFor(w: World, name: string, base: Int32) {
    && w.hpa.Some? && w.hpa.value.name == name
    && (IsBaseline(w.hpa.value.min, base) || (base < 2 && w.hpa.value.min == Some(2)))
    && (!IsBaseline(w.hpa.value.min, base) ==>
          && w.obj.hpaName == Text(name) && w.obj.hpaMin == Some(base as int)
          && (|| w.obj.drain == ScaledUp || w.obj.drain == Ready
              || (w.obj.drain == Idle && (w.obj.restart == ScaledUp || w.obj.restart == Ready))))
    && (w.obj.hpaName != Text("") ==> w.obj.hpaName == Text(name) && w.obj.hpaMin == Some(base as int))
  }

  /**
   Both aborts clear the record even when the restore failed. An abort conserves the baseline exactly
   unless the HPA is surged, its restore is lost and the clearing write lands.
   */
  lemma AbortConservesUnlessSwallowed(w: World, fates: seq<Fate>, name: string, base: Int32)
    requires Kept(w, name, base) && name != ""
    ensures (Conserved(Execute(w, DrainAbort(w.obj), fates).world, name, base) <==>
             (MinOrDefault(w.hpa.value) == base || FateAt(fates, 0) != Lost || FateAt(fates, 1) == Lost))
    ensures (Conserved(Execute(w, RestartAbort(w.obj), fates).world, name, base) <==>
             (MinOrDefault(w.hpa.value) == base || FateAt(fates, 0) != Lost || FateAt(fates, 1) == Lost))
  {
    AbortExecutes(w, DrainAbort(w.obj), fates);
    AbortExecutes(w, RestartAbort(w.obj), fates);
  }

  /** The effect of an abort, write by write. */
  lemma AbortExecutes(w: World, plan: Plan, fates: seq<Fate>)
    requires plan == DrainAbort(w.obj) || plan == RestartAbort(w.obj)
    ensures RestoreSteps(w.obj, false) == [] ==>
              Execute(w, plan, fates).world == if FateAt(fates, 0) == Lost then w else Land(w, plan.steps[0].write)
    ensures RestoreSteps(w.obj, false) != [] ==>
              var w1 := if FateAt(fates, 0) == Lost then w else Land(w, plan.steps[0].write);
              Execute(w, plan, fates).world == if FateAt(fates, 1) == Lost then w1 else Land(w1, plan.steps[1].write)
  {
    if RestoreSteps(w.obj, false) == [] {
      assert plan.steps == [plan.steps[0]];
      ExecuteOne(w, plan.steps[0], plan.result, fates);
    } else {
      assert plan.steps == [plan.steps[0], plan.steps[1]];
      var w1 := if FateAt(fates, 0) == Lost then w else Land(w, plan.steps[0].write);
      var fates' := if fates == [] then [] else fates[1..];
      assert plan.steps[1..] == [plan.steps[1]];
      ExecuteOne(w1, plan.steps[1], plan.result, fates');
    }
  }

  // ---------- Never poisoned, however stale the reads ----------

  /** Nothing on record but the true baseline. */
  predicate Unpoisoned(w: World, name: string, base: Int32) {
    && HpaWithin(w, name, base)
    && (w.obj.hpaMin.Some? ==> w.obj.hpaMin.value == base)
  }

  /** What a write may say about HPAs: a surge goes to 2 from below, and a restore to the baseline. */
  predicate HonestWrite(x: Write, base: Int32) {
    match x
    case SetWorkload(o) => o.hpaMin.Some? ==> o.hpaMin.value == base
    case SurgeHpa(_, n) => n == 2 && base < 2
    case RestoreHpa(_, n) => n == base
  }

  predicate AllHonest(steps: seq<Step>, base: Int32) {
    forall p :: 0 <= p < |steps| ==> HonestWrite(steps[p].write, base)
  }

  predicate ReadWithin(r: Read<Option<Hpa>>, base: Int32) {
    r.Got? ==> r.value.Some? && (MinOrDefault(r.value.value) == base || (base < 2 && MinOrDefault(r.value.value) == 2))
  }

  predicate ReadsWithin(a: Action, base: Int32) {
    && (a.DrainReconcile? ==> ReadWithin(a.d.hpa, base))
    && (a.RestartReconcile? ==> ReadWithin(a.r.hpa, base))
  }

  /** A restore on record is honest, and so is saving an object that keeps or drops the record. */
  lemma RestoreIsHonest(o: Obj, required: bool, rest: seq<Step>, base: Int32)
    requires (o.hpaMin.Some? ==> o.hpaMin.value == base) && AllHonest(rest, base)
    ensures AllHonest(RestoreSteps(o, required) + rest, base)
  {
  }

  lemma DrainIsHonest(cfg: Config, o: Obj, node: string, x: DrainInputs, base: Int32)
    requires (o.hpaMin.Some? ==> o.hpaMin.value == base) && ReadWithin(x.hpa, base)
    ensures AllHonest(DM.DrainPlan(cfg, o, node, x).steps, base)
  {
    RestoreIsHonest(o, false, [Save(ClearAll(BackToOriginal(o)))], base);
    if o.drain == Ready {
      RestoreIsHonest(o, true, DrainAbort(o).steps, base);
      var target := if o.hpaName == EMPTY && o.original.Some? then o.original.value else o.replicas;
      RestoreIsHonest(o, true, [Save(o.(replicas := target, drain := Draining))], base);
    }
  }

  lemma RestartIsHonest(cfg: Config, o: Obj, x: RestartInputs, base: Int32)
    requires (o.hpaMin.Some? ==> o.hpaMin.value == base) && ReadWithin(x.hpa, base)
    ensures AllHonest(RM.RestartPlan(cfg, o, x).steps, base)
  {
    RestoreIsHonest(o, false, [Save(ClearRestart(BackToOriginal(o)))], base);
    if o.restart == Ready {
      RestoreIsHonest(o, true, RestartAbort(o).steps, base);
      var target := if o.hpaName == EMPTY && o.original.Some? then o.original.value else o.replicas;
      RestoreIsHonest(o, true, [Save(o.(replicas := target, restart := Draining))], base);
    }
  }

  lemma PlanIsHonest(cfg: Config, o: Obj, a: Action, base: Int32)
    requires (o.hpaMin.Some? ==> o.hpaMin.value == base) && ReadsWithin(a, base)
    ensures AllHonest(PlanOf(cfg, o, a).steps, base)
  {
    match a
    case DrainReconcile(node, x) => DrainIsHonest(cfg, o, node, x, base);
    case RestartReconcile(x) => RestartIsHonest(cfg, o, x, base);
    case RestartOrphanScan(_) => RestoreIsHonest(o, false, [Save(ClearRestart(BackToOriginal(o)))], base);
    case _ => RestoreIsHonest(o, false, [Save(ClearAll(BackToOriginal(o)))], base);
  }

  lemma LandingIsHonest(cfg: Config, h: seq<World>, m: Landing, x: Write, name: string, base: Int32)
    requires Lands(cfg, h, m, x)
    requires forall k :: 0 <= k < |h| ==> Unpoisoned(h[k], name, base)
    ensures HonestWrite(x, base)
  {
    PlanIsHonest(cfg, h[m.snap].obj, m.action, base);
  }

  lemma {:induction false} StaysUnpoisoned(cfg: Config, h: seq<World>, ms: seq<Landing>, i: nat, name: string,
                                           base: Int32)
    requires StaleRun(cfg, h, ms) && i < |h| && Unpoisoned(h[0], name, base)
    ensures forall j :: 0 <= j <= i ==> Unpoisoned(h[j], name, base)
  {
    if i > 0 {
      StaysUnpoisoned(cfg, h, ms, i - 1, name, base);
      var past, m := h[..i], ms[i - 1];
      assert StaleNext(cfg, past, m, h[i]);
      if m.Landing? {
        var x :| Lands(cfg, past, m, x) && h[i] == Land(past[|past| - 1], x);
        LandingIsHonest(cfg, past, m, x, name, base);
      }
    }
  }

  /**
   The HPA baseline is never poisoned: even when every decision is made on an arbitrarily old
   workload and independently old HPAs, the recorded minimum is only ever the true pre-surge one
   (unset counting as 1), every restore that reaches the server writes exactly that value, and every
   surge goes to 2 from below.
   */
  lemma BaselineNeverPoisoned(cfg: Config, h: seq<World>, ms: seq<Landing>, i: nat, x: Write, hpa: Hpa, base: Int32)
    requires StaleRun(cfg, h, ms) && i < |ms| && Lands(cfg, h[..i + 1], ms[i], x)
    requires h[0].hpa == Some(hpa) && NoOwnedKeys(h[0].obj) && IsBaseline(hpa.min, base)
    ensures x.RestoreHpa? ==> x.min == base
    ensures x.SurgeHpa? ==> x.min == 2 && base < 2
    ensures x.SetWorkload? && x.obj.hpaMin.Some? ==> x.obj.hpaMin.value == base
    ensures h[i + 1].obj.hpaMin.Some? ==> h[i + 1].obj.hpaMin.value == base
    ensures h[i + 1].hpa.Some? && h[i + 1].hpa.value.name == hpa.name
    ensures IsBaseline(h[i + 1].hpa.value.min, base) || (base < 2 && h[i + 1].hpa.value.min == Some(2))
  {
    StaysUnpoisoned(cfg, h, ms, i + 1, hpa.name, base);
    LandingIsHonest(cfg, h[..i + 1], ms[i], x, hpa.name, base);
  }
}
