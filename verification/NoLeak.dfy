/** Without an HPA, no interleaving of possibly stale writes leaves a surge behind. */
module NoLeak {
  import opened Base
  import opened Surge
  import opened DM = DrainMachine
  import opened RM = RestartMachine
  import opened Joint

  /** Replicas are 1 or 2, and a second replica is accounted for by a machine that will take it back. */
  predicate Accounted(o: Obj) {
    && 1 <= o.replicas <= 2
    && (o.replicas == 2 ==>
          && o.original == Some(1)
          && (Surged(o.drain) || (o.drain == Idle && Surged(o.restart))))
  }

  /** The inductive form: no HPA on record, one only original, and no `pending` restart-surge. */
  predicate Sound(o: Obj) {
    && Accounted(o)
    && (o.original.Some? ==> o.original.value == 1)
    && o.hpaName == EMPTY
    && o.restart != Pending
  }

  predicate ReadsNoHpa(a: Action) {
    match a
    case DrainReconcile(_, x) => x.hpa.Got? ==> x.hpa.value.None?
    case RestartReconcile(x) => x.hpa.Got? ==> x.hpa.value.None?
    case _ => true
  }

  /** Every write makes a sound workload. */
  predicate AllSound(steps: seq<Step>) {
    forall p :: 0 <= p < |steps| ==> steps[p].write.SetWorkload? && Sound(steps[p].write.obj)
  }

  lemma DrainKeepsSound(cfg: Config, o: Obj, node: string, x: DrainInputs)
    requires Sound(o) && (x.hpa.Got? ==> x.hpa.value.None?)
    ensures AllSound(DM.DrainPlan(cfg, o, node, x).steps)
  {
    assert DrainAbort(o).steps == [Save(ClearAll(BackToOriginal(o)))];
    if o.drain != Idle {
      AdvanceKeepsSound(cfg, o, node, x);
    }
  }

  lemma AdvanceKeepsSound(cfg: Config, o: Obj, node: string, x: DrainInputs)
    requires Sound(o) && o.drain != Idle
    ensures AllSound(DM.Advance(cfg, o, node, x).steps)
  {
    assert DrainAbort(o).steps == [Save(ClearAll(BackToOriginal(o)))];
    if o.drain == Ready {
      EvictionKeepsSound(cfg, o, node, x);
    } else if o.drain == ScaledUp {
      WaitReadyKeepsSound(cfg, o, node, x);
    }
  }

  lemma EvictionKeepsSound(cfg: Config, o: Obj, node: string, x: DrainInputs)
    requires Sound(o) && o.drain == Ready
    ensures AllSound(DM.WaitEviction(cfg, o, node, x).steps)
  {
    assert DrainAbort(o).steps == [Save(ClearAll(BackToOriginal(o)))];
  }

  lemma WaitReadyKeepsSound(cfg: Config, o: Obj, node: string, x: DrainInputs)
    requires Sound(o) && o.drain == ScaledUp
    ensures AllSound(DM.WaitReady(cfg, o, node, x).steps)
  {
    assert DrainAbort(o).steps == [Save(ClearAll(BackToOriginal(o)))];
  }

  lemma RestartKeepsSound(cfg: Config, o: Obj, x: RestartInputs)
    requires Sound(o) && (x.hpa.Got? ==> x.hpa.value.None?)
    ensures AllSound(RM.RestartPlan(cfg, o, x).steps)
  {
    assert RestartAbort(o).steps == [Save(ClearRestart(BackToOriginal(o)))];
    if o.drain == Idle && o.restart == Idle {
      RestartStartKeepsSound(cfg, o, x);
    } else if o.drain == Idle {
      RestartAdvanceKeepsSound(cfg, o, x);
    }
  }

  lemma RestartAdvanceKeepsSound(cfg: Config, o: Obj, x: RestartInputs)
    requires Sound(o) && o.drain == Idle && o.restart != Idle
    ensures AllSound(RM.Advance(cfg, o, x).steps)
  {
    assert RestartAbort(o).steps == [Save(ClearRestart(BackToOriginal(o)))];
    if o.restart == Ready {
      ArgoKeepsSound(cfg, o, x);
    }
  }

  lemma RestartStartKeepsSound(cfg: Config, o: Obj, x: RestartInputs)
    requires Sound(o) && o.drain == Idle && o.restart == Idle && (x.hpa.Got? ==> x.hpa.value.None?)
    ensures AllSound(RM.Start(cfg, o, x).steps)
  {
  }

  lemma ArgoKeepsSound(cfg: Config, o: Obj, x: RestartInputs)
    requires Sound(o) && o.drain == Idle && o.restart == Ready
    ensures AllSound(RM.WaitForArgo(cfg, o, x).steps)
  {
    assert RestartAbort(o).steps == [Save(ClearRestart(BackToOriginal(o)))];
  }

  /** Whatever the controller decides on a sound workload, it writes a sound workload and nothing else. */
  lemma PlanKeepsSound(cfg: Config, o: Obj, a: Action)
    requires Sound(o) && ReadsNoHpa(a)
    ensures AllSound(PlanOf(cfg, o, a).steps)
  {
    match a
    case DrainReconcile(node, x) => DrainKeepsSound(cfg, o, node, x);
    case RestartReconcile(x) => RestartKeepsSound(cfg, o, x);
    case _ =>
  }

  lemma {:induction false} StaysSound(cfg: Config, h: seq<World>, ms: seq<Landing>, i: nat)
    requires StaleRun(cfg, h, ms) && i < |h|
    requires h[0].hpa.None? && h[0].obj.replicas == 1 && NoOwnedKeys(h[0].obj)
    requires forall k :: 0 <= k < |ms| && ms[k].Reset? ==> ms[k].n == 1
    ensures forall j :: 0 <= j <= i ==> Sound(h[j].obj) && h[j].hpa.None?
  {
    if i > 0 {
      StaysSound(cfg, h, ms, i - 1);
      var past, m := h[..i], ms[i - 1];
      assert StaleNext(cfg, past, m, h[i]);
      if m.Landing? {
        var x :| Lands(cfg, past, m, x) && h[i] == Land(past[|past| - 1], x);
        PlanKeepsSound(cfg, past[m.snap].obj, m.action);
      }
    }
  }

  /**
   No leaked surge. From a workload at one replica without owned annotations and without an HPA,
   every run of both machines, both aborts, yields, both orphan scans and external resets, in which
   each write may have been decided on any earlier state and may be lost, keeps every second replica
   accounted for; a workload with no operation on record is at one replica.
   */
  lemma NoLeakedSurge(cfg: Config, h: seq<World>, ms: seq<Landing>, i: nat)
    requires StaleRun(cfg, h, ms) && i < |h|
    requires h[0].hpa.None? && h[0].obj.replicas == 1 && NoOwnedKeys(h[0].obj)
    requires forall k :: 0 <= k < |ms| && ms[k].Reset? ==> ms[k].n == 1
    ensures Accounted(h[i].obj)
    ensures h[i].obj.drain == Idle && h[i].obj.restart == Idle ==> h[i].obj.replicas == 1
  {
    StaysSound(cfg, h, ms, i);
  }

  /** The same of atomic runs, in which each handler reads the current state and its writes may fail or be cut off. */
  lemma NoLeakedSurgeAtomically(cfg: Config, ws: seq<World>, es: seq<Event>, i: nat)
    requires Run(cfg, ws, es) && i < |ws|
    requires ws[0].hpa.None? && ws[0].obj.replicas == 1 && NoOwnedKeys(ws[0].obj)
    requires forall k :: 0 <= k < |es| && es[k].External? ==> es[k].n == 1
    ensures Accounted(ws[i].obj)
    ensures ws[i].obj.drain == Idle && ws[i].obj.restart == Idle ==> ws[i].obj.replicas == 1
  {
    var h, ms := AtomicRunsAreStale(cfg, ws, es, i, {1});
    NoLeakedSurge(cfg, h, ms, |h| - 1);
  }
}
