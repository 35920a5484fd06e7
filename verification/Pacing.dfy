/** A reconcile that leaves an operation on record asks to be called again, so timers alone bring it to its end. */
module Pacing {
  import opened Base
  import opened Surge
  import opened DM = DrainMachine
  import opened RM = RestartMachine
  import opened Joint
  import opened Ownership
  import opened Lifetime
  import S = Store
  import O = Order

  // ---------- What a plan that succeeds leaves ----------

  /** The workload after the last of the writes that save one. */
  function LastSaved(steps: seq<Step>, o: Obj): Obj
    decreases |steps|
  {
    if steps == [] then o
    else LastSaved(steps[1..], if steps[0].write.SetWorkload? then steps[0].write.obj else o)
  }

  predicate SavesRequired(steps: seq<Step>) {
    forall p :: 0 <= p < |steps| && steps[p].write.SetWorkload? ==> steps[p].required
  }

  lemma {:induction false} SuccessSavesAll(w: World, plan: Plan, fates: seq<Fate>)
    requires SavesRequired(plan.steps)
    ensures var out := Execute(w, plan, fates);
            out.result == Failed || (out.result == plan.result && out.world.obj == LastSaved(plan.steps, w.obj))
    decreases |plan.steps|
  {
    if plan.steps != [] {
      var f := if fates == [] then Lost else fates[0];
      var w' := if f != Lost then Land(w, plan.steps[0].write) else w;
      if !(plan.steps[0].required && !Succeeds(w, plan.steps[0].write, f)) {
        SuccessSavesAll(w', Plan(plan.steps[1..], plan.result), if fates == [] then [] else fates[1..]);
      }
    }
  }

  lemma {:induction false} SuccessSavesAllIn(s: S.Store, id: S.Id, plan: Plan, fates: seq<Fate>)
    requires id in s.objs && SavesRequired(plan.steps)
    ensures var r := S.ExecuteIn(s, id, plan, fates);
            r.result == Failed || (r.result == plan.result && r.store.objs[id] == LastSaved(plan.steps, s.objs[id]))
    decreases |plan.steps|
  {
    if plan.steps != [] {
      var f := if fates == [] then Lost else fates[0];
      var s' := if f != Lost then S.LandIn(s, id, plan.steps[0].write) else s;
      if !(plan.steps[0].required && !S.SucceedsIn(s, id, plan.steps[0].write, f)) {
        SuccessSavesAllIn(s', id, Plan(plan.steps[1..], plan.result), if fates == [] then [] else fates[1..]);
      }
    }
  }

  /** Restores do not save a workload. */
  lemma LastAfterRestore(o: Obj, required: bool, rest: seq<Step>)
    requires SavesRequired(rest)
    ensures SavesRequired(RestoreSteps(o, required) + rest)
    ensures LastSaved(RestoreSteps(o, required) + rest, o) == LastSaved(rest, o)
  {
    var steps := RestoreSteps(o, required);
    if steps == [] {
      assert steps + rest == rest;
    } else {
      assert (steps + rest)[1..] == rest;
    }
  }

  lemma LastOfAbort(o: Obj, o': Obj, required: bool)
    ensures SavesRequired(RestoreSteps(o, required) + [Save(o')])
    ensures LastSaved(RestoreSteps(o, required) + [Save(o')], o) == o'
  {
    LastAfterRestore(o, required, [Save(o')]);
  }

  /** One save, or a save and a surge of the HPA. */
  lemma LastOfFew(steps: seq<Step>, o: Obj)
    requires 1 <= |steps| <= 2 && steps[0].write.SetWorkload? && (|steps| == 2 ==> !steps[1].write.SetWorkload?)
    ensures LastSaved(steps, o) == steps[0].write.obj
  {
    var o' := steps[0].write.obj;
    if |steps| == 2 {
      assert steps[1..][1..] == [];
      assert LastSaved(steps[1..], o') == o';
    } else {
      assert LastSaved(steps[1..], o') == o';
    }
  }

  /** The drain is on record and belongs to the node. */
  predicate DrainLeft(o: Obj, node: string) {
    o.drain != Idle && o.node == Text(node)
  }

  lemma DrainPlanComesBack(cfg: Config, o: Obj, node: string, x: DrainInputs)
    ensures var plan := DM.DrainPlan(cfg, o, node, x);
            && SavesRequired(plan.steps)
            && (DrainLeft(LastSaved(plan.steps, o), node) ==>
              plan.result == Failed || plan.result == Requeue(cfg.requeue))
  {
    var plan := DM.DrainPlan(cfg, o, node, x);
    LastOfAbort(o, ClearAll(BackToOriginal(o)), false);
    if plan != DrainAbort(o) && plan.steps != [] {
      if o.drain == Ready && o.original.None? {
        LastAfterRestore(o, true, DrainAbort(o).steps);
      } else if o.drain == Ready {
        LastOfAbort(o, plan.steps[|plan.steps| - 1].write.obj, true);
      } else {
        LastOfFew(plan.steps, o);
      }
    }
  }

  lemma RestartPlanComesBack(cfg: Config, o: Obj, x: RestartInputs)
    requires o.drain == Idle
    ensures var plan := RM.RestartPlan(cfg, o, x);
            && SavesRequired(plan.steps)
            && (LastSaved(plan.steps, o).restart != Idle ==>
              plan.result == Failed || plan.result == Requeue(cfg.requeue))
  {
    LastOfAbort(o, ClearRestart(BackToOriginal(o)), false);
    if RestartOverdue(cfg, o, x.now) {
      assert RM.RestartPlan(cfg, o, x) == RestartAbort(o);
    } else if o.restart == Idle {
      RestartStartComesBack(cfg, o, x);
    } else {
      RestartAdvanceComesBack(cfg, o, x);
    }
  }

  lemma RestartStartComesBack(cfg: Config, o: Obj, x: RestartInputs)
    requires o.restart == Idle
    ensures var plan := RM.Start(cfg, o, x);
            SavesRequired(plan.steps)
              && (LastSaved(plan.steps, o).restart != Idle ==> plan.result == Requeue(cfg.requeue))
  {
    var plan := RM.Start(cfg, o, x);
    if plan.steps != [] {
      LastOfFew(plan.steps, o);
    }
  }

  lemma RestartAdvanceComesBack(cfg: Config, o: Obj, x: RestartInputs)
    requires o.restart != Idle
    ensures var plan := RM.Advance(cfg, o, x);
            && SavesRequired(plan.steps)
            && (LastSaved(plan.steps, o).restart != Idle ==>
              plan.result == Failed || plan.result == Requeue(cfg.requeue))
  {
    var plan := RM.Advance(cfg, o, x);
    LastOfAbort(o, ClearRestart(BackToOriginal(o)), false);
    if plan != RestartAbort(o) && plan.steps != [] {
      if o.restart == Ready && o.original.None? {
        LastAfterRestore(o, true, RestartAbort(o).steps);
      } else if o.restart == Ready {
        LastOfAbort(o, plan.steps[|plan.steps| - 1].write.obj, true);
      } else {
        LastOfFew(plan.steps, o);
      }
    }
  }

  /**
   A drain reconcile that leaves a drain of its node on record fails, or asks to be back after the
   requeue interval.
   */
  lemma DrainComesBack(cfg: Config, w: World, node: string, x: DrainInputs, fates: seq<Fate>)
    ensures var out := Execute(w, PlanOf(cfg, w.obj, DrainReconcile(node, x)), fates);
            DrainLeft(out.world.obj, node) ==> out.result == Failed || out.result == Requeue(cfg.requeue)
  {
    DrainPlanComesBack(cfg, w.obj, node, x);
    SuccessSavesAll(w, DM.DrainPlan(cfg, w.obj, node, x), fates);
  }

  /** So does a restart-surge reconcile that finds no drain and leaves a restart-surge on record. */
  lemma RestartComesBack(cfg: Config, w: World, x: RestartInputs, fates: seq<Fate>)
    requires w.obj.drain == Idle
    ensures var out := Execute(w, PlanOf(cfg, w.obj, RestartReconcile(x)), fates);
            out.world.obj.restart != Idle ==> out.result == Failed || out.result == Requeue(cfg.requeue)
  {
    RestartPlanComesBack(cfg, w.obj, x);
    SuccessSavesAll(w, RM.RestartPlan(cfg, w.obj, x), fates);
  }

  // ---------- Node reconcile ----------

  /** Whatever it finds, the job on this workload fails, or asks for c if it leaves a drain of the node there. */
  ghost predicate AsksBack(f: S.Act, id: S.Id, node: string, c: int) {
    forall s: S.Store :: id in s.objs && id in f(s, id).store.objs && DrainLeft(f(s, id).store.objs[id], node) ==>
      f(s, id).result == Failed || f(s, id).result == Requeue(c)
  }

  /** The jobs on other workloads leave this one alone. */
  ghost predicate LeavesAlone(f: S.Act, id: S.Id) {
    forall s: S.Store, other :: other != id && id in s.objs ==>
      id in f(s, other).store.objs && f(s, other).store.objs[id] == s.objs[id]
  }

  lemma {:induction false} SomeoneAsks(f: S.Act, s: S.Store, xs: seq<S.Id>, id: S.Id, node: string, c: int)
    requires c > 0 && id in s.objs && AsksBack(f, id, node, c) && LeavesAlone(f, id)
    requires forall t: S.Store :: id in t.objs ==> id in f(t, id).store.objs
    ensures var at := O.InOrder(f, s, xs);
            && id in at.store.objs && at.requeueAfter >= 0
            && (id in xs && id !in at.failed && DrainLeft(at.store.objs[id], node) ==> 0 < at.requeueAfter <= c)
    decreases |xs|
  {
    if xs != [] {
      var front, last := xs[..|xs| - 1], xs[|xs| - 1];
      SomeoneAsks(f, s, front, id, node, c);
      assert id in xs <==> id in front || id == last;
    }
  }

  lemma JobAsksBack(job: S.Job, id: S.Id)
    requires job.ReconcileJob?
    ensures AsksBack(S.Doing(job), id, job.node, job.cfg.requeue)
  {
    forall s: S.Store | id in s.objs && DrainLeft(S.Doing(job)(s, id).store.objs[id], job.node)
      ensures S.Doing(job)(s, id).result == Failed || S.Doing(job)(s, id).result == Requeue(job.cfg.requeue)
    {
      JobComesBack(job, s, id);
    }
  }

  lemma JobComesBack(job: S.Job, s: S.Store, id: S.Id)
    requires job.ReconcileJob? && id in s.objs
    ensures var r := S.Do(job, s, id);
            DrainLeft(r.store.objs[id], job.node) ==> r.result == Failed || r.result == Requeue(job.cfg.requeue)
  {
    var x := S.Seeing(job.env(id).x, S.Match(s.hpas, id));
    DrainPlanComesBack(job.cfg, s.objs[id], job.node, x);
    SuccessSavesAllIn(s, id, DM.DrainPlan(job.cfg, s.objs[id], job.node, x), job.env(id).fates);
  }

  lemma JobLeavesAlone(job: S.Job, id: S.Id)
    ensures LeavesAlone(S.Doing(job), id)
  {
    forall s: S.Store, other | other != id && id in s.objs && other in s.objs
      ensures id in S.Doing(job)(s, other).store.objs && S.Doing(job)(s, other).store.objs[id] == s.objs[id]
    {
      S.DoIsLocal(job, s, s, other);
    }
  }

  /**
   A node reconcile over any workloads, in any order and with any HPAs shared, asks to be back after a
   positive time of at most the requeue interval if it leaves a drain of its node on record anywhere
   that did not fail.
   */
  lemma LoopComesBack(job: S.Job, s: S.Store, xs: seq<S.Id>, id: S.Id)
    requires job.ReconcileJob? && 0 < job.cfg.requeue && id in s.objs && id in xs
    ensures var at := O.InOrder(S.Doing(job), s, xs);
            && id in at.store.objs
            && (id !in at.failed && DrainLeft(at.store.objs[id], job.node) ==> 0 < at.requeueAfter <= job.cfg.requeue)
  {
    JobAsksBack(job, id);
    JobLeavesAlone(job, id);
    SomeoneAsks(S.Doing(job), s, xs, id, job.node, job.cfg.requeue);
  }

  lemma LoopComesBackFor(job: S.Job, s: S.Store, xs: seq<S.Id>, ids: set<S.Id>, at: O.Progress)
    requires job.ReconcileJob? && 0 < job.cfg.requeue && ids <= s.objs.Keys && O.Lists(xs, ids)
    requires at == O.InOrder(S.Doing(job), s, xs)
    ensures ids <= at.store.objs.Keys
    ensures forall id :: id in ids && id !in at.failed && DrainLeft(at.store.objs[id], job.node) ==>
              0 < at.requeueAfter <= job.cfg.requeue
  {
    forall id | id in ids
      ensures id in at.store.objs
      ensures id !in at.failed && DrainLeft(at.store.objs[id], job.node) ==> 0 < at.requeueAfter <= job.cfg.requeue
    {
      LoopComesBack(job, s, xs, id);
    }
  }

  // ---------- Lifetimes by timers alone ----------

  /** What the reconcile of event i returned. */
  function Returned(cfg: Config, ws: seq<World>, es: seq<Event>, i: nat): Result
    requires i < |es| < |ws| && es[i].Controller?
  {
    Execute(ws[i], PlanOf(cfg, ws[i].obj, es[i].action), es[i].fates).result
  }

  /**
   The reconciles follow each other by their timers: each that asks for a positive time is followed by
   the next within that time, and the last asks for none. None fails.
   */
  ghost predicate ByTimers(cfg: Config, ws: seq<World>, es: seq<Event>, times: seq<int>, ticks: seq<nat>)
    requires |ws| == |es| + 1 && |times| == |es|
  {
    && ticks != []
    && (forall q :: 0 <= q < |ticks| ==> ticks[q] < |es| && es[ticks[q]].Controller?)
    && (forall q :: 0 < q < |ticks| ==> ticks[q - 1] < ticks[q])
    && (forall q :: 0 <= q < |ticks| ==> Returned(cfg, ws, es, ticks[q]).Requeue?)
    && (forall q :: 0 < q < |ticks| && Returned(cfg, ws, es, ticks[q - 1]).after > 0 ==>
          times[ticks[q]] <= times[ticks[q - 1]] + Returned(cfg, ws, es, ticks[q - 1]).after)
    && Returned(cfg, ws, es, ticks[|ticks| - 1]).after <= 0
  }

  lemma {:induction false} TicksGrow(ticks: seq<nat>, p: nat, q: nat)
    requires p <= q < |ticks| && forall k :: 0 < k < |ticks| ==> ticks[k - 1] < ticks[k]
    ensures ticks[p] <= ticks[q] && (p < q ==> ticks[p] < ticks[q])
  {
    if p < q {
      TicksGrow(ticks, p, q - 1);
    }
  }

  /** What is known of tick number q if the drain is still on record after it. */
  lemma TickOnRecord(cfg: Config, ws: seq<World>, es: seq<Event>, times: seq<int>, s: nat, ticks: seq<nat>, q: nat)
    requires 0 < cfg.readinessTimeout && 3 * cfg.readinessTimeout <= MAX64 && 0 < cfg.requeue
    requires FreshRun(cfg, ws, es) && Clocked(es, times) && ByTimers(cfg, ws, es, times, ticks)
    requires ticks[0] == s && ws[s].obj.drain == Idle && ws[s + 1].obj.drain != Idle
    requires forall k :: 0 < k < |ticks| ==> DrainTick(es[ticks[k]], ws[s + 1].obj.node)
    requires q < |ticks| && OneDrain(ws, s + 1, ticks[q] + 1)
    ensures Returned(cfg, ws, es, ticks[q]) == Requeue(cfg.requeue)
    ensures times[ticks[q]] <= times[s] + cfg.readinessTimeout
  {
    var p := ticks[q];
    RunLinked(cfg, ws, es, s);
    RunLinked(cfg, ws, es, p);
    TicksGrow(ticks, 0, q);
    DrainIsOwned(cfg, ws, es, s + 1, p + 1);
    var a := es[p].action;
    assert Next(cfg, ws[p], es[p], ws[p + 1]);
    DrainComesBack(cfg, ws[p], a.node, a.d, es[p].fates);
    if q > 0 {
      TicksGrow(ticks, 0, q);
      DrainIsOwned(cfg, ws, es, s + 1, p);
      DrainTickInTime(cfg, ws[p], es[p], ws[p + 1]);
      TimedOutMeansLate(cfg.readinessTimeout, ws[p].obj.start.value, times[p]);
    }
  }

  /** The first tick after which the drain is no longer on record, by number. */
  lemma {:induction false} FirstGone(cfg: Config, ws: seq<World>, es: seq<Event>, times: seq<int>, s: nat,
                                     ticks: seq<nat>,
                                     n: nat) returns (q: nat)
    requires 0 < cfg.readinessTimeout && 3 * cfg.readinessTimeout <= MAX64 && 0 < cfg.requeue
    requires FreshRun(cfg, ws, es) && Clocked(es, times) && ByTimers(cfg, ws, es, times, ticks)
    requires ticks[0] == s && ws[s].obj.drain == Idle && ws[s + 1].obj.drain != Idle
    requires forall k :: 0 < k < |ticks| ==> DrainTick(es[ticks[k]], ws[s + 1].obj.node)
    requires n < |ticks| && OneDrain(ws, s + 1, ticks[n] + 1)
    ensures n < q < |ticks| && !OneDrain(ws, s + 1, ticks[q] + 1)
    ensures times[ticks[q]] <= times[s] + cfg.readinessTimeout + cfg.requeue
    decreases |ticks| - n
  {
    TickOnRecord(cfg, ws, es, times, s, ticks, n);
    q := n + 1;
    TicksGrow(ticks, 0, q);
    if OneDrain(ws, s + 1, ticks[q] + 1) {
      q := FirstGone(cfg, ws, es, times, s, ticks, q);
    }
  }

  /**
   A drain ends by its own timers: it starts with a reconcile, and every reconcile of its node is followed
   by the next within the time that it asked for, until one asks for none. If they succeed, some state
   within readiness timeout plus requeue interval of the start has no owned annotation. That they keep
   coming is not assumed; it is what the reconciles ask for.
   */
  lemma DrainEndsByItsTimers(cfg: Config, ws: seq<World>, es: seq<Event>, times: seq<int>, s: nat, ticks: seq<nat>)
    returns (k: nat)
    requires 0 < cfg.readinessTimeout && 3 * cfg.readinessTimeout <= MAX64 && 0 < cfg.requeue
    requires FreshRun(cfg, ws, es) && Clocked(es, times) && ByTimers(cfg, ws, es, times, ticks)
    requires ticks[0] == s && ws[s].obj.drain == Idle && ws[s + 1].obj.drain != Idle
    requires forall q :: 0 < q < |ticks| ==> DrainTick(es[ticks[q]], ws[s + 1].obj.node)
    ensures s < k < |ws| && NoOwnedKeys(ws[k].obj)
    ensures times[k - 1] <= times[s] + cfg.readinessTimeout + cfg.requeue
  {
    var q := FirstGone(cfg, ws, es, times, s, ticks, 0);
    TicksGrow(ticks, 0, q);
    var j :| s + 1 <= j <= ticks[q] + 1 && ws[j].obj.drain == Idle;
    k := DrainEnd(ws, s + 1, j);
    assert times[k - 1] <= times[ticks[q]];
    DrainEndsClean(cfg, ws, es, k - 1);
  }

  /** The same of a restart-surge, while no drain is on record. */
  lemma RestartTickOnRecord(cfg: Config, ws: seq<World>, es: seq<Event>, times: seq<int>, s: nat, ticks: seq<nat>,
                            q: nat)
    requires 0 < cfg.restartTimeout && 3 * cfg.restartTimeout <= MAX64 && 0 < cfg.requeue
    requires FreshRun(cfg, ws, es) && Clocked(es, times) && ByTimers(cfg, ws, es, times, ticks)
    requires ticks[0] == s && ws[s].obj.restart == Idle && ws[s + 1].obj.restart != Idle
    requires forall k :: 0 < k < |ticks| ==> RestartTick(es[ticks[k]])
    requires forall k :: s < k < |ws| ==> ws[k].obj.drain == Idle
    requires q < |ticks| && OneRestart(ws, s + 1, ticks[q] + 1)
    ensures Returned(cfg, ws, es, ticks[q]) == Requeue(cfg.requeue)
    ensures times[ticks[q]] <= times[s] + cfg.restartTimeout
  {
    var p := ticks[q];
    RunLinked(cfg, ws, es, s);
    RunLinked(cfg, ws, es, p);
    TicksGrow(ticks, 0, q);
    assert Next(cfg, ws[p], es[p], ws[p + 1]);
    RestartComesBack(cfg, ws[p], es[p].action.r, es[p].fates);
    if q > 0 {
      RestartStartKept(cfg, ws, es, s + 1, p);
      if TimedOut(cfg.restartTimeout, ws[p].obj.restartStart.value, times[p]) {
        LateRestartTick(cfg, ws[p], es[p], ws[p + 1]);
      }
      TimedOutMeansLate(cfg.restartTimeout, ws[p].obj.restartStart.value, times[p]);
    }
  }

  lemma {:induction false} RestartFirstGone(cfg: Config, ws: seq<World>, es: seq<Event>, times: seq<int>, s: nat,
                                            ticks: seq<nat>, n: nat) returns (q: nat)
    requires 0 < cfg.restartTimeout && 3 * cfg.restartTimeout <= MAX64 && 0 < cfg.requeue
    requires FreshRun(cfg, ws, es) && Clocked(es, times) && ByTimers(cfg, ws, es, times, ticks)
    requires ticks[0] == s && ws[s].obj.restart == Idle && ws[s + 1].obj.restart != Idle
    requires forall k :: 0 < k < |ticks| ==> RestartTick(es[ticks[k]])
    requires forall k :: s < k < |ws| ==> ws[k].obj.drain == Idle
    requires n < |ticks| && OneRestart(ws, s + 1, ticks[n] + 1)
    ensures n < q < |ticks| && !OneRestart(ws, s + 1, ticks[q] + 1)
    ensures times[ticks[q]] <= times[s] + cfg.restartTimeout + cfg.requeue
    decreases |ticks| - n
  {
    RestartTickOnRecord(cfg, ws, es, times, s, ticks, n);
    q := n + 1;
    TicksGrow(ticks, 0, q);
    if OneRestart(ws, s + 1, ticks[q] + 1) {
      q := RestartFirstGone(cfg, ws, es, times, s, ticks, q);
    }
  }

  /** A restart-surge ends by its own timers, as long as no drain comes in between. */
  lemma RestartEndsByItsTimers(cfg: Config, ws: seq<World>, es: seq<Event>, times: seq<int>, s: nat, ticks: seq<nat>)
    returns (k: nat)
    requires 0 < cfg.restartTimeout && 3 * cfg.restartTimeout <= MAX64 && 0 < cfg.requeue
    requires FreshRun(cfg, ws, es) && Clocked(es, times) && ByTimers(cfg, ws, es, times, ticks)
    requires ticks[0] == s && ws[s].obj.restart == Idle && ws[s + 1].obj.restart != Idle
    requires forall q :: 0 < q < |ticks| ==> RestartTick(es[ticks[q]])
    requires forall j :: s < j < |ws| ==> ws[j].obj.drain == Idle
    ensures s < k < |ws| && NoOwnedKeys(ws[k].obj)
    ensures times[k - 1] <= times[s] + cfg.restartTimeout + cfg.requeue
  {
    var q := RestartFirstGone(cfg, ws, es, times, s, ticks, 0);
    TicksGrow(ticks, 0, q);
    var j :| s + 1 <= j <= ticks[q] + 1 && ws[j].obj.restart == Idle;
    k := RestartEnd(ws, s + 1, j);
    assert times[k - 1] <= times[ticks[q]];
    RunLinked(cfg, ws, es, k - 1);
  }
}
