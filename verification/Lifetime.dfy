/** How long an operation can last, and how early it can be cut off. */
module Lifetime {
  import opened Base
  import opened Surge
  import opened Inputs
  import opened DM = DrainMachine
  import opened RM = RestartMachine
  import opened Joint
  import opened Ownership

  /**
   The two timeout comparisons amount to one, elapsed more than the timeout, exactly when three
   timeouts do not wrap around to less than one timeout.
   */
  lemma TimeoutIsOneComparison(timeout: int)
    requires 0 < timeout <= MAX64
    ensures (forall start, now :: TimedOut(timeout, start, now) <==> Clamp64(now - start) > timeout)
            <==> Wrap64(3 * timeout) >= timeout
  {
    if Wrap64(3 * timeout) < timeout {
      var t := timeout;
      assert TimedOut(timeout, 0, t) && !(Clamp64(t - 0) > timeout);
    }
  }

  /** In any case an operation is timed out exactly beyond the lesser of one timeout and three, as an int64 has them. */
  lemma TimedOutBeyondTheLesser(timeout: int, start: int, now: int)
    requires 0 < timeout <= MAX64
    ensures TimedOut(timeout, start, now) <==>
            Clamp64(now - start) > if Wrap64(3 * timeout) < timeout then Wrap64(3 * timeout) else timeout
  {
  }

  /** With such a timeout an operation is aborted at once exactly when three timeouts wrap around to less than zero. */
  lemma AbortsAtOnce(timeout: int)
    requires 0 < timeout <= MAX64
    ensures (forall start :: TimedOut(timeout, start, start)) <==> Wrap64(3 * timeout) < 0
  {
    assert TimedOut(timeout, 0, 0) <==> Wrap64(3 * timeout) < 0;
  }

  /** For a timeout of which three fit into an int64, it is simply the time since the start. */
  lemma TimedOutMeansLate(timeout: int, start: int, now: int)
    requires 0 < timeout && 3 * timeout <= MAX64
    ensures TimedOut(timeout, start, now) <==> now - start > timeout
  {
  }

  /** When an event that is a reconcile takes place. */
  function Time(e: Event): int
    requires e.Controller? && (e.action.DrainReconcile? || e.action.RestartReconcile?)
  {
    if e.action.DrainReconcile? then e.action.d.now else e.action.r.now
  }

  /** A reconcile of the node, all of whose writes succeed. */
  predicate DrainTick(e: Event, node: Value) {
    e.Controller? && e.action.DrainReconcile? && Text(e.action.node) == node && e.fates == ALL_FINE
  }

  /** A reconcile of the Rollout, all of whose writes succeed. */
  predicate RestartTick(e: Event) {
    e.Controller? && e.action.RestartReconcile? && e.fates == ALL_FINE
  }

  /** An abort all of whose writes succeed saves what it means to. */
  lemma AbortSucceeds(w: World, plan: Plan, o': Obj)
    requires plan.steps == RestoreSteps(w.obj, false) + [Save(o')]
    ensures Execute(w, plan, ALL_FINE).world.obj == o'
  {
    if RestoreSteps(w.obj, false) == [] {
      assert plan.steps == [Save(o')];
      ExecuteOne(w, Save(o'), plan.result, ALL_FINE);
    } else {
      var x := RestoreSteps(w.obj, false)[0];
      assert plan.steps == [x, Save(o')];
      assert plan.steps[1..] == [Save(o')];
      ExecuteOne(Land(w, x.write), Save(o'), plan.result, ALL_FINE[1..]);
    }
  }

  /**
   A successful reconcile of the recorded node that leaves the drain in place came in time, and none
   leaves a done one.
   */
  lemma DrainTickInTime(cfg: Config, w: World, e: Event, w': World)
    requires WellFormed(w.obj) && w.obj.drain != Idle && Next(cfg, w, e, w') && DrainTick(e, w.obj.node)
    ensures w'.obj.drain != Idle ==> !TimedOut(cfg.readinessTimeout, w.obj.start.value, e.action.d.now)
    ensures w.obj.drain == Done ==> w'.obj.drain == Idle
  {
    var o, plan := w.obj, PlanOf(cfg, w.obj, e.action);
    if DrainOverdue(cfg, o, e.action.d.now) {
      AbortSucceeds(w, plan, ClearAll(BackToOriginal(o)));
    } else if o.drain == Done {
      ExecuteOne(w, Save(ClearAll(o)), plan.result, ALL_FINE);
    }
  }

  /**
   Lifetime bound: a drain starts with event s. As long as it has not ended, every later event i is at
   most one requeue interval after some successful reconcile of the drain's node. Then no event that
   still finds the drain comes later than readiness timeout plus requeue interval after the start.
   */
  lemma DrainEndsInTime(cfg: Config, ws: seq<World>, es: seq<Event>, times: seq<int>, s: nat, i: nat, p: nat)
    requires 0 < cfg.readinessTimeout && 3 * cfg.readinessTimeout <= MAX64 && 0 < cfg.requeue
    requires FreshRun(cfg, ws, es) && |times| == |es|
    requires forall k :: 0 <= k < |es| && es[k].Controller? && es[k].action.DrainReconcile? ==> times[k] == Time(es[k])
    requires s < |es| && ws[s].obj.drain == Idle && OneDrain(ws, s + 1, i) && i < |es|
    requires s <= p < i && DrainTick(es[p], ws[i].obj.node) && times[i] <= times[p] + cfg.requeue
    ensures times[i] <= times[s] + cfg.readinessTimeout + cfg.requeue
  {
    RunLinked(cfg, ws, es, s);
    DrainIsOwned(cfg, ws, es, s + 1, i);
    if p > s {
      RunLinked(cfg, ws, es, p);
      DrainIsOwned(cfg, ws, es, s + 1, p);
      DrainTickInTime(cfg, ws[p], es[p], ws[p + 1]);
      TimedOutMeansLate(cfg.readinessTimeout, ws[p].obj.start.value, times[p]);
    }
  }

  /** Events happen at these times, in order. */
  predicate Clocked(es: seq<Event>, times: seq<int>) {
    && |times| == |es|
    && (forall k :: 0 <= k < |es| && es[k].Controller?
                    && (es[k].action.DrainReconcile? || es[k].action.RestartReconcile?) ==>
          times[k] == Time(es[k]))
    && (forall j, k :: 0 <= j <= k < |es| ==> times[j] <= times[k])
  }

  /** Events that begin with s, each at most a requeue interval after the one before. */
  predicate Paced(cfg: Config, times: seq<int>, ticks: seq<nat>, s: nat) {
    && ticks != [] && ticks[0] == s
    && (forall k :: 0 <= k < |ticks| ==> ticks[k] < |times|)
    && (forall k :: 0 < k < |ticks| ==> ticks[k - 1] < ticks[k] && times[ticks[k]] <= times[ticks[k - 1]] + cfg.requeue)
  }

  /** The first of paced events that is later than t is at most a requeue interval later. */
  lemma {:induction false} FirstLate(cfg: Config, times: seq<int>, ticks: seq<nat>, s: nat, t: int) returns (q: nat)
    requires Paced(cfg, times, ticks, s) && times[s] <= t < times[ticks[|ticks| - 1]]
    ensures 0 < q < |ticks| && t < times[ticks[q]] <= t + cfg.requeue
    decreases |ticks|
  {
    q := |ticks| - 1;
    var front := ticks[..q];
    if times[ticks[q - 1]] > t {
      assert front[|front| - 1] == ticks[q - 1];
      q := FirstLate(cfg, times, front, s, t);
    }
  }

  /** Paced events go up. */
  lemma {:induction false} PacedGrows(cfg: Config, times: seq<int>, ticks: seq<nat>, s: nat, q: nat)
    requires Paced(cfg, times, ticks, s) && 0 < q < |ticks|
    ensures s < ticks[q]
  {
    if q > 1 {
      PacedGrows(cfg, times, ticks, s, q - 1);
    }
  }

  /** The end of a drain that is no longer there: the state right after its last. */
  lemma {:induction false} DrainEnd(ws: seq<World>, s: nat, j: nat) returns (k: nat)
    requires s < j < |ws| && ws[s].obj.drain != Idle && ws[j].obj.drain == Idle
    ensures s < k <= j && ws[k].obj.drain == Idle && OneDrain(ws, s, k - 1)
    decreases j - s
  {
    if ws[s + 1].obj.drain == Idle {
      k := s + 1;
    } else {
      k := DrainEnd(ws, s + 1, j);
    }
  }

  /**
   Lifetime bound over a whole run: a drain starts with event s, and successful reconciles of its node
   follow, at most a requeue interval apart, until after the readiness timeout. Then some state k that
   is reached within readiness timeout plus requeue interval of the start has no owned annotation.
   */
  lemma DrainIsClearedInTime(cfg: Config, ws: seq<World>, es: seq<Event>, times: seq<int>, s: nat, ticks: seq<nat>)
    returns (k: nat)
    requires 0 < cfg.readinessTimeout && 3 * cfg.readinessTimeout <= MAX64
    requires FreshRun(cfg, ws, es) && Clocked(es, times)
    requires s < |es| && ws[s].obj.drain == Idle && ws[s + 1].obj.drain != Idle
    requires Paced(cfg, times, ticks, s) && forall q :: 0 < q < |ticks| ==> DrainTick(es[ticks[q]], ws[s + 1].obj.node)
    requires times[ticks[|ticks| - 1]] > times[s] + cfg.readinessTimeout
    ensures s < k < |ws| && NoOwnedKeys(ws[k].obj)
    ensures times[k - 1] <= times[s] + cfg.readinessTimeout + cfg.requeue
  {
    RunLinked(cfg, ws, es, s);
    var deadline := ws[s + 1].obj.start.value + cfg.readinessTimeout;
    var q := FirstLate(cfg, times, ticks, s, if deadline < times[s] then times[s] else deadline);
    PacedGrows(cfg, times, ticks, s, q);
    var p := ticks[q];
    if j :| s + 1 < j <= p && ws[j].obj.drain == Idle {
      k := DrainEnd(ws, s + 1, j);
    } else {
      DrainIsOwned(cfg, ws, es, s + 1, p);
      RunLinked(cfg, ws, es, p);
      DrainTickInTime(cfg, ws[p], es[p], ws[p + 1]);
      TimedOutMeansLate(cfg.readinessTimeout, ws[p].obj.start.value, times[p]);
      k := p + 1;
    }
    DrainEndsClean(cfg, ws, es, k - 1);
  }

  /** The drain that starts with event s is timed out by event i no earlier than the timeout less one second. */
  lemma DrainNotCutShort(cfg: Config, ws: seq<World>, es: seq<Event>, s: nat, i: nat)
    requires 0 < cfg.readinessTimeout && 3 * cfg.readinessTimeout <= MAX64
    requires FreshRun(cfg, ws, es)
    requires s < |es| && ws[s].obj.drain == Idle && OneDrain(ws, s + 1, i) && i < |es|
    requires es[i].Controller? && es[i].action.DrainReconcile? && DrainOverdue(cfg, ws[i].obj, Time(es[i]))
    ensures es[s].Controller? && es[s].action.DrainReconcile?
    ensures Time(es[i]) - Time(es[s]) > cfg.readinessTimeout - SECOND
  {
    RunLinked(cfg, ws, es, s);
    DrainIsOwned(cfg, ws, es, s + 1, i);
    TimedOutMeansLate(cfg.readinessTimeout, ws[i].obj.start.value, Time(es[i]));
  }

  // ---------- Restart-surge ----------

  lemma {:induction false} RestartStartKept(cfg: Config, ws: seq<World>, es: seq<Event>, i: nat, j: nat)
    requires FreshRun(cfg, ws, es) && OneRestart(ws, i, j)
    ensures ws[j].obj.restartStart == ws[i].obj.restartStart
  {
    if i < j {
      RestartStartKept(cfg, ws, es, i, j - 1);
      RunLinked(cfg, ws, es, j - 1);
    }
  }

  /**
   A successful reconcile past the deadline ends the restart-surge, with one exception: an operation
   that is done stays parked for as long as a drain is in progress.
   */
  lemma LateRestartTick(cfg: Config, w: World, e: Event, w': World)
    requires WellFormed(w.obj) && w.obj.restart != Idle && Next(cfg, w, e, w') && RestartTick(e)
    requires TimedOut(cfg.restartTimeout, w.obj.restartStart.value, e.action.r.now)
    ensures w'.obj.restart != Idle <==> (w.obj.restart == Done && w.obj.drain != Idle)
    ensures w'.obj.restart != Idle ==> w' == w
  {
    var o, plan := w.obj, PlanOf(cfg, w.obj, e.action);
    if RestartOverdue(cfg, o, e.action.r.now) {
      AbortSucceeds(w, plan, ClearRestart(BackToOriginal(o)));
    } else if o.drain == Idle {
      ExecuteOne(w, Save(ClearRestart(o)), plan.result, ALL_FINE);
    }
  }

  /**
   Lifetime bound of a restart-surge that starts with event s: as long as every later event i is at
   most one requeue interval after some successful reconcile p, the operation is over within its
   timeout plus one interval, or reconcile p found it done and waiting for a drain to finish.
   */
  lemma RestartEndsInTime(cfg: Config, ws: seq<World>, es: seq<Event>, times: seq<int>, s: nat, i: nat, p: nat)
    requires 0 < cfg.restartTimeout && 3 * cfg.restartTimeout <= MAX64 && 0 < cfg.requeue
    requires FreshRun(cfg, ws, es) && |times| == |es|
    requires forall k :: 0 <= k < |es| && es[k].Controller? && es[k].action.RestartReconcile? ==>
             times[k] == Time(es[k])
    requires s < |es| && ws[s].obj.restart == Idle && OneRestart(ws, s + 1, i) && i < |es|
    requires s <= p < i && RestartTick(es[p]) && times[i] <= times[p] + cfg.requeue
    ensures || times[i] <= times[s] + cfg.restartTimeout + cfg.requeue
            || (ws[p].obj.restart == Done && ws[p].obj.drain != Idle)
  {
    RunLinked(cfg, ws, es, s);
    if p > s {
      RunLinked(cfg, ws, es, p);
      RestartStartKept(cfg, ws, es, s + 1, p);
      TimedOutMeansLate(cfg.restartTimeout, ws[p].obj.restartStart.value, times[p]);
      if times[p] - ws[p].obj.restartStart.value > cfg.restartTimeout {
        LateRestartTick(cfg, ws[p], es[p], ws[p + 1]);
      }
    }
  }

  /** The end of a restart-surge that is no longer there. */
  lemma {:induction false} RestartEnd(ws: seq<World>, s: nat, j: nat) returns (k: nat)
    requires s < j < |ws| && ws[s].obj.restart != Idle && ws[j].obj.restart == Idle
    ensures s < k <= j && ws[k].obj.restart == Idle && OneRestart(ws, s, k - 1)
    decreases j - s
  {
    if ws[s + 1].obj.restart == Idle {
      k := s + 1;
    } else {
      k := RestartEnd(ws, s + 1, j);
    }
  }

  /**
   The whole-run bound of a restart-surge: with successful reconciles at most a requeue interval apart
   until after its timeout, some state k reached within timeout plus requeue interval has it ended, and
   without a drain in progress has no owned annotation; or some reconcile in that time finds it done
   and waiting for a drain.
   */
  lemma RestartIsClearedInTime(cfg: Config, ws: seq<World>, es: seq<Event>, times: seq<int>, s: nat, ticks: seq<nat>)
    returns (k: nat)
    requires 0 < cfg.restartTimeout && 3 * cfg.restartTimeout <= MAX64
    requires FreshRun(cfg, ws, es) && Clocked(es, times)
    requires s < |es| && ws[s].obj.restart == Idle && ws[s + 1].obj.restart != Idle
    requires Paced(cfg, times, ticks, s) && forall q :: 0 < q < |ticks| ==> RestartTick(es[ticks[q]])
    requires times[ticks[|ticks| - 1]] > times[s] + cfg.restartTimeout
    ensures s < k < |ws| && times[k - 1] <= times[s] + cfg.restartTimeout + cfg.requeue
    ensures || (ws[k].obj.restart == Idle && (ws[k].obj.drain == Idle ==> NoOwnedKeys(ws[k].obj)))
            || (k - 1 in ticks && ws[k].obj.restart == Done && ws[k].obj.drain != Idle)
  {
    RunLinked(cfg, ws, es, s);
    var deadline := ws[s + 1].obj.restartStart.value + cfg.restartTimeout;
    var q := FirstLate(cfg, times, ticks, s, if deadline < times[s] then times[s] else deadline);
    PacedGrows(cfg, times, ticks, s, q);
    var p := ticks[q];
    if j :| s + 1 < j <= p && ws[j].obj.restart == Idle {
      k := RestartEnd(ws, s + 1, j);
    } else {
      RestartStartKept(cfg, ws, es, s + 1, p);
      RunWellFormed(cfg, ws, es, p);
      TimedOutMeansLate(cfg.restartTimeout, ws[p].obj.restartStart.value, times[p]);
      assert Next(cfg, ws[p], es[p], ws[p + 1]);
      LateRestartTick(cfg, ws[p], es[p], ws[p + 1]);
      k := p + 1;
    }
    RunLinked(cfg, ws, es, k - 1);
  }

  /** The restart-surge that starts with event s is timed out no earlier than its timeout less one second. */
  lemma RestartNotCutShort(cfg: Config, ws: seq<World>, es: seq<Event>, s: nat, i: nat)
    requires 0 < cfg.restartTimeout && 3 * cfg.restartTimeout <= MAX64
    requires FreshRun(cfg, ws, es)
    requires s < |es| && ws[s].obj.restart == Idle && OneRestart(ws, s + 1, i) && i < |es|
    requires es[i].Controller? && es[i].action.RestartReconcile? && RestartOverdue(cfg, ws[i].obj, Time(es[i]))
    ensures es[s].Controller? && es[s].action.RestartReconcile?
    ensures Time(es[i]) - Time(es[s]) > cfg.restartTimeout - SECOND
  {
    RunLinked(cfg, ws, es, s);
    RestartStartKept(cfg, ws, es, s + 1, i);
    TimedOutMeansLate(cfg.restartTimeout, ws[i].obj.restartStart.value, Time(es[i]));
  }

  /**
   What an abort of the restart-surge, by its timeout or by the orphan scan, does to a drain in
   scaled-up or draining: it takes the original replica count away from it, so the drain's own next
   reconcile, too, ends in an abort.
   */
  lemma RestartAbortEndsDrain(cfg: Config, w: World, a: Action, w1: World, b: Action, w2: World)
    requires AbortsRestart(cfg, w.obj, a) && w.obj.original.Some?
    requires w1 == Execute(w, PlanOf(cfg, w.obj, a), ALL_FINE).world
    requires w.obj.drain == ScaledUp || w.obj.drain == Draining
    requires b.DrainReconcile? && Text(b.node) == w.obj.node
    requires w2 == Execute(w1, PlanOf(cfg, w1.obj, b), ALL_FINE).world
    ensures w1.obj.drain == w.obj.drain && w1.obj.original.None?
    ensures NoOwnedKeys(w2.obj) && w2.obj.replicas == w.obj.original.value
  {
    AbortSucceeds(w, PlanOf(cfg, w.obj, a), ClearRestart(BackToOriginal(w.obj)));
    assert PlanOf(cfg, w1.obj, b) == DrainAbort(w1.obj);
    AbortSucceeds(w1, DrainAbort(w1.obj), ClearAll(w1.obj));
  }

  /**
   What it does to a drain in `ready`: replicas go back to the original at once, the record is gone
   and nothing re-applies the surge. Until its timeout the drain's own reconcile then changes nothing
   while the pods cannot be read or one is live on the node, and aborts as soon as none is.
   */
  lemma RestartAbortStrandsReady(cfg: Config, w: World, a: Action, w1: World, b: Action, w2: World)
    requires AbortsRestart(cfg, w.obj, a) && w.obj.original.Some?
    requires w1 == Execute(w, PlanOf(cfg, w.obj, a), ALL_FINE).world
    requires w.obj.drain == Ready
    requires b.DrainReconcile? && Text(b.node) == w.obj.node
    requires w2 == Execute(w1, PlanOf(cfg, w1.obj, b), ALL_FINE).world
    ensures w1.obj.drain == Ready && w1.obj.replicas == w.obj.original.value
    ensures w1.obj.original.None? && w1.obj.hpaName == EMPTY && w1.obj.restart == Idle
    ensures if !DrainOverdue(cfg, w1.obj, b.d.now) && (b.d.pods.ReadError? || LivePodOn(b.d.pods.value, b.node))
            then w2 == w1
            else NoOwnedKeys(w2.obj) && w2.obj.replicas == w.obj.original.value
  {
    AbortSucceeds(w, PlanOf(cfg, w.obj, a), ClearRestart(BackToOriginal(w.obj)));
    var plan := PlanOf(cfg, w1.obj, b);
    if plan.steps != [] {
      assert plan.steps == RestoreSteps(w1.obj, false) + [Save(ClearAll(w1.obj))];
      AbortSucceeds(w1, plan, ClearAll(w1.obj));
    }
  }
}
