/**
 Both machines refine one abstract surge machine, and what that gives over whole atomic runs:
 a drain belongs to its node, it scales down only with cause, and the two operations exclude
 each other or hand over.
 */
module Ownership {
  import opened Base
  import opened Surge
  import opened Inputs
  import opened RestartDetect
  import opened DM = DrainMachine
  import opened RM = RestartMachine
  import opened Joint
  import NL = NoLeak

  // ---------- The abstract machine ----------

  function Rank(s: State): nat {
    match s
    case Idle => 0
    case Pending => 0
    case ScaledUp => 1
    case Ready => 2
    case Draining => 3
    case Done => 4
    case Unknown => 0
  }

  /** Idle, surged, ready, draining, done: stay, go one further, or go back to idle. */
  predicate SurgeStep(s: State, s': State) {
    s' == s || s' == Idle || (s' != Pending && s' != Unknown && Rank(s') == Rank(s) + 1)
  }

  /** A state that the controller can have written. */
  predicate Written(s: State) { s != Pending && s != Unknown }

  /** What holds of the annotations in every state of a run. */
  predicate WellFormed(o: Obj) {
    && Written(o.drain)
    && Written(o.restart)
    && (o.drain == Idle ==> o.node == EMPTY && o.start.None?)
    && (o.drain != Idle ==> o.node != EMPTY && o.start.Some?)
    && (o.restart != Idle ==> o.restartStart.Some?)
  }

  /** How one saved write can change the drain, and by whose hand. */
  predicate DrainMove(cfg: Config, o: Obj, a: Action, o': Obj) {
    if o.drain == Idle && o'.drain != Idle then
      && a.DrainReconcile?
      && ShouldProcess(o, a.node, a.d)
      && a.d.pdb == Got(true)
      && o'.drain == ScaledUp
      && o'.node == Text(a.node)
      && o'.start == Some(TruncateToSecond(a.d.now))
    else if o'.drain == Idle then
      o.drain != Idle ==> NoOwnedKeys(o')
    else
      && o'.node == o.node
      && o'.start == o.start
      && (o'.drain != o.drain ==>
            && a.DrainReconcile?
            && Text(a.node) == o.node
            && !DrainOverdue(cfg, o, a.d.now)
            && Rank(o'.drain) == Rank(o.drain) + 1
            && (o'.drain == Ready ==> a.d.pods.Got? && ReadyElsewhere(a.d.pods.value, a.node))
            && (o'.drain == Draining ==> a.d.pods.Got? && !LivePodOn(a.d.pods.value, a.node)))
  }

  /** What handleRestartWaitForArgo waits for. */
  predicate ArgoIsThrough(x: RestartInputs) {
    CaughtUp(x.ro) || (x.pods.Got? && RestartCompleted(x.ro, x.pods.value))
  }

  /** How one saved write can change the restart-surge: only while no drain is in progress, except to end it. */
  predicate RestartMove(cfg: Config, o: Obj, a: Action, o': Obj) {
    if o.restart == Idle && o'.restart != Idle then
      && a.RestartReconcile?
      && o.drain == Idle
      && o.replicas == 1
      && a.r.enabled
      && a.r.pods.Got? && IsRestartStuck(a.r.ro, a.r.pods.value, cfg.grace, a.r.now) && IsStableForRestart(a.r.ro)
      && a.r.pdb == Got(true)
      && o'.restart == ScaledUp
      && o'.restartStart == Some(TruncateToSecond(a.r.now))
    else if o'.restart != Idle then
      && o'.restartStart == o.restartStart
      && (o'.restart != o.restart ==>
            && a.RestartReconcile?
            && o.drain == Idle
            && !RestartOverdue(cfg, o, a.r.now)
            && Rank(o'.restart) == Rank(o.restart) + 1
            && (o'.restart == Ready ==> a.r.pods.Got? && ReadyCount(a.r.pods.value) >= 2)
            && (o'.restart == Draining ==> ArgoIsThrough(a.r)))
    else
      o.restart != Idle && o'.drain == Idle ==> NoOwnedKeys(o')
  }

  /** What every saved write does to both operations. */
  predicate Moves(cfg: Config, o: Obj, a: Action, o': Obj) {
    WellFormed(o') && DrainMove(cfg, o, a, o') && RestartMove(cfg, o, a, o')
  }

  /** A plan that restores and then saves, saves nothing else. */
  lemma RestoreSaves(o: Obj, required: bool, rest: seq<Step>, r: Result, o': Obj)
    requires Saves(Plan(RestoreSteps(o, required) + rest, r), o')
    ensures Saves(Plan(rest, r), o')
  {
  }

  lemma EvictionSaves(cfg: Config, o: Obj, node: string, x: DrainInputs, o': Obj)
    requires Saves(DM.WaitEviction(cfg, o, node, x), o')
    ensures x.pods.Got? && !LivePodOn(x.pods.value, node)
    ensures if o.original.None? then o' == ClearAll(o)
            else o' == o.(replicas := if o.hpaName == EMPTY then o.original.value else o.replicas, drain := Draining)
  {
  }

  lemma StartSaves(cfg: Config, o: Obj, node: string, x: DrainInputs, o': Obj)
    requires Saves(DM.Start(cfg, o, node, x), o')
    ensures x.pdb == Got(true)
    ensures o'.drain == ScaledUp && o'.node == Text(node) && o'.start == Some(TruncateToSecond(x.now))
    ensures o'.restart == o.restart && o'.restartStart == o.restartStart
  {
  }

  lemma DrainSaves(cfg: Config, o: Obj, a: Action, o': Obj)
    requires WellFormed(o) && a.DrainReconcile? && a.node != "" && Saves(PlanOf(cfg, o, a), o')
    ensures Moves(cfg, o, a, o')
  {
    var plan := DM.DrainPlan(cfg, o, a.node, a.d);
    if plan == DrainAbort(o) {
      RestoreSaves(o, false, [Save(ClearAll(BackToOriginal(o)))], plan.result, o');
    } else if o.drain == Ready {
      EvictionSaves(cfg, o, a.node, a.d, o');
    } else if o.drain == Idle {
      StartSaves(cfg, o, a.node, a.d, o');
    }
  }

  lemma ArgoSaves(cfg: Config, o: Obj, x: RestartInputs, o': Obj)
    requires Saves(RM.WaitForArgo(cfg, o, x), o')
    ensures ArgoIsThrough(x)
    ensures if o.original.None? then o' == ClearRestart(o)
            else o' == o.(replicas := if o.hpaName == EMPTY then o.original.value else o.replicas, restart := Draining)
  {
  }

  lemma RestartSaves(cfg: Config, o: Obj, a: Action, o': Obj)
    requires WellFormed(o) && a.RestartReconcile? && Saves(PlanOf(cfg, o, a), o')
    ensures Moves(cfg, o, a, o')
  {
    var plan := RM.RestartPlan(cfg, o, a.r);
    if plan == RestartAbort(o) {
      RestoreSaves(o, false, [Save(ClearRestart(BackToOriginal(o)))], plan.result, o');
    } else if o.drain == Idle && o.restart == Ready {
      ArgoSaves(cfg, o, a.r, o');
    }
  }

  lemma SavedMoves(cfg: Config, o: Obj, a: Action, o': Obj)
    requires WellFormed(o) && ValidNode(a) && Saves(PlanOf(cfg, o, a), o')
    ensures Moves(cfg, o, a, o')
  {
    match a
    case DrainReconcile(_, _) => DrainSaves(cfg, o, a, o');
    case RestartReconcile(_) => RestartSaves(cfg, o, a, o');
    case _ =>
  }

  /** How one event can change the workload. */
  predicate Linked(cfg: Config, o: Obj, e: Event, o': Obj) {
    match e
    case External(n) => o' == o.(replicas := n)
    case Controller(a, _) => o' == o || Moves(cfg, o, a, o')
  }

  lemma StepLinked(cfg: Config, w: World, e: Event, w': World)
    requires WellFormed(w.obj) && Next(cfg, w, e, w')
    ensures WellFormed(w'.obj) && Linked(cfg, w.obj, e, w'.obj)
  {
    if e.Controller? {
      ExecuteObj(w, PlanOf(cfg, w.obj, e.action), e.fates);
      if w'.obj != w.obj {
        SavedMoves(cfg, w.obj, e.action, w'.obj);
      }
    }
  }

  /** An atomic run of the joint machine that starts without owned annotations. */
  predicate FreshRun(cfg: Config, ws: seq<World>, es: seq<Event>) {
    Run(cfg, ws, es) && NoOwnedKeys(ws[0].obj)
  }

  lemma {:induction false} RunWellFormed(cfg: Config, ws: seq<World>, es: seq<Event>, i: nat)
    requires FreshRun(cfg, ws, es) && i < |ws|
    ensures WellFormed(ws[i].obj)
  {
    if i > 0 {
      RunWellFormed(cfg, ws, es, i - 1);
      StepLinked(cfg, ws[i - 1], es[i - 1], ws[i]);
    }
  }

  lemma RunLinked(cfg: Config, ws: seq<World>, es: seq<Event>, i: nat)
    requires FreshRun(cfg, ws, es) && i < |es|
    ensures WellFormed(ws[i].obj) && WellFormed(ws[i + 1].obj) && Linked(cfg, ws[i].obj, es[i], ws[i + 1].obj)
  {
    RunWellFormed(cfg, ws, es, i);
    StepLinked(cfg, ws[i], es[i], ws[i + 1]);
  }

  /**
   Refinement: in every run, with any failures and any outside changes of spec.replicas, both
   state annotations follow the same abstract machine, and neither is ever `pending` or unknown.
   */
  lemma RefinesSurgeMachine(cfg: Config, ws: seq<World>, es: seq<Event>, i: nat)
    requires FreshRun(cfg, ws, es) && i < |es|
    ensures SurgeStep(ws[i].obj.drain, ws[i + 1].obj.drain)
    ensures SurgeStep(ws[i].obj.restart, ws[i + 1].obj.restart)
    ensures Written(ws[i].obj.drain) && Written(ws[i].obj.restart)
  {
    RunLinked(cfg, ws, es, i);
  }

  // ---------- One drain, one node ----------

  /** States i to j belong to one drain operation. */
  predicate OneDrain(ws: seq<World>, i: nat, j: nat) {
    && i <= j < |ws|
    && forall k :: i <= k <= j ==> ws[k].obj.drain != Idle
  }

  /**
   Drain ownership: throughout an operation the recorded node and start time stay what they are, the
   state only moves forward, and only the recorded node's own reconcile moves it.
   */
  lemma {:induction false} DrainIsOwned(cfg: Config, ws: seq<World>, es: seq<Event>, i: nat, j: nat)
    requires FreshRun(cfg, ws, es) && OneDrain(ws, i, j)
    ensures ws[j].obj.node == ws[i].obj.node && ws[j].obj.start == ws[i].obj.start
    ensures Rank(ws[i].obj.drain) <= Rank(ws[j].obj.drain)
    ensures forall k :: i <= k < j && ws[k + 1].obj.drain != ws[k].obj.drain ==>
              es[k].Controller? && es[k].action.DrainReconcile? && Text(es[k].action.node) == ws[i].obj.node
  {
    if i < j {
      DrainIsOwned(cfg, ws, es, i, j - 1);
      RunLinked(cfg, ws, es, j - 1);
    }
  }

  /** In `ready`, some earlier reconcile of the same operation saw the replacement pod. */
  lemma {:induction false} ReadyWasSeen(cfg: Config, ws: seq<World>, es: seq<Event>, i: nat) returns (j: nat)
    requires FreshRun(cfg, ws, es) && i < |ws| && ws[i].obj.drain == Ready
    ensures j < i && OneDrain(ws, j, i)
    ensures SawReplacement(es[j], ws[i].obj.node)
  {
    RunWellFormed(cfg, ws, es, i);
    if i == 0 {
      assert false;
    } else {
      RunLinked(cfg, ws, es, i - 1);
      if ws[i - 1].obj.drain == Ready {
        j := ReadyWasSeen(cfg, ws, es, i - 1);
      } else {
        j := i - 1;
      }
    }
  }

  /** The event is a reconcile of that node which read a Ready, not terminating pod on another node. */
  predicate SawReplacement(e: Event, node: Value) {
    && e.Controller?
    && e.action.DrainReconcile?
    && Text(e.action.node) == node
    && e.action.d.pods.Got?
    && ReadyElsewhere(e.action.d.pods.value, e.action.node)
  }

  /** The event is a reconcile of that node which read no live pod on it. */
  predicate SawNodeEmpty(e: Event, node: Value) {
    && e.Controller?
    && e.action.DrainReconcile?
    && Text(e.action.node) == node
    && e.action.d.pods.Got?
    && !LivePodOn(e.action.d.pods.value, e.action.node)
  }

  /**
   Scale-down is justified: a drain enters `draining` only in a reconcile of its node that finds no
   live pod there, after a reconcile of the same operation that saw a replacement Ready elsewhere.
   */
  lemma ScaleDownIsJustified(cfg: Config, ws: seq<World>, es: seq<Event>, i: nat) returns (j: nat)
    requires FreshRun(cfg, ws, es) && i < |es|
    requires ws[i].obj.drain != Draining && ws[i + 1].obj.drain == Draining
    ensures SawNodeEmpty(es[i], ws[i].obj.node)
    ensures j < i && OneDrain(ws, j, i) && SawReplacement(es[j], ws[i].obj.node)
  {
    RunLinked(cfg, ws, es, i);
    assert ws[i].obj.drain == Ready;
    j := ReadyWasSeen(cfg, ws, es, i);
  }

  /** When a drain ends, however it ends, none of the owned annotations is left. */
  lemma DrainEndsClean(cfg: Config, ws: seq<World>, es: seq<Event>, i: nat)
    requires FreshRun(cfg, ws, es) && i < |es|
    requires ws[i].obj.drain != Idle && ws[i + 1].obj.drain == Idle
    ensures NoOwnedKeys(ws[i + 1].obj)
  {
    RunLinked(cfg, ws, es, i);
  }

  /**
   Opt-in only: as long as no reconcile reads the opt-in annotation as true, the controller never
   changes anything about a workload that has no owned annotations.
   */
  lemma {:induction false} UntouchedWithoutOptIn(cfg: Config, ws: seq<World>, es: seq<Event>, i: nat)
    requires FreshRun(cfg, ws, es) && i < |ws|
    requires forall k :: 0 <= k < |es| && es[k].Controller? ==> NotOptedIn(es[k].action)
    ensures NoOwnedKeys(ws[i].obj) && ws[i].hpa == ws[0].hpa
    ensures i > 0 && es[i - 1].Controller? ==> ws[i] == ws[i - 1]
  {
    if i > 0 {
      UntouchedWithoutOptIn(cfg, ws, es, i - 1);
      assert Next(cfg, ws[i - 1], es[i - 1], ws[i]);
      if es[i - 1].Controller? {
        assert PlanOf(cfg, ws[i - 1].obj, es[i - 1].action).steps == [];
      }
    }
  }

  predicate NotOptedIn(a: Action) {
    (a.DrainReconcile? ==> !a.d.enabled) && (a.RestartReconcile? ==> !a.r.enabled)
  }

  /** Opting out does not stop an operation: exactly a workload with one on record can be written without opt-in. */
  lemma WrittenWithoutOptIn(cfg: Config, o: Obj)
    requires WellFormed(o)
    ensures (exists a :: NotOptedIn(a) && PlanOf(cfg, o, a).steps != []) <==> o.drain != Idle || o.restart != Idle
  {
    if o.drain != Idle {
      assert PlanOf(cfg, o, DrainOrphanScan({})).steps != [];
    } else if o.restart != Idle {
      assert PlanOf(cfg, o, RestartOrphanScan(Rollout(Healthy, "", None, None))).steps != [];
    }
  }

  /**
   The surge is re-applied after replicas were reset from outside exactly before `ready`: in `ready`
   and later a drain leaves them alone.
   */
  lemma ReappliesBeforeReady(cfg: Config, o: Obj, node: string, x: DrainInputs)
    requires o.hpaName == EMPTY && o.original.Some? && o.replicas <= o.original.value < MAX32
    requires o.drain != Idle && o.node == Text(node) && !DrainOverdue(cfg, o, x.now)
    ensures (exists o' :: Saves(DM.DrainPlan(cfg, o, node, x), o') && o'.replicas == o.original.value + 1)
            <==> o.drain == Pending || o.drain == ScaledUp
  {
    var plan := DM.DrainPlan(cfg, o, node, x);
    if o.drain == Pending || o.drain == ScaledUp {
      assert Saves(plan, plan.steps[0].write.obj);
    } else if o.drain == Ready {
      forall o' | Saves(plan, o') ensures o'.replicas == o.original.value {
        EvictionSaves(cfg, o, node, x, o');
      }
    } else if o.drain == Unknown {
      forall o' | Saves(plan, o') ensures o'.replicas == o.original.value {
        RestoreSaves(o, false, [Save(ClearAll(BackToOriginal(o)))], plan.result, o');
      }
    }
  }

  /**
   The same of a restart-surge: it re-applies its surge exactly before `ready`, and not while a drain
   is in progress, to which it yields.
   */
  lemma RestartReappliesBeforeReady(cfg: Config, o: Obj, x: RestartInputs)
    requires o.hpaName == EMPTY && o.original.Some? && o.replicas <= o.original.value < MAX32
    requires o.restart != Idle && !RestartOverdue(cfg, o, x.now)
    ensures (exists o' :: Saves(RM.RestartPlan(cfg, o, x), o') && o'.replicas == o.original.value + 1)
            <==> o.drain == Idle && (o.restart == Pending || o.restart == ScaledUp)
  {
    var plan := RM.RestartPlan(cfg, o, x);
    if o.drain == Idle && (o.restart == Pending || o.restart == ScaledUp) {
      assert Saves(plan, plan.steps[0].write.obj);
    } else if o.drain == Idle && o.restart == Ready {
      forall o' | Saves(plan, o') ensures o'.replicas == o.original.value {
        ArgoSaves(cfg, o, x, o');
      }
    } else if o.drain == Idle && o.restart == Unknown {
      forall o' | Saves(plan, o') ensures o'.replicas == o.original.value {
        RestoreSaves(o, false, [Save(ClearRestart(BackToOriginal(o)))], plan.result, o');
      }
    }
  }

  // ---------- Restart-surge, one operation ----------

  /** States i to j belong to one restart-surge operation. */
  predicate OneRestart(ws: seq<World>, i: nat, j: nat) {
    && i <= j < |ws|
    && forall k :: i <= k <= j ==> ws[k].obj.restart != Idle
  }

  /** The event is a reconcile that read two Ready pods, neither of them terminating. */
  predicate SawTwoReady(e: Event) {
    e.Controller? && e.action.RestartReconcile? && e.action.r.pods.Got? && ReadyCount(e.action.r.pods.value) >= 2
  }

  lemma {:induction false} TwoReadyWereSeen(cfg: Config, ws: seq<World>, es: seq<Event>, i: nat) returns (j: nat)
    requires FreshRun(cfg, ws, es) && i < |ws| && ws[i].obj.restart == Ready
    ensures j < i && OneRestart(ws, j, i) && SawTwoReady(es[j])
  {
    if i == 0 {
      assert false;
    } else {
      RunLinked(cfg, ws, es, i - 1);
      if ws[i - 1].obj.restart == Ready {
        j := TwoReadyWereSeen(cfg, ws, es, i - 1);
      } else {
        j := i - 1;
      }
    }
  }

  /**
   A restart-surge scales down only once Argo is through with the restart, after a reconcile of the
   same operation that counted two Ready pods.
   */
  lemma RestartScaleDownIsJustified(cfg: Config, ws: seq<World>, es: seq<Event>, i: nat) returns (j: nat)
    requires FreshRun(cfg, ws, es) && i < |es|
    requires ws[i].obj.restart != Draining && ws[i + 1].obj.restart == Draining
    ensures es[i].Controller? && es[i].action.RestartReconcile? && ArgoIsThrough(es[i].action.r)
    ensures j < i && OneRestart(ws, j, i) && SawTwoReady(es[j])
  {
    RunLinked(cfg, ws, es, i);
    assert ws[i].obj.restart == Ready;
    j := TwoReadyWereSeen(cfg, ws, es, i);
  }

  // ---------- The two operations together ----------

  /** Both operations are on record. */
  predicate BothOpen(o: Obj) {
    o.drain != Idle && o.restart != Idle
  }

  /** Both operations are on record, and both count on the second replica. */
  predicate Overlap(o: Obj) {
    Surged(o.drain) && Surged(o.restart)
  }

  /**
   The exact way into two operations at once: from a workload with at most one of them, a write opens
   both if and only if it is a drain reconcile's while only a restart-surge is on record.
   */
  lemma BothOpenBegins(cfg: Config, o: Obj, a: Action, o': Obj)
    requires WellFormed(o) && ValidNode(a) && !BothOpen(o) && Saves(PlanOf(cfg, o, a), o')
    ensures BothOpen(o') <==> (a.DrainReconcile? && o.drain == Idle && o.restart != Idle)
  {
    SavedMoves(cfg, o, a, o');
  }

  /** The HPA read succeeded and does not keep a drain from starting at one replica. */
  predicate LeavesRoom(r: Read<Option<Hpa>>) {
    r.Got? && (r.value.Some? ==> r.value.value.max >= 2 && !AtMin(r.value.value, 2))
  }

  /**
   A drain reconcile of a workload that has a restart-surge and no drain on record, all of whose checks
   pass and whose first write lands.
   */
  predicate StartsBeside(o: Obj, e: Event) {
    && e.Controller? && e.action.DrainReconcile?
    && o.drain == Idle && o.restart != Idle
    && ShouldProcess(o, e.action.node, e.action.d)
    && e.action.d.pdb == Got(true)
    && LeavesRoom(e.action.d.hpa)
    && FateAt(e.fates, 0) != Lost
  }

  /** A start of a drain, by its effect on the workload: all or nothing, by the fate of its first write. */
  lemma StartLands(cfg: Config, w: World, node: string, x: DrainInputs, fates: seq<Fate>)
    requires w.obj.replicas == 1
    ensures var o' := Execute(w, DM.Start(cfg, w.obj, node, x), fates).world.obj;
            if x.pdb == Got(true) && LeavesRoom(x.hpa) && FateAt(fates, 0) != Lost
            then o'.drain == ScaledUp && o'.restart == w.obj.restart else o' == w.obj
  {
    var plan := DM.Start(cfg, w.obj, node, x);
    if |plan.steps| == 2 {
      var w1 := Land(w, plan.steps[0].write);
      assert plan.steps[1..] == [plan.steps[1]];
      ExecuteOne(w1, plan.steps[1], plan.result, if fates == [] then [] else fates[1..]);
    } else if |plan.steps| == 1 {
      assert plan.steps == [plan.steps[0]];
      ExecuteOne(w, plan.steps[0], plan.result, fates);
    }
  }

  lemma BothOpenStep(cfg: Config, w: World, e: Event, w': World)
    requires WellFormed(w.obj) && !BothOpen(w.obj) && Next(cfg, w, e, w')
    ensures BothOpen(w'.obj) <==> StartsBeside(w.obj, e)
  {
    var o, o' := w.obj, w'.obj;
    if e.Controller? {
      var a := e.action;
      if a.DrainReconcile? && o.drain == Idle && ShouldProcess(o, a.node, a.d) {
        assert PlanOf(cfg, o, a) == DM.Start(cfg, o, a.node, a.d);
        StartLands(cfg, w, a.node, a.d, e.fates);
      } else if o' != o {
        ExecuteObj(w, PlanOf(cfg, o, a), e.fates);
        SavedMoves(cfg, o, a, o');
      }
    }
  }

  lemma {:induction false} NeverBothOpen(cfg: Config, ws: seq<World>, es: seq<Event>, i: nat)
    requires FreshRun(cfg, ws, es) && i < |ws|
    requires forall k :: 0 <= k < |es| ==> !StartsBeside(ws[k].obj, es[k])
    ensures !BothOpen(ws[i].obj)
  {
    if i > 0 {
      NeverBothOpen(cfg, ws, es, i - 1);
      RunWellFormed(cfg, ws, es, i - 1);
      BothOpenStep(cfg, ws[i - 1], es[i - 1], ws[i]);
    }
  }

  /**
   Exactly when the operations are mutually exclusive: a run never has both on record if and only if
   no drain reconcile in it finds a restart-surge on record, passes its checks and lands its first write.
   */
  lemma ExclusiveRuns(cfg: Config, ws: seq<World>, es: seq<Event>)
    requires FreshRun(cfg, ws, es)
    ensures (forall i :: 0 <= i < |ws| ==> !BothOpen(ws[i].obj)) <==>
            (forall k :: 0 <= k < |es| ==> !StartsBeside(ws[k].obj, es[k]))
  {
    if forall k :: 0 <= k < |es| ==> !StartsBeside(ws[k].obj, es[k]) {
      forall i | 0 <= i < |ws| ensures !BothOpen(ws[i].obj) {
        NeverBothOpen(cfg, ws, es, i);
      }
    }
    if forall i :: 0 <= i < |ws| ==> !BothOpen(ws[i].obj) {
      forall k | 0 <= k < |es| ensures !StartsBeside(ws[k].obj, es[k]) {
        RunWellFormed(cfg, ws, es, k);
        BothOpenStep(cfg, ws[k], es[k], ws[k + 1]);
        assert !BothOpen(ws[k + 1].obj);
      }
    }
  }

  /**
   The same for both being surged: from a workload where they are not, a write makes them so if and
   only if it is the start of a drain while a restart-surge is surged.
   */
  lemma OverlapBegins(cfg: Config, o: Obj, a: Action, o': Obj)
    requires WellFormed(o) && ValidNode(a) && !Overlap(o) && Saves(PlanOf(cfg, o, a), o')
    ensures Overlap(o') <==> (a.DrainReconcile? && o.drain == Idle && Surged(o.restart))
  {
    SavedMoves(cfg, o, a, o');
  }

  lemma OverlapStep(cfg: Config, w: World, e: Event, w': World)
    requires WellFormed(w.obj) && !Overlap(w.obj) && Next(cfg, w, e, w')
    ensures Overlap(w'.obj) <==> StartsBeside(w.obj, e) && Surged(w.obj.restart)
  {
    var o, o' := w.obj, w'.obj;
    if e.Controller? {
      var a := e.action;
      if a.DrainReconcile? && o.drain == Idle && ShouldProcess(o, a.node, a.d) {
        assert PlanOf(cfg, o, a) == DM.Start(cfg, o, a.node, a.d);
        StartLands(cfg, w, a.node, a.d, e.fates);
      } else if o' != o {
        ExecuteObj(w, PlanOf(cfg, o, a), e.fates);
        SavedMoves(cfg, o, a, o');
      }
    }
  }

  lemma {:induction false} NeverOverlap(cfg: Config, ws: seq<World>, es: seq<Event>, i: nat)
    requires FreshRun(cfg, ws, es) && i < |ws|
    requires forall k :: 0 <= k < |es| ==> !(StartsBeside(ws[k].obj, es[k]) && Surged(ws[k].obj.restart))
    ensures !Overlap(ws[i].obj)
  {
    if i > 0 {
      NeverOverlap(cfg, ws, es, i - 1);
      RunWellFormed(cfg, ws, es, i - 1);
      OverlapStep(cfg, ws[i - 1], es[i - 1], ws[i]);
    }
  }

  /**
   Over whole runs: both are never surged at once if and only if no drain starts beside a restart-surge
   that is surged, which takes a workload at one replica and, with an HPA, a minimum below 2.
   */
  lemma OverlapFreeRuns(cfg: Config, ws: seq<World>, es: seq<Event>)
    requires FreshRun(cfg, ws, es)
    ensures (forall i :: 0 <= i < |ws| ==> !Overlap(ws[i].obj)) <==>
            (forall k :: 0 <= k < |es| ==> !(StartsBeside(ws[k].obj, es[k]) && Surged(ws[k].obj.restart)))
  {
    if forall k :: 0 <= k < |es| ==> !(StartsBeside(ws[k].obj, es[k]) && Surged(ws[k].obj.restart)) {
      forall i | 0 <= i < |ws| ensures !Overlap(ws[i].obj) {
        NeverOverlap(cfg, ws, es, i);
      }
    }
    if forall i :: 0 <= i < |ws| ==> !Overlap(ws[i].obj) {
      forall k | 0 <= k < |es| ensures !(StartsBeside(ws[k].obj, es[k]) && Surged(ws[k].obj.restart)) {
        RunWellFormed(cfg, ws, es, k);
        OverlapStep(cfg, ws[k], es[k], ws[k + 1]);
        assert !Overlap(ws[k + 1].obj);
      }
    }
  }

  /** Without an HPA or outside changes of spec.replicas, a surged restart-surge holds the second replica alone. */
  predicate Exclusive(o: Obj) {
    NL.Sound(o) && WellFormed(o) && (Surged(o.restart) ==> o.drain == Idle && o.replicas == 2)
  }

  lemma StepExclusive(cfg: Config, o: Obj, a: Action, o': Obj)
    requires Exclusive(o) && Fresh(None, a) && Saves(PlanOf(cfg, o, a), o')
    ensures Exclusive(o')
  {
    SavedMoves(cfg, o, a, o');
    NL.PlanKeepsSound(cfg, o, a);
    if Surged(o'.restart) {
      RestartSurgeHolds(cfg, o, a, o');
    }
  }

  lemma RestartSurgeHolds(cfg: Config, o: Obj, a: Action, o': Obj)
    requires Exclusive(o) && Fresh(None, a) && Saves(PlanOf(cfg, o, a), o')
    requires Surged(o'.restart) && Moves(cfg, o, a, o')
    ensures o'.drain == Idle && o'.replicas == 2
  {
  }

  lemma {:induction false} StaysExclusive(cfg: Config, h: seq<World>, ms: seq<Landing>, i: nat)
    requires StaleRun(cfg, h, ms) && i < |h| && ValidNodes(ms)
    requires h[0].hpa.None? && h[0].obj.replicas == 1 && NoOwnedKeys(h[0].obj)
    requires forall k :: 0 <= k < |ms| ==> ms[k].Landing?
    ensures forall j :: 0 <= j <= i ==> Exclusive(h[j].obj) && h[j].hpa.None?
  {
    if i > 0 {
      StaysExclusive(cfg, h, ms, i - 1);
      var past, m := h[..i], ms[i - 1];
      assert StaleNext(cfg, past, m, h[i]);
      var x :| Lands(cfg, past, m, x) && h[i] == Land(past[|past| - 1], x);
      var o := past[m.snap].obj;
      if x.SetWorkload? {
        assert Saves(PlanOf(cfg, o, m.action), x.obj);
        StepExclusive(cfg, o, m.action, x.obj);
      }
    }
  }

  /**
   Mutual exclusion: without an HPA and without outside changes of spec.replicas, drain-state and
   restart-surge-state are never in scaled-up or ready together, however old the state is that each
   write was decided on.
   */
  lemma MutualExclusion(cfg: Config, h: seq<World>, ms: seq<Landing>, i: nat)
    requires StaleRun(cfg, h, ms) && i < |h| && ValidNodes(ms)
    requires h[0].hpa.None? && h[0].obj.replicas == 1 && NoOwnedKeys(h[0].obj)
    requires forall k :: 0 <= k < |ms| ==> ms[k].Landing?
    ensures !Overlap(h[i].obj)
  {
    StaysExclusive(cfg, h, ms, i);
  }

  /** The same of atomic runs. */
  lemma MutualExclusionAtomically(cfg: Config, ws: seq<World>, es: seq<Event>, i: nat)
    requires FreshRun(cfg, ws, es) && i < |ws|
    requires ws[0].hpa.None? && ws[0].obj.replicas == 1
    requires forall k :: 0 <= k < |es| ==> es[k].Controller?
    ensures !Overlap(ws[i].obj)
  {
    var h, ms := AtomicRunsAreStale(cfg, ws, es, i, {});
    MutualExclusion(cfg, h, ms, |h| - 1);
  }

  /** The event is a reconcile that gives a restart-surge up because a drain is in progress. */
  predicate IsYield(cfg: Config, o: Obj, e: Event, o': Obj) {
    e.Controller? && e.action.RestartReconcile? && Yields(cfg, o, e.action.r.now) && o' != o
  }

  /** A yield ends the restart-surge and touches none of the drain's and the shared annotations. */
  lemma YieldKeepsDrain(cfg: Config, o: Obj, a: Action, o': Obj)
    requires a.RestartReconcile? && Yields(cfg, o, a.r.now) && Saves(PlanOf(cfg, o, a), o')
    ensures o'.restart == Idle && o'.restartStart.None?
    ensures o' == o.(restart := o'.restart, restartStart := o'.restartStart, replicas := o'.replicas)
    ensures o.hpaName == EMPTY && o.original.Some? ==> o'.replicas == o.original.value
  {
  }

  /** The annotations that both operations use, and that a drain in progress relies on. */
  predicate SameBookkeeping(o: Obj, o': Obj) {
    o'.original == o.original && o'.hpaName == o.hpaName && o'.hpaMin == o.hpaMin
  }

  /**
   The action ends the restart-surge by an abort, whatever drain-state says: a reconcile that finds it
   overdue, or an orphan scan that finds Argo through with the restart.
   */
  predicate AbortsRestart(cfg: Config, o: Obj, a: Action) {
    || (a.RestartReconcile? && RestartOverdue(cfg, o, a.r.now))
    || (a.RestartOrphanScan? && o.restart != Idle && ArgoIdle(a.ro))
  }

  /**
   A write that leaves a drain in progress is meant to leave it the shared bookkeeping as well. It does
   so exactly if it is not an abort of the restart-surge, of which there are two.
   */
  lemma BookkeepingSurvives(cfg: Config, o: Obj, a: Action, o': Obj)
    requires o.drain != Idle && o'.drain != Idle && o.original.Some? && Saves(PlanOf(cfg, o, a), o')
    ensures SameBookkeeping(o, o') <==> !AbortsRestart(cfg, o, a)
  {
    var plan := PlanOf(cfg, o, a);
    if plan == DrainAbort(o) {
      RestoreSaves(o, false, [Save(ClearAll(BackToOriginal(o)))], plan.result, o');
    } else if plan == RestartAbort(o) {
      RestoreSaves(o, false, [Save(ClearRestart(BackToOriginal(o)))], plan.result, o');
    } else if a.DrainReconcile? && o.drain == Ready {
      EvictionSaves(cfg, o, a.node, a.d, o');
    }
  }

  /** The event is such an abort, and its last write, which clears the workload, lands. */
  predicate Erases(cfg: Config, o: Obj, e: Event) {
    e.Controller? && AbortsRestart(cfg, o, e.action) && FateAt(e.fates, |RestoreSteps(o, false)|) != Lost
  }

  lemma AbortLands(w: World, o': Obj, r: Result, fates: seq<Fate>)
    ensures Execute(w, Plan(RestoreSteps(w.obj, false) + [Save(o')], r), fates).world.obj ==
            if FateAt(fates, |RestoreSteps(w.obj, false)|) == Lost then w.obj else o'
  {
    var steps := RestoreSteps(w.obj, false) + [Save(o')];
    if |steps| == 1 {
      assert steps == [Save(o')];
      ExecuteOne(w, Save(o'), r, fates);
    } else {
      assert steps[1..] == [Save(o')];
      var w1 := if FateAt(fates, 0) == Lost then w else Land(w, steps[0].write);
      ExecuteOne(w1, Save(o'), r, if fates == [] then [] else fates[1..]);
    }
  }

  /** A drain whose original replica count is gone never gets it back. */
  lemma OriginalStaysGone(cfg: Config, o: Obj, a: Action, o': Obj)
    requires o.drain != Idle && o'.drain != Idle && o.original.None? && Saves(PlanOf(cfg, o, a), o')
    ensures o'.original.None?
  {
    var plan := PlanOf(cfg, o, a);
    if a.DrainReconcile? && plan != DrainAbort(o) && o.drain == Ready {
      EvictionSaves(cfg, o, a.node, a.d, o');
    }
  }

  lemma BookkeepingStep(cfg: Config, w: World, e: Event, w': World)
    requires w.obj.drain != Idle && w'.obj.drain != Idle && Next(cfg, w, e, w')
    ensures w.obj.original.None? ==> w'.obj.original.None?
    ensures w.obj.original.Some? && Erases(cfg, w.obj, e) ==> w'.obj.original.None?
    ensures w.obj.original.Some? && !Erases(cfg, w.obj, e) ==> SameBookkeeping(w.obj, w'.obj)
  {
    var o, o' := w.obj, w'.obj;
    if e.Controller? {
      if AbortsRestart(cfg, o, e.action) {
        AbortLands(w, ClearRestart(BackToOriginal(o)), Requeue(0), e.fates);
      } else if o' != o {
        ExecuteObj(w, PlanOf(cfg, o, e.action), e.fates);
        if o.original.Some? {
          BookkeepingSurvives(cfg, o, e.action, o');
        } else {
          OriginalStaysGone(cfg, o, e.action, o');
        }
      }
    }
  }

  /**
   Over a whole drain: from any of its states on, the shared bookkeeping is what it was exactly if no
   abort of a restart-surge has landed since; once erased it does not come back.
   */
  lemma {:induction false} BookkeepingOverDrain(cfg: Config, ws: seq<World>, es: seq<Event>, i: nat, j: nat)
    requires Run(cfg, ws, es) && OneDrain(ws, i, j) && ws[i].obj.original.Some?
    ensures if forall k :: i <= k < j ==> !Erases(cfg, ws[k].obj, es[k]) then SameBookkeeping(ws[i].obj, ws[j].obj)
            else ws[j].obj.original.None?
  {
    if i < j {
      BookkeepingOverDrain(cfg, ws, es, i, j - 1);
      BookkeepingStep(cfg, ws[j - 1], es[j - 1], ws[j]);
    }
  }

  /** While a drain goes on, an ended restart-surge stays ended. */
  lemma {:induction false} RestartStaysEnded(cfg: Config, ws: seq<World>, es: seq<Event>, i: nat, j: nat)
    requires FreshRun(cfg, ws, es) && OneDrain(ws, i, j) && ws[i].obj.restart == Idle
    ensures ws[j].obj.restart == Idle
  {
    if i < j {
      RestartStaysEnded(cfg, ws, es, i, j - 1);
      RunLinked(cfg, ws, es, j - 1);
    }
  }

  /** A drain operation sees at most one yield. */
  lemma AtMostOneYield(cfg: Config, ws: seq<World>, es: seq<Event>, i: nat, j: nat)
    requires FreshRun(cfg, ws, es) && OneDrain(ws, i, j) && j < |es|
    requires IsYield(cfg, ws[i].obj, es[i], ws[i + 1].obj) && IsYield(cfg, ws[j].obj, es[j], ws[j + 1].obj)
    ensures i == j
  {
    if i < j {
      assert Next(cfg, ws[i], es[i], ws[i + 1]);
      ExecuteObj(ws[i], PlanOf(cfg, ws[i].obj, es[i].action), es[i].fates);
      YieldKeepsDrain(cfg, ws[i].obj, es[i].action, ws[i + 1].obj);
      RestartStaysEnded(cfg, ws, es, i + 1, j);
    }
  }

  /**
   After a yield, the next timely reconcile of the drain takes the surge over, as it is meant to,
   exactly if the drain has not come to `ready` yet. In scaled-up it changes nothing but the replicas.
   */
  lemma DrainResurges(cfg: Config, w: World, a: Action, w1: World, b: Action, w2: World)
    requires a.RestartReconcile? && Yields(cfg, w.obj, a.r.now)
    requires w1 == Execute(w, PlanOf(cfg, w.obj, a), ALL_FINE).world
    requires w.obj.hpaName == EMPTY && w.obj.original.Some? && w.obj.original.value < MAX32
    requires b.DrainReconcile? && Text(b.node) == w.obj.node && !DrainOverdue(cfg, w1.obj, b.d.now)
    requires w2 == Execute(w1, PlanOf(cfg, w1.obj, b), ALL_FINE).world
    ensures w1.obj.replicas == w.obj.original.value
    ensures w2.obj.replicas == w.obj.original.value + 1 <==> w.obj.drain == Pending || w.obj.drain == ScaledUp
    ensures w.obj.drain == ScaledUp ==> w2.obj == w1.obj.(replicas := w.obj.original.value + 1)
  {
    var plan := PlanOf(cfg, w1.obj, b);
    if plan.steps != [] {
      assert plan.steps == [plan.steps[0]];
      ExecuteOne(w1, plan.steps[0], plan.result, ALL_FINE);
    }
  }
}
