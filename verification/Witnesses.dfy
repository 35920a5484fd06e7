/** Runs that reach the states in which documented behaviour fails. */
module Witnesses {
  import opened Base
  import opened Surge
  import opened Inputs
  import opened RestartDetect
  import opened DM = DrainMachine
  import opened RM = RestartMachine
  import opened Joint
  import opened Ownership

  /** Timeouts that pass validation and do not wrap around. */
  predicate Sane(cfg: Config) {
    0 < cfg.grace <= MAX64 && 0 < cfg.restartTimeout && 3 * cfg.restartTimeout <= MAX64
    && 0 < cfg.readinessTimeout && 3 * cfg.readinessTimeout <= MAX64
  }

  /** A reconcile that saves one workload and succeeds. */
  lemma SavingTick(cfg: Config, w: World, a: Action, o': Obj, r: Result)
    requires Fresh(w.hpa, a) && PlanOf(cfg, w.obj, a) == Plan([Save(o')], r)
    ensures Next(cfg, w, Controller(a, ALL_FINE), w.(obj := o'))
  {
    ExecuteOne(w, Save(o'), r, ALL_FINE);
  }

  /** A workload before any operation, without an HPA. */
  const START: World := World(Obj(1, Idle, None, EMPTY, None, EMPTY, None, Idle, None), None)

  /** A Rollout restarted a grace period ago, with a pod of its own on node n and another elsewhere. */
  function Stuck(cfg: Config): Rollout { Rollout(Healthy, "", Some(-cfg.grace), None) }

  function Pods(cfg: Config): seq<Pod> {
    [Pod("n", true, false, Running, -cfg.grace - 1), Pod("m", true, false, Running, 0)]
  }

  function Restart(cfg: Config, ro: Rollout, now: int): Event {
    Controller(RestartReconcile(RestartInputs(true, ro, Got(true), Got(None), Got(Pods(cfg)), now)), ALL_FINE)
  }

  function Drain(cfg: Config): Event {
    DrainOf(cfg, true, None)
  }

  function DrainOf(cfg: Config, enabled: bool, hpa: Option<Hpa>): Event {
    var x := DrainInputs(enabled, RolloutStatus(Stuck(cfg)), Got(hpa), Got(true), Got(hpa), Got(Pods(cfg)), 0);
    Controller(DrainReconcile("n", x), ALL_FINE)
  }

  function Through(cfg: Config): Rollout { Stuck(cfg).(restartedAt := Some(-cfg.grace)) }

  /** The workload during a restart-surge. */
  function Surging(state: State, replicas: Int32): World {
    START.(obj := START.obj.(replicas := replicas, original := Some(1), restart := state, restartStart := Some(0)))
  }

  /** The same with a drain of node n beside it. */
  function Drained(drain: State, restart: State): World {
    START.(obj := Surging(restart, 2).obj.(drain := drain, node := Text("n"), start := Some(0)))
  }

  lemma RestartStarts(cfg: Config)
    requires 0 < cfg.grace <= MAX64
    ensures Next(cfg, START, Restart(cfg, Stuck(cfg), 0), Surging(ScaledUp, 2))
  {
    assert SomeOld(Pods(cfg), -cfg.grace);
    SavingTick(cfg, START, Restart(cfg, Stuck(cfg), 0).action, Surging(ScaledUp, 2).obj, Requeue(cfg.requeue));
  }

  lemma TwoAreReady(cfg: Config)
    ensures ReadyCount(Pods(cfg)) == 2
  {
    assert Pods(cfg)[..1][..0] == [];
  }

  lemma RestartGoesOn(cfg: Config)
    requires Sane(cfg)
    ensures Next(cfg, Surging(ScaledUp, 2), Restart(cfg, Stuck(cfg), 0), Surging(Ready, 2))
    ensures Next(cfg, Surging(Ready, 2), Restart(cfg, Through(cfg), 0), Surging(Draining, 1))
    ensures Next(cfg, Surging(Draining, 1), Restart(cfg, Through(cfg), 0), Surging(Done, 1))
  {
    var first, later := Restart(cfg, Stuck(cfg), 0).action, Restart(cfg, Through(cfg), 0).action;
    TwoAreReady(cfg);
    SavingTick(cfg, Surging(ScaledUp, 2), first, Surging(Ready, 2).obj, Requeue(cfg.requeue));
    assert PlanOf(cfg, Surging(Ready, 2).obj, later).steps == [Save(Surging(Draining, 1).obj)];
    SavingTick(cfg, Surging(Ready, 2), later, Surging(Draining, 1).obj, Requeue(cfg.requeue));
    SavingTick(cfg, Surging(Draining, 1), later, Surging(Done, 1).obj, Requeue(cfg.requeue));
  }

  /** A drain starts beside a restart-surge that is at one replica. */
  lemma DrainStarts(cfg: Config, restart: State)
    ensures Next(cfg, Surging(restart, 1), Drain(cfg), Drained(ScaledUp, restart))
  {
    SavingTick(cfg, Surging(restart, 1), Drain(cfg).action, Drained(ScaledUp, restart).obj, Requeue(cfg.requeue));
  }

  /** It goes on to ready. */
  lemma DrainGoesOn(cfg: Config, restart: State)
    requires Sane(cfg)
    ensures Next(cfg, Drained(ScaledUp, restart), Drain(cfg), Drained(Ready, restart))
  {
    var p := Pods(cfg)[1];
    assert p in Pods(cfg) && p.node != "n" && p.ready && !p.terminating;
    SavingTick(cfg, Drained(ScaledUp, restart), Drain(cfg).action, Drained(Ready, restart).obj, Requeue(cfg.requeue));
  }

  /** A run that is one event longer. */
  lemma More(cfg: Config, ws: seq<World>, es: seq<Event>, e: Event, w: World)
    requires FreshRun(cfg, ws, es) && Next(cfg, ws[|ws| - 1], e, w)
    ensures FreshRun(cfg, ws + [w], es + [e])
  {
  }

  /** Every event is a handler all of whose writes succeed. */
  predicate AllSucceed(es: seq<Event>) {
    forall k :: 0 <= k < |es| ==> es[k].Controller? && es[k].fates == ALL_FINE
  }

  // ---------- Two operations on one workload ----------

  /** A restart-surge runs to draining, back at one replica, and a drain starts beside it. */
  lemma DrainBesideDraining(cfg: Config) returns (ws: seq<World>, es: seq<Event>)
    requires Sane(cfg)
    ensures FreshRun(cfg, ws, es) && |es| == 4 && AllSucceed(es) && ws[0] == START
    ensures ws[4] == Drained(ScaledUp, Draining)
  {
    RestartStarts(cfg);
    RestartGoesOn(cfg);
    DrainStarts(cfg, Draining);
    ws := [START, Surging(ScaledUp, 2), Surging(Ready, 2), Surging(Draining, 1), Drained(ScaledUp, Draining)];
    es := [Restart(cfg, Stuck(cfg), 0), Restart(cfg, Stuck(cfg), 0), Restart(cfg, Through(cfg), 0), Drain(cfg)];
  }

  /** The workload after an abort of the restart-surge. */
  function Erased(w: World): World {
    w.(obj := ClearRestart(BackToOriginal(w.obj)))
  }

  lemma AbortTick(cfg: Config, w: World, a: Action)
    requires AbortsRestart(cfg, w.obj, a) && w.obj.hpaName == EMPTY && Fresh(w.hpa, a)
    ensures Next(cfg, w, Controller(a, ALL_FINE), Erased(w))
  {
    assert PlanOf(cfg, w.obj, a).steps == [Save(Erased(w).obj)];
    SavingTick(cfg, w, a, Erased(w).obj, Requeue(0));
  }

  /**
   Both operations at once without any outside change; and the restart-surge, overdue by then, erases
   the drain's original replica count.
   */
  lemma OperationsMeet(cfg: Config) returns (ws: seq<World>, es: seq<Event>)
    requires Sane(cfg)
    ensures FreshRun(cfg, ws, es) && ws[0].hpa.None? && ws[0].obj.replicas == 1
    ensures |es| == 5 && AllSucceed(es)
    ensures BothOpen(ws[4].obj) && ws[4].obj.drain == ScaledUp && ws[4].obj.restart == Draining
    ensures es[4].action.RestartReconcile? && RestartOverdue(cfg, ws[4].obj, es[4].action.r.now)
    ensures ws[4].obj.original == Some(1) && ws[5].obj.original.None? && ws[5].obj.drain == ScaledUp
  {
    ws, es := DrainBesideDraining(cfg);
    var late := Restart(cfg, Through(cfg), cfg.restartTimeout + 1);
    AbortTick(cfg, ws[4], late.action);
    More(cfg, ws, es, late, Erased(ws[4]));
    ws, es := ws + [Erased(ws[4])], es + [late];
  }

  /** With nothing overdue, the restart-surge orphan scan erases it as well, and takes the drain's replica. */
  lemma ScanErases(cfg: Config) returns (ws: seq<World>, es: seq<Event>)
    requires Sane(cfg)
    ensures FreshRun(cfg, ws, es) && ws[0].hpa.None? && ws[0].obj.replicas == 1
    ensures |es| == 5 && AllSucceed(es) && es[4].action.RestartOrphanScan?
    ensures !RestartOverdue(cfg, ws[4].obj, 0) && !DrainOverdue(cfg, ws[4].obj, 0)
    ensures ws[4].obj.original == Some(1) && ws[4].obj.replicas == 2 && ws[4].obj.drain == ScaledUp
    ensures ws[5].obj.original.None? && ws[5].obj.replicas == 1 && ws[5].obj.drain == ScaledUp
  {
    ws, es := DrainBesideDraining(cfg);
    var scan := Controller(RestartOrphanScan(Through(cfg)), ALL_FINE);
    AbortTick(cfg, ws[4], scan.action);
    More(cfg, ws, es, scan, Erased(ws[4]));
    ws, es := ws + [Erased(ws[4])], es + [scan];
  }

  /** The drain goes on to ready beside the restart-surge. */
  lemma ReadyBesideDraining(cfg: Config) returns (ws: seq<World>, es: seq<Event>)
    requires Sane(cfg)
    ensures FreshRun(cfg, ws, es) && |es| == 5 && AllSucceed(es) && ws[5] == Drained(Ready, Draining)
  {
    ws, es := DrainBesideDraining(cfg);
    DrainGoesOn(cfg, Draining);
    More(cfg, ws, es, Drain(cfg), Drained(Ready, Draining));
    ws, es := ws + [Drained(Ready, Draining)], es + [Drain(cfg)];
  }

  /** The drain is in ready when the overdue restart-surge takes its surge away. */
  lemma ReadyIsStranded(cfg: Config) returns (ws: seq<World>, es: seq<Event>)
    requires Sane(cfg)
    ensures FreshRun(cfg, ws, es) && |es| == 6 && AllSucceed(es)
    ensures ws[5].obj.drain == Ready && ws[5].obj.replicas == 2
    ensures es[5].action.RestartReconcile? && RestartOverdue(cfg, ws[5].obj, es[5].action.r.now)
    ensures ws[6].obj.drain == Ready && ws[6].obj.replicas == 1 && ws[6].obj.original.None?
  {
    ws, es := ReadyBesideDraining(cfg);
    var late := Restart(cfg, Through(cfg), cfg.restartTimeout + 1);
    AbortTick(cfg, ws[5], late.action);
    More(cfg, ws, es, late, Erased(ws[5]));
    ws, es := ws + [Erased(ws[5])], es + [late];
  }

  /**
   A timely restart-surge yields to the drain in ready, which does not take the surge over while the
   old pod is live.
   */
  lemma YieldStrandsReady(cfg: Config) returns (ws: seq<World>, es: seq<Event>)
    requires Sane(cfg)
    ensures FreshRun(cfg, ws, es) && |es| == 7 && AllSucceed(es)
    ensures ws[5].obj.drain == Ready && ws[5].obj.replicas == 2 && IsYield(cfg, ws[5].obj, es[5], ws[6].obj)
    ensures es[6].action.DrainReconcile? && Text(es[6].action.node) == ws[6].obj.node
    ensures es[6].action.d.pods.Got? && LivePodOn(es[6].action.d.pods.value, es[6].action.node)
    ensures ws[6].obj.drain == Ready && ws[6].obj.replicas == 1 && ws[7] == ws[6]
  {
    ws, es := ReadyBesideDraining(cfg);
    var hand, w6 := Restart(cfg, Through(cfg), 0), Lone(Ready, 1);
    SavingTick(cfg, ws[5], hand.action, w6.obj, Requeue(0));
    More(cfg, ws, es, hand, w6);
    ws, es := ws + [w6], es + [hand];
    DrainWaits(cfg, 1);
    More(cfg, ws, es, Drain(cfg), w6);
    ws, es := ws + [w6], es + [Drain(cfg)];
  }

  /** A restart-surge that is done outlives its timeout while a drain is in progress. */
  lemma DoneIsParked(cfg: Config) returns (ws: seq<World>, es: seq<Event>)
    requires Sane(cfg)
    ensures FreshRun(cfg, ws, es) && |es| == 6 && AllSucceed(es)
    ensures ws[5].obj.restart == Done && ws[5].obj.drain == ScaledUp
    ensures ws[5].obj.restartStart == Some(0)
    ensures es[5].action.RestartReconcile? && TimedOut(cfg.restartTimeout, 0, es[5].action.r.now)
    ensures ws[6] == ws[5]
  {
    RestartStarts(cfg);
    RestartGoesOn(cfg);
    DrainStarts(cfg, Done);
    var late, through := Restart(cfg, Through(cfg), cfg.restartTimeout + 1), Restart(cfg, Through(cfg), 0);
    var w5 := Drained(ScaledUp, Done);
    assert PlanOf(cfg, w5.obj, late.action).steps == [];
    ws := [START, Surging(ScaledUp, 2), Surging(Ready, 2), Surging(Draining, 1), Surging(Done, 1), w5, w5];
    es := [Restart(cfg, Stuck(cfg), 0), Restart(cfg, Stuck(cfg), 0), through, through, Drain(cfg), late];
  }

  /** With a reset of spec.replicas from outside, both operations even end up in scaled-up. */
  lemma ResetLetsThemOverlap(cfg: Config) returns (ws: seq<World>, es: seq<Event>)
    requires 0 < cfg.grace <= MAX64
    ensures FreshRun(cfg, ws, es) && ws[0].hpa.None? && ws[0].obj.replicas == 1
    ensures |es| == 3 && es[1] == External(1)
    ensures Overlap(ws[3].obj)
  {
    RestartStarts(cfg);
    DrainStarts(cfg, ScaledUp);
    ws := [START, Surging(ScaledUp, 2), Surging(ScaledUp, 1), Drained(ScaledUp, ScaledUp)];
    es := [Restart(cfg, Stuck(cfg), 0), External(1), Drain(cfg)];
  }

  // ---------- A drain by itself ----------

  /** The workload during a drain of node n that began at one replica. */
  function Lone(drain: State, replicas: Int32): World {
    var o := START.obj.(replicas := replicas, original := Some(1));
    START.(obj := o.(drain := drain, node := Text("n"), start := Some(0)))
  }

  /** While a pod is live on the node, a drain in ready does nothing. */
  lemma DrainWaits(cfg: Config, replicas: Int32)
    requires Sane(cfg)
    ensures LivePodOn(Pods(cfg), "n")
    ensures Next(cfg, Lone(Ready, replicas), Drain(cfg), Lone(Ready, replicas))
  {
    var p := Pods(cfg)[0];
    assert p in Pods(cfg) && p.node == "n" && !p.terminating && p.phase == Running;
    assert PlanOf(cfg, Lone(Ready, replicas).obj, Drain(cfg).action).steps == [];
  }

  lemma LoneDrain(cfg: Config, enabled: bool)
    requires Sane(cfg)
    ensures Next(cfg, START, Drain(cfg), Lone(ScaledUp, 2))
    ensures Next(cfg, Lone(ScaledUp, 2), DrainOf(cfg, enabled, None), Lone(Ready, 2))
  {
    var p := Pods(cfg)[1];
    assert p in Pods(cfg) && p.node != "n" && p.ready && !p.terminating;
    SavingTick(cfg, START, Drain(cfg).action, Lone(ScaledUp, 2).obj, Requeue(cfg.requeue));
    SavingTick(cfg, Lone(ScaledUp, 2), DrainOf(cfg, enabled, None).action, Lone(Ready, 2).obj, Requeue(cfg.requeue));
  }

  /** A reset from outside that meets a drain in ready stays. */
  lemma ReadyStaysReset(cfg: Config) returns (ws: seq<World>, es: seq<Event>)
    requires Sane(cfg)
    ensures FreshRun(cfg, ws, es) && |es| == 4 && es[2] == External(1)
    ensures es[3] == Drain(cfg) && LivePodOn(es[3].action.d.pods.value, "n")
    ensures ws[2].obj.drain == Ready && ws[2].obj.replicas == 2
    ensures ws[4].obj.drain == Ready && ws[4].obj.replicas == 1
  {
    LoneDrain(cfg, true);
    DrainWaits(cfg, 1);
    ws := [START, Lone(ScaledUp, 2), Lone(Ready, 2), Lone(Ready, 1), Lone(Ready, 1)];
    es := [Drain(cfg), Drain(cfg), External(1), Drain(cfg)];
  }

  /** So does one that meets a restart-surge in ready, while Argo is not through. */
  lemma RestartReadyStaysReset(cfg: Config) returns (ws: seq<World>, es: seq<Event>)
    requires Sane(cfg)
    ensures FreshRun(cfg, ws, es) && |es| == 4 && es[2] == External(1) && es[3] == Restart(cfg, Stuck(cfg), 0)
    ensures ws[2].obj.restart == Ready && ws[2].obj.replicas == 2
    ensures ws[4].obj.restart == Ready && ws[4].obj.replicas == 1
  {
    RestartStarts(cfg);
    RestartGoesOn(cfg);
    var w, e := Surging(Ready, 1), Restart(cfg, Stuck(cfg), 0);
    assert !NoneOld(Pods(cfg), -cfg.grace);
    assert PlanOf(cfg, w.obj, e.action).steps == [];
    ws := [START, Surging(ScaledUp, 2), Surging(Ready, 2), w, w];
    es := [e, e, External(1), e];
  }

  /** A drain goes on after its workload has opted out. */
  lemma OptedOutGoesOn(cfg: Config) returns (ws: seq<World>, es: seq<Event>)
    requires Sane(cfg)
    ensures FreshRun(cfg, ws, es) && |es| == 2 && AllSucceed(es) && NotOptedIn(es[1].action)
    ensures ws[1].obj.drain == ScaledUp && ws[2].obj.drain == Ready
  {
    LoneDrain(cfg, false);
    ws := [START, Lone(ScaledUp, 2), Lone(Ready, 2)];
    es := [Drain(cfg), DrainOf(cfg, false, None)];
  }

  // ---------- With an HPA ----------

  const HPA: Hpa := Hpa("h", Some(1), 5)

  function WithHpa(o: Obj, min: Int32): World {
    World(o.(hpaName := Text("h"), hpaMin := Some(1)), Some(HPA.(min := Some(min))))
  }

  /** Two writes of which the first succeeds, or is not required, and either may be lost. */
  lemma TwoWrites(w: World, x: Step, y: Step, r: Result, f: Fate, g: Fate)
    requires Succeeds(w, x.write, f) || !x.required
    ensures var w1 := if f == Lost then w else Land(w, x.write);
            Execute(w, Plan([x, y], r), [f, g]).world == if g == Lost then w1 else Land(w1, y.write)
  {
    var w1 := if f == Lost then w else Land(w, x.write);
    assert [x, y][1..] == [y] && [f, g][1..] == [g];
    ExecuteOne(w1, y, r, [g]);
  }

  /** A start through the HPA: the record, and then the patch if it lands. */
  lemma HpaStart(cfg: Config, w: World, a: Action, o': Obj, g: Fate)
    requires w.hpa == Some(HPA) && Fresh(w.hpa, a)
    requires PlanOf(cfg, w.obj, a) == Plan([Save(o'), Step(SurgeHpa(Text("h"), 2), true)], Requeue(cfg.requeue))
    ensures Next(cfg, w, Controller(a, [Fine, g]), World(o', Some(HPA.(min := Some(if g == Lost then 1 else 2)))))
  {
    TwoWrites(w, Save(o'), Step(SurgeHpa(Text("h"), 2), true), Requeue(cfg.requeue), Fine, g);
  }

  /** A restart-surge whose HPA patch is lost does not keep a drain from starting, and both are in scaled-up. */
  lemma LostPatchLetsThemOverlap(cfg: Config) returns (ws: seq<World>, es: seq<Event>)
    requires 0 < cfg.grace <= MAX64
    ensures FreshRun(cfg, ws, es) && ws[0].hpa == Some(HPA) && ws[0].obj.replicas == 1
    ensures |es| == 2 && es[0].Controller? && es[0].fates == [Fine, Lost]
    ensures es[1].Controller? && es[1].fates == [Fine, Fine]
    ensures Overlap(ws[2].obj)
  {
    var w0 := World(START.obj, Some(HPA));
    var x := RestartInputs(true, Stuck(cfg), Got(true), Got(Some(HPA)), Got(Pods(cfg)), 0);
    var w1 := WithHpa(Surging(ScaledUp, 1).obj, 1);
    assert SomeOld(Pods(cfg), -cfg.grace);
    HpaStart(cfg, w0, RestartReconcile(x), w1.obj, Lost);
    var d, w2 := DrainOf(cfg, true, Some(HPA)).action, WithHpa(Drained(ScaledUp, ScaledUp).obj.(replicas := 1), 2);
    HpaStart(cfg, w1, d, w2.obj, Fine);
    ws := [w0, w1, w2];
    es := [Controller(RestartReconcile(x), [Fine, Lost]), Controller(d, [Fine, Fine])];
  }

  /** So are they when the restore of the HPA lands and the save that follows it is lost. */
  lemma LostSaveLetsThemOverlap(cfg: Config) returns (ws: seq<World>, es: seq<Event>)
    requires Sane(cfg)
    ensures FreshRun(cfg, ws, es) && ws[0].hpa == Some(HPA) && |es| == 4
    ensures forall k :: 0 <= k < 4 ==> es[k].Controller? && es[k].fates == if k == 2 then [Fine, Lost] else [Fine, Fine]
    ensures Overlap(ws[4].obj)
  {
    var w0 := World(START.obj, Some(HPA));
    var w1, w2 := WithHpa(Surging(ScaledUp, 1).obj, 2), WithHpa(Surging(Ready, 1).obj, 2);
    var w3, w4 := WithHpa(Surging(Ready, 1).obj, 1), WithHpa(Drained(ScaledUp, Ready).obj.(replicas := 1), 2);
    var a0 := RestartReconcile(RestartInputs(true, Stuck(cfg), Got(true), Got(Some(HPA)), Got(Pods(cfg)), 0));
    assert SomeOld(Pods(cfg), -cfg.grace);
    HpaStart(cfg, w0, a0, w1.obj, Fine);
    var a1 := RestartReconcile(RestartInputs(true, Stuck(cfg), Got(true), Got(w1.hpa), Got(Pods(cfg)), 0));
    TwoAreReady(cfg);
    ExecuteOne(w1, Save(w2.obj), Requeue(cfg.requeue), [Fine, Fine]);
    var a2 := RestartReconcile(RestartInputs(true, Through(cfg), Got(true), Got(w2.hpa), Got(Pods(cfg)), 0));
    var x, y := Step(RestoreHpa(Text("h"), 1), true), Save(w2.obj.(restart := Draining));
    assert PlanOf(cfg, w2.obj, a2).steps == [x, y];
    TwoWrites(w2, x, y, Requeue(cfg.requeue), Fine, Lost);
    var a3 := DrainOf(cfg, true, Some(HPA)).action;
    HpaStart(cfg, w3, a3, w4.obj, Fine);
    ws := [w0, w1, w2, w3, w4];
    es := [Controller(a0, [Fine, Fine]), Controller(a1, [Fine, Fine]), Controller(a2, [Fine, Lost]),
           Controller(a3, [Fine, Fine])];
  }

  /** A drain through the HPA is aborted and the restore is lost: the HPA stays surged with nothing on record. */
  lemma RestoreIsSwallowed(cfg: Config) returns (ws: seq<World>, es: seq<Event>)
    ensures FreshRun(cfg, ws, es) && |es| == 2 && ws[0].hpa == Some(HPA)
    ensures es[1] == Controller(NodeGone("n"), [Lost, Fine])
    ensures NoOwnedKeys(ws[2].obj) && ws[2].hpa == Some(HPA.(min := Some(2)))
  {
    var w0, d := World(START.obj, Some(HPA)), DrainOf(cfg, true, Some(HPA)).action;
    var w1 := WithHpa(Lone(ScaledUp, 1).obj, 2);
    HpaStart(cfg, w0, d, w1.obj, Fine);
    var x, y := Step(RestoreHpa(Text("h"), 1), false), Save(START.obj);
    assert PlanOf(cfg, w1.obj, NodeGone("n")).steps == [x, y];
    TwoWrites(w1, x, y, Requeue(0), Lost, Fine);
    ws := [w0, w1, World(START.obj, w1.hpa)];
    es := [Controller(d, [Fine, Fine]), Controller(NodeGone("n"), [Lost, Fine])];
  }

  // ---------- Timeouts ----------

  /** With a timeout of about 127 years every operation is overdue the moment it starts. */
  lemma HugeTimeoutAborts(start: int)
    ensures TimedOut(4_000_000_000_000_000_000, start, start)
  {
  }
}
