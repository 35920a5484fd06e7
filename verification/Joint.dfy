/**
 The two machines, their aborts and both orphan scans as one transition system on a workload,
 in two forms: atomic runs, whose every handler reads the current state and whose writes may each be
 lost or misreported; and stale runs, in which any single write computed from any earlier state lands.
 */
module Joint {
  import opened Base
  import opened Surge
  import opened Inputs
  import opened DM = DrainMachine
  import opened RM = RestartMachine

  datatype Action =
    | DrainReconcile(node: string, d: DrainInputs)
    | RestartReconcile(r: RestartInputs)
    | NodeGone(node: string)
    | DrainOrphanScan(tainted: set<string>)
    | RestartOrphanScan(ro: Rollout)

  function PlanOf(cfg: Config, o: Obj, a: Action): Plan {
    match a
    case DrainReconcile(node, x) => DM.DrainPlan(cfg, o, node, x)
    case RestartReconcile(x) => RM.RestartPlan(cfg, o, x)
    case NodeGone(node) => DM.NodeGonePlan(o, node)
    case DrainOrphanScan(tainted) => DM.DrainOrphanPlan(o, tainted)
    case RestartOrphanScan(ro) => RM.RestartOrphanPlan(o, ro)
  }

  /** The plan contains a write that makes the workload o'. */
  ghost predicate Saves(plan: Plan, o': Obj) {
    exists p :: 0 <= p < |plan.steps| && plan.steps[p].write == SetWorkload(o')
  }

  /** The workload is as the controller finds it before any operation. */
  predicate NoOwnedKeys(o: Obj) {
    o == ClearAll(o)
  }

  // ---------- Atomic runs ----------

  /** A controller step with the fates of its writes, or somebody else setting spec.replicas. */
  datatype Event = Controller(action: Action, fates: seq<Fate>) | External(n: Int32)

  predicate SeesHpa(r: Read<Option<Hpa>>, hpa: Option<Hpa>) {
    r.Got? ==> r.value == hpa
  }

  /** What the action read about HPAs is the current HPA, and Kubernetes names are not empty. */
  predicate Fresh(hpa: Option<Hpa>, a: Action) {
    match a
    case DrainReconcile(node, x) => node != "" && SeesHpa(x.hpaCheck, hpa) && SeesHpa(x.hpa, hpa)
    case RestartReconcile(x) => SeesHpa(x.hpa, hpa)
    case _ => true
  }

  predicate Next(cfg: Config, w: World, e: Event, w': World) {
    match e
    case Controller(a, fates) => Fresh(w.hpa, a) && w' == Execute(w, PlanOf(cfg, w.obj, a), fates).world
    case External(n) => w' == w.(obj := w.obj.(replicas := n))
  }

  predicate Run(cfg: Config, ws: seq<World>, es: seq<Event>) {
    && |ws| == |es| + 1
    && forall i :: 0 <= i < |es| ==> Next(cfg, ws[i], es[i], ws[i + 1])
  }

  /** However a plan's writes fare, the workload is left alone or becomes what one of them made it. */
  lemma {:induction false} ExecuteObj(w: World, plan: Plan, fates: seq<Fate>)
    ensures var w' := Execute(w, plan, fates).world; w'.obj == w.obj || Saves(plan, w'.obj)
    decreases |plan.steps|
  {
    if plan.steps != [] {
      var f := if fates == [] then Lost else fates[0];
      var x := plan.steps[0];
      var w1 := if f != Lost then Land(w, x.write) else w;
      if f != Lost && x.write.SetWorkload? {
        assert Saves(plan, w1.obj);
      }
      if !(x.required && !Succeeds(w, x.write, f)) {
        var rest := Plan(plan.steps[1..], plan.result);
        var fates' := if fates == [] then [] else fates[1..];
        ExecuteObj(w1, rest, fates');
        var o' := Execute(w1, rest, fates').world.obj;
        if Saves(rest, o') {
          var p :| 0 <= p < |rest.steps| && rest.steps[p].write == SetWorkload(o');
          assert plan.steps[p + 1].write == SetWorkload(o');
        }
      }
    }
  }

  /** The fate of write number p: one past the end is lost. */
  function FateAt(fates: seq<Fate>, p: nat): Fate {
    if p < |fates| then fates[p] else Lost
  }

  /** A plan of one write. */
  lemma ExecuteOne(w: World, x: Step, r: Result, fates: seq<Fate>)
    ensures Execute(w, Plan([x], r), fates).world == if FateAt(fates, 0) == Lost then w else Land(w, x.write)
  {
  }

  // ---------- Stale runs ----------

  /**
   One write reaching the server: the action was decided on the workload as it was in state snap,
   and write number pick of its plan lands now; or somebody else sets spec.replicas.
   */
  datatype Landing = Landing(action: Action, snap: nat, pick: nat) | Reset(n: Int32)

  ghost predicate SeenIn(h: seq<World>, r: Read<Option<Hpa>>) {
    r.Got? ==> exists k :: 0 <= k < |h| && h[k].hpa == r.value
  }

  /** Each HPA read of the action saw the HPA of some earlier state, independently of snap. */
  ghost predicate HpaSeenIn(h: seq<World>, a: Action) {
    match a
    case DrainReconcile(_, x) => SeenIn(h, x.hpaCheck) && SeenIn(h, x.hpa)
    case RestartReconcile(x) => SeenIn(h, x.hpa)
    case _ => true
  }

  /** The write that a landing brings to the server. */
  ghost predicate Lands(cfg: Config, h: seq<World>, m: Landing, x: Write) {
    && m.Landing?
    && m.snap < |h|
    && HpaSeenIn(h, m.action)
    && var plan := PlanOf(cfg, h[m.snap].obj, m.action);
    && m.pick < |plan.steps|
    && x == plan.steps[m.pick].write
  }

  ghost predicate StaleNext(cfg: Config, h: seq<World>, m: Landing, w': World)
    requires h != []
  {
    var w := h[|h| - 1];
    if m.Landing? then exists x :: Lands(cfg, h, m, x) && w' == Land(w, x)
    else w' == w.(obj := w.obj.(replicas := m.n))
  }

  ghost predicate StaleRun(cfg: Config, h: seq<World>, ms: seq<Landing>) {
    && |h| == |ms| + 1
    && forall i :: 0 <= i < |ms| ==> StaleNext(cfg, h[..i + 1], ms[i], h[i + 1])
  }

  // ---------- Atomic runs are stale runs ----------

  lemma Longer(h: seq<World>, w: World, a: Action)
    requires HpaSeenIn(h, a)
    ensures HpaSeenIn(h + [w], a)
  {
    var more := h + [w];
    forall k | 0 <= k < |h| ensures more[k].hpa == h[k].hpa {
    }
  }

  /** A run that is one landing longer. */
  lemma Extend(cfg: Config, h: seq<World>, ms: seq<Landing>, m: Landing, w: World)
    requires StaleRun(cfg, h, ms) && StaleNext(cfg, h, m, w)
    ensures StaleRun(cfg, h + [w], ms + [m])
  {
    var h', ms' := h + [w], ms + [m];
    forall i | 0 <= i < |ms'| ensures StaleNext(cfg, h'[..i + 1], ms'[i], h'[i + 1]) {
      if i < |ms| {
        assert h'[..i + 1] == h[..i + 1];
      } else {
        assert h'[..i + 1] == h;
      }
    }
  }

  /** Kubernetes names are not empty. */
  predicate ValidNode(a: Action) {
    a.DrainReconcile? ==> a.node != ""
  }

  predicate ValidNodes(ms: seq<Landing>) {
    forall k :: 0 <= k < |ms| && ms[k].Landing? ==> ValidNode(ms[k].action)
  }

  /** The resets among the landings are to these numbers only. */
  predicate ResetsWithin(ms: seq<Landing>, resets: set<int>) {
    forall k :: 0 <= k < |ms| && ms[k].Reset? ==> ms[k].n in resets
  }

  /** Write number p of a plan decided on state snap lands now. */
  lemma LandOne(cfg: Config, h: seq<World>, ms: seq<Landing>, a: Action, snap: nat, p: nat, x: Write)
    requires StaleRun(cfg, h, ms) && Lands(cfg, h, Landing.Landing(a, snap, p), x)
    ensures var w := Land(h[|h| - 1], x);
            StaleRun(cfg, h + [w], ms + [Landing.Landing(a, snap, p)]) && HpaSeenIn(h + [w], a)
  {
    var w, m := Land(h[|h| - 1], x), Landing.Landing(a, snap, p);
    assert StaleNext(cfg, h, m, w);
    Extend(cfg, h, ms, m, w);
    Longer(h, w, a);
  }

  /** The landings go on with landings of the action. */
  predicate Continues(ms: seq<Landing>, ms': seq<Landing>, a: Action) {
    ms <= ms' && forall k :: |ms| <= k < |ms'| ==> ms'[k].Landing? && ms'[k].action == a
  }

  lemma ContinuesWithin(ms: seq<Landing>, ms': seq<Landing>, a: Action, resets: set<int>)
    requires Continues(ms, ms', a) && ResetsWithin(ms, resets)
    ensures ResetsWithin(ms', resets) && (ValidNodes(ms) && ValidNode(a) ==> ValidNodes(ms'))
  {
    forall k | 0 <= k < |ms| ensures ms'[k] == ms[k] {
    }
  }

  /** The picked writes, landing one after the other. */
  function LandAll(w: World, steps: seq<Step>, picks: seq<nat>): World
    requires forall k :: 0 <= k < |picks| ==> picks[k] < |steps|
    decreases |picks|
  {
    if picks == [] then w else LandAll(Land(w, steps[picks[0]].write), steps, picks[1..])
  }

  /** Carrying a plan out from write number p on lands some of its writes, whatever their fates. */
  lemma {:induction false} ExecuteLandsSome(w: World, plan: Plan, p: nat, fates: seq<Fate>) returns (picks: seq<nat>)
    requires p <= |plan.steps|
    ensures forall k :: 0 <= k < |picks| ==> picks[k] < |plan.steps|
    ensures LandAll(w, plan.steps, picks) == Execute(w, Plan(plan.steps[p..], plan.result), fates).world
    decreases |plan.steps| - p
  {
    picks := [];
    if p < |plan.steps| {
      var x, f := plan.steps[p], if fates == [] then Lost else fates[0];
      var w' := if f != Lost then Land(w, x.write) else w;
      assert plan.steps[p..][0] == x && plan.steps[p..][1..] == plan.steps[p + 1..];
      if !(x.required && !Succeeds(w, x.write, f)) {
        picks := ExecuteLandsSome(w', plan, p + 1, if fates == [] then [] else fates[1..]);
      }
      if f != Lost {
        var rest := picks;
        picks := [p] + rest;
        assert picks[1..] == rest;
      }
    }
  }

  /** Landing writes of a plan, however old the state it was decided on, extends a stale run. */
  lemma {:induction false} LandingsExtend(cfg: Config, h: seq<World>, ms: seq<Landing>, a: Action, snap: nat,
                                          steps: seq<Step>, picks: seq<nat>)
    returns (h': seq<World>, ms': seq<Landing>)
    requires StaleRun(cfg, h, ms) && snap < |h| && HpaSeenIn(h, a)
    requires steps == PlanOf(cfg, h[snap].obj, a).steps && forall k :: 0 <= k < |picks| ==> picks[k] < |steps|
    ensures StaleRun(cfg, h', ms') && h <= h' && Continues(ms, ms', a)
    ensures h'[|h'| - 1] == LandAll(h[|h| - 1], steps, picks)
    decreases |picks|
  {
    h', ms' := h, ms;
    if picks != [] {
      var w, m := Land(h[|h| - 1], steps[picks[0]].write), Landing.Landing(a, snap, picks[0]);
      LandOne(cfg, h, ms, a, snap, picks[0], steps[picks[0]].write);
      h', ms' := LandingsExtend(cfg, h + [w], ms + [m], a, snap, steps, picks[1..]);
      assert ms'[|ms|] == (ms + [m])[|ms|];
    }
  }

  /**
   Every atomic run is a stale run, seen write by write: for each of its states there is a stale run
   from the same start that ends there, with no other resets. What holds of all stale runs thus holds
   of all atomic ones.
   */
  lemma {:induction false} AtomicRunsAreStale(cfg: Config, ws: seq<World>, es: seq<Event>, i: nat, resets: set<int>)
    returns (h: seq<World>, ms: seq<Landing>)
    requires Run(cfg, ws, es) && i < |ws|
    requires forall k :: 0 <= k < |es| && es[k].External? ==> es[k].n in resets
    ensures StaleRun(cfg, h, ms) && h[0] == ws[0] && h[|h| - 1] == ws[i] && ResetsWithin(ms, resets)
    ensures ValidNodes(ms)
  {
    if i == 0 {
      return [ws[0]], [];
    }
    h, ms := AtomicRunsAreStale(cfg, ws, es, i - 1, resets);
    var w, e := ws[i - 1], es[i - 1];
    assert Next(cfg, w, e, ws[i]);
    match e
    case External(n) =>
      Extend(cfg, h, ms, Reset(n), ws[i]);
      h, ms := h + [ws[i]], ms + [Reset(n)];
    case Controller(a, fates) =>
      assert h[|h| - 1].hpa == w.hpa;
      var plan := PlanOf(cfg, w.obj, a);
      assert Plan(plan.steps[0..], plan.result) == plan;
      var picks := ExecuteLandsSome(w, plan, 0, fates);
      var before := ms;
      h, ms := LandingsExtend(cfg, h, ms, a, |h| - 1, plan.steps, picks);
      ContinuesWithin(before, ms, a, resets);
  }
}
