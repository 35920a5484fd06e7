/**
 Runs of the whole cluster: many workloads and many HPAs, one handler at a time, any failures. As long as
 no HPA is pointed at another workload, no two workloads ever share one, and each workload goes through
 a run of the single-workload model.
 */
module ClusterRuns {
  import opened Base
  import opened Surge
  import opened DM = DrainMachine
  import opened RM = RestartMachine
  import J = Joint
  import NL = NoLeak
  import HB = HpaBaseline
  import opened Store
  import opened Order
  import SH = SharedHpa

  /** A handler at work on one workload, or somebody else setting its spec.replicas. */
  datatype Event = On(id: Id, action: J.Action, fates: seq<Fate>) | Outside(id: Id, n: Int32)

  /** The handler reads the HPAs as they are and finds the workload's own by first match. */
  predicate Next(cfg: Config, s: Store, e: Event, s': Store) {
    && e.id in s.objs
    && match e
       case On(id, a, fates) =>
         J.Fresh(Match(s.hpas, id), a) && s' == ExecuteIn(s, id, J.PlanOf(cfg, s.objs[id], a), fates).store
       case Outside(id, n) => s' == s.(objs := s.objs[id := s.objs[id].(replicas := n)])
  }

  predicate Run(cfg: Config, ss: seq<Store>, es: seq<Event>) {
    && |ss| == |es| + 1
    && forall i :: 0 <= i < |es| ==> Next(cfg, ss[i], es[i], ss[i + 1])
  }

  /** Nothing is on record yet. */
  predicate Clean(s: Store) {
    Proper(s.hpas) && forall id :: id in s.objs ==> J.NoOwnedKeys(s.objs[id])
  }

  /** No workload has an HPA on record but the one that targets it. */
  predicate OwnRecords(s: Store) {
    Proper(s.hpas) && forall id :: id in s.objs ==> OwnRecord(s.objs[id], Match(s.hpas, id))
  }

  // ---------- One event ----------

  /** What a plan does with HPAs concerns the one on record and the one that was found. */
  predicate Concerns(plan: Plan, o: Obj, hpa: Option<Hpa>) {
    forall p :: 0 <= p < |plan.steps| ==>
      match plan.steps[p].write
      case SetWorkload(o') =>
        o'.hpaName == EMPTY || o'.hpaName == o.hpaName || (hpa.Some? && o'.hpaName == Text(hpa.value.name))
      case SurgeHpa(name, _) => hpa.Some? && name == Text(hpa.value.name)
      case RestoreHpa(name, _) => o.hpaName != EMPTY && name == o.hpaName
  }

  lemma DrainConcerns(cfg: Config, o: Obj, node: string, x: DrainInputs, hpa: Option<Hpa>)
    requires J.SeesHpa(x.hpa, hpa)
    ensures Concerns(DM.DrainPlan(cfg, o, node, x), o, hpa)
  {
    if o.drain == Ready {
      EvictionConcerns(cfg, o, node, x, hpa);
    }
  }

  lemma EvictionConcerns(cfg: Config, o: Obj, node: string, x: DrainInputs, hpa: Option<Hpa>)
    ensures Concerns(DM.WaitEviction(cfg, o, node, x), o, hpa)
  {
  }

  lemma RestartConcerns(cfg: Config, o: Obj, x: RestartInputs, hpa: Option<Hpa>)
    requires J.SeesHpa(x.hpa, hpa)
    ensures Concerns(RM.RestartPlan(cfg, o, x), o, hpa)
  {
    if o.restart == Ready {
      ArgoConcerns(cfg, o, x, hpa);
    }
  }

  lemma ArgoConcerns(cfg: Config, o: Obj, x: RestartInputs, hpa: Option<Hpa>)
    ensures Concerns(RM.WaitForArgo(cfg, o, x), o, hpa)
  {
  }

  lemma PlanConcerns(cfg: Config, o: Obj, a: J.Action, hpa: Option<Hpa>)
    requires J.Fresh(hpa, a)
    ensures Concerns(J.PlanOf(cfg, o, a), o, hpa)
  {
    match a
    case DrainReconcile(node, x) => DrainConcerns(cfg, o, node, x, hpa);
    case RestartReconcile(x) => RestartConcerns(cfg, o, x, hpa);
    case _ =>
  }

  /** The HPA that targets the workload, by number. */
  function OwnLinks(s: Store, id: Id): set<nat> {
    set k: nat | k < |s.hpas| && Match(s.hpas, id).Some? && Names(s.hpas[k], id.ns, Text(Match(s.hpas, id).value.name))
  }

  /** A handler of a workload with no HPA but its own on record has the single-workload outcome. */
  lemma OwnOutcome(s: Store, id: Id, plan: Plan, fates: seq<Fate>)
    requires id in s.objs && Proper(s.hpas) && OwnRecord(s.objs[id], Match(s.hpas, id))
    requires Concerns(plan, s.objs[id], Match(s.hpas, id))
    ensures var s' := ExecuteIn(s, id, plan, fates).store;
            && WorldOf(s', id) == Execute(WorldOf(s, id), plan, fates).world
            && Local(s, s', id, OwnLinks(s, id))
  {
    assert forall p :: 0 <= p < |plan.steps| && !plan.steps[p].write.SetWorkload? ==>
        Match(s.hpas, id).Some? && plan.steps[p].write.name == Text(Match(s.hpas, id).value.name);
    ExecuteProjects(s, id, plan, fates);
    ExecuteIsLocal(s, s, id, plan, fates, OwnLinks(s, id));
  }

  /** It leaves no other record. */
  lemma OwnRecordKept(w: World, plan: Plan, fates: seq<Fate>)
    requires OwnRecord(w.obj, w.hpa) && Concerns(plan, w.obj, w.hpa)
    ensures OwnRecord(Execute(w, plan, fates).world.obj, w.hpa)
  {
    J.ExecuteObj(w, plan, fates);
    var o' := Execute(w, plan, fates).world.obj;
    if o' != w.obj {
      var p :| 0 <= p < |plan.steps| && plan.steps[p].write == SetWorkload(o');
    }
  }

  lemma SameShapeProper(s: Store, s': Store)
    requires Proper(s.hpas) && SameShape(s.hpas, s'.hpas)
    ensures Proper(s'.hpas)
  {
  }

  /** What changes only a workload and its own HPA is not noticed by any other workload. */
  lemma OthersUnmoved(s: Store, s': Store, id: Id, other: Id)
    requires Proper(s.hpas) && Local(s, s', id, OwnLinks(s, id)) && id in s.objs && other in s.objs && other != id
    ensures other in s'.objs && WorldOf(s', other) == WorldOf(s, other)
  {
    SameIndex(s.hpas, s'.hpas, other);
    var k := MatchIndex(s.hpas, other);
    if k < |s.hpas| && k in OwnLinks(s, id) {
      SH.MatchesApart(s, id, other);
    }
  }

  /** The event as the single-workload model has it. */
  function Own(e: Event): J.Event {
    match e
    case On(_, a, fates) => J.Controller(a, fates)
    case Outside(_, n) => J.External(n)
  }

  /** What an event does to a workload's own world: a step of the single-workload model, or nothing. */
  predicate Moves(cfg: Config, e: Event, id: Id, w: World, w': World) {
    if e.id == id then J.Next(cfg, w, Own(e), w') else w' == w
  }

  ghost predicate AllMove(cfg: Config, ws: seq<World>, es: seq<Event>, id: Id) {
    |ws| == |es| + 1 && forall k :: 0 <= k < |es| ==> Moves(cfg, es[k], id, ws[k], ws[k + 1])
  }

  lemma HandlerStep(cfg: Config, s: Store, e: Event, s': Store)
    requires OwnRecords(s) && Next(cfg, s, e, s') && e.On?
    ensures s'.objs.Keys == s.objs.Keys && Local(s, s', e.id, OwnLinks(s, e.id))
    ensures Moves(cfg, e, e.id, WorldOf(s, e.id), WorldOf(s', e.id))
    ensures OwnRecord(s'.objs[e.id], Match(s'.hpas, e.id))
  {
    var id, plan := e.id, J.PlanOf(cfg, s.objs[e.id], e.action);
    PlanConcerns(cfg, s.objs[id], e.action, Match(s.hpas, id));
    OwnOutcome(s, id, plan, e.fates);
    OwnRecordKept(WorldOf(s, id), plan, e.fates);
    SameIndex(s.hpas, s'.hpas, id);
  }

  lemma OnlyOneMoves(s: Store, s': Store, id: Id)
    requires OwnRecords(s) && id in s.objs && Local(s, s', id, OwnLinks(s, id))
    requires OwnRecord(s'.objs[id], Match(s'.hpas, id))
    ensures OwnRecords(s') && s'.objs.Keys == s.objs.Keys
    ensures forall other :: other in s.objs && other != id ==> WorldOf(s', other) == WorldOf(s, other)
  {
    SameShapeProper(s, s');
    forall other | other in s.objs && other != id
      ensures WorldOf(s', other) == WorldOf(s, other) && OwnRecord(s'.objs[other], Match(s'.hpas, other))
    {
      OthersUnmoved(s, s', id, other);
      assert OwnRecord(WorldOf(s', other).obj, WorldOf(s', other).hpa);
    }
  }

  lemma StepKeepsOwn(cfg: Config, s: Store, e: Event, s': Store)
    requires OwnRecords(s) && Next(cfg, s, e, s')
    ensures OwnRecords(s') && s'.objs.Keys == s.objs.Keys
    ensures forall id :: id in s.objs && id != e.id ==> WorldOf(s', id) == WorldOf(s, id)
  {
    if e.On? {
      HandlerStep(cfg, s, e, s');
      OnlyOneMoves(s, s', e.id);
    } else {
      OutsideMoves(s, e.id, e.n);
    }
  }

  lemma OutsideMoves(s: Store, id: Id, n: Int32)
    requires OwnRecords(s) && id in s.objs
    ensures var s' := s.(objs := s.objs[id := s.objs[id].(replicas := n)]);
            OwnRecords(s') && s'.objs.Keys == s.objs.Keys
  {
  }

  lemma StepProjects(cfg: Config, s: Store, e: Event, s': Store, id: Id)
    requires OwnRecords(s) && Next(cfg, s, e, s') && id in s.objs
    ensures id in s'.objs && Moves(cfg, e, id, WorldOf(s, id), WorldOf(s', id))
  {
    if e.id != id {
      StepKeepsOwn(cfg, s, e, s');
    } else if e.On? {
      HandlerStep(cfg, s, e, s');
    }
  }

  // ---------- Whole runs ----------

  lemma {:induction false} StaysOwn(cfg: Config, ss: seq<Store>, es: seq<Event>, i: nat)
    requires Run(cfg, ss, es) && Clean(ss[0]) && i < |ss|
    ensures OwnRecords(ss[i]) && ss[i].objs.Keys == ss[0].objs.Keys
  {
    if i > 0 {
      StaysOwn(cfg, ss, es, i - 1);
      StepKeepsOwn(cfg, ss[i - 1], es[i - 1], ss[i]);
    }
  }

  /** The events among the first n that concern a workload, in order. */
  function OwnEvents(es: seq<Event>, id: Id, n: nat): seq<J.Event>
    requires n <= |es|
  {
    if n == 0 then []
    else if es[n - 1].id == id then OwnEvents(es, id, n - 1) + [Own(es[n - 1])]
    else OwnEvents(es, id, n - 1)
  }

  /** Of a workload's worlds, the first one and those after each of these events. */
  function OwnWorlds(ws: seq<World>, es: seq<Event>, id: Id, n: nat): (r: seq<World>)
    requires n <= |es| < |ws|
    ensures r != [] && r[0] == ws[0] && |r| == |OwnEvents(es, id, n)| + 1
  {
    if n == 0 then [ws[0]]
    else if es[n - 1].id == id then OwnWorlds(ws, es, id, n - 1) + [ws[n]]
    else OwnWorlds(ws, es, id, n - 1)
  }

  lemma RunSnoc(cfg: Config, ws: seq<World>, js: seq<J.Event>, j: J.Event, w: World)
    requires J.Run(cfg, ws, js) && J.Next(cfg, ws[|ws| - 1], j, w)
    ensures J.Run(cfg, ws + [w], js + [j])
  {
  }

  lemma {:induction false} MovesAreRun(cfg: Config, ws: seq<World>, es: seq<Event>, id: Id, n: nat)
    requires AllMove(cfg, ws, es, id) && n <= |es|
    ensures var r := OwnWorlds(ws, es, id, n); J.Run(cfg, r, OwnEvents(es, id, n)) && r[|r| - 1] == ws[n]
  {
    if n > 0 {
      MovesAreRun(cfg, ws, es, id, n - 1);
      assert Moves(cfg, es[n - 1], id, ws[n - 1], ws[n]);
      if es[n - 1].id == id {
        RunSnoc(cfg, OwnWorlds(ws, es, id, n - 1), OwnEvents(es, id, n - 1), Own(es[n - 1]), ws[n]);
      }
    }
  }

  lemma RunMoves(cfg: Config, ss: seq<Store>, es: seq<Event>, id: Id, i: nat)
    requires Run(cfg, ss, es) && Clean(ss[0]) && i < |es| && id in ss[0].objs
    ensures id in ss[i].objs && id in ss[i + 1].objs
            && Moves(cfg, es[i], id, WorldOf(ss[i], id), WorldOf(ss[i + 1], id))
  {
    StaysOwn(cfg, ss, es, i);
    StepProjects(cfg, ss[i], es[i], ss[i + 1], id);
  }

  /** The workload's world in every state of a run. */
  ghost predicate WorldsOf(ss: seq<Store>, id: Id, ws: seq<World>) {
    |ws| == |ss| && forall k :: 0 <= k < |ss| ==> id in ss[k].objs && ws[k] == WorldOf(ss[k], id)
  }

  /** Event q of a workload's own run is one of the cluster's, and meets the workload as it was then. */
  lemma {:induction false} OwnAt(cfg: Config, ws: seq<World>, es: seq<Event>, id: Id, n: nat, q: nat) returns (k: nat)
    requires AllMove(cfg, ws, es, id) && n <= |es|
    requires q < |OwnEvents(es, id, n)|
    ensures k < n && es[k].id == id && OwnEvents(es, id, n)[q] == Own(es[k]) && OwnWorlds(ws, es, id, n)[q] == ws[k]
  {
    if q < |OwnEvents(es, id, n - 1)| {
      k := OwnAt(cfg, ws, es, id, n - 1, q);
    } else {
      k := n - 1;
      MovesAreRun(cfg, ws, es, id, n - 1);
    }
  }

  lemma WorldsMove(cfg: Config, ss: seq<Store>, es: seq<Event>, id: Id) returns (ws: seq<World>)
    requires Run(cfg, ss, es) && Clean(ss[0]) && id in ss[0].objs
    ensures WorldsOf(ss, id, ws) && AllMove(cfg, ws, es, id)
  {
    forall k | 0 <= k < |ss| ensures id in ss[k].objs {
      StaysOwn(cfg, ss, es, k);
    }
    ws := seq(|ss|, k requires 0 <= k < |ss| => WorldOf(ss[k], id));
    forall k | 0 <= k < |es| ensures Moves(cfg, es[k], id, ws[k], ws[k + 1]) {
      RunMoves(cfg, ss, es, id, k);
    }
  }

  /**
   Every workload goes through a run of the single-workload model: the events that concern it lead,
   in order, from its first world to its world in every state, whatever the other workloads do.
   */
  lemma ProjectsToRun(cfg: Config, ss: seq<Store>, es: seq<Event>, id: Id, n: nat) returns (ws: seq<World>)
    requires Run(cfg, ss, es) && Clean(ss[0]) && id in ss[0].objs && n <= |es|
    ensures WorldsOf(ss, id, ws)
    ensures var r := OwnWorlds(ws, es, id, n);
            J.Run(cfg, r, OwnEvents(es, id, n)) && r[0] == ws[0] && r[|r| - 1] == ws[n]
  {
    ws := WorldsMove(cfg, ss, es, id);
    MovesAreRun(cfg, ws, es, id, n);
  }

  lemma OwnLink(job: Job, s: Store, id: Id, k: nat)
    requires OwnRecords(s) && id in s.objs && k < |s.hpas| && LinkedTo(job, s, id, k)
    ensures Match(s.hpas, id).Some? && Names(s.hpas[k], id.ns, Text(Match(s.hpas, id).value.name))
  {
    assert OwnRecord(s.objs[id], Match(s.hpas, id));
  }

  lemma OwnRecordsDisjoint(job: Job, s: Store, ids: set<Id>)
    requires OwnRecords(s) && ids <= s.objs.Keys
    ensures Disjoint(job, s, ids)
  {
    forall a, b, k | a in ids && b in ids && k in LinksOf(job, s)(a) && k in LinksOf(job, s)(b) ensures a == b {
      OwnLink(job, s, a, k);
      OwnLink(job, s, b, k);
      SH.MatchesApart(s, a, b);
    }
  }

  /** No two workloads ever share an HPA, so in every reachable state the loops do not depend on their order. */
  lemma OrderNeverMatters(cfg: Config, ss: seq<Store>, es: seq<Event>, i: nat, job: Job, ids: set<Id>, xs: seq<Id>,
                          ys: seq<Id>)
    requires Run(cfg, ss, es) && Clean(ss[0]) && i < |ss|
    requires ids <= ss[i].objs.Keys && Lists(xs, ids) && Lists(ys, ids)
    ensures Disjoint(job, ss[i], ids) && InOrder(Doing(job), ss[i], xs) == InOrder(Doing(job), ss[i], ys)
  {
    StaysOwn(cfg, ss, es, i);
    OwnRecordsDisjoint(job, ss[i], ids);
    OrderDoesNotMatter(job, ss[i], ids, xs, ys);
  }

  lemma OwnNoLeak(cfg: Config, ws: seq<World>, es: seq<Event>, i: nat, id: Id)
    requires AllMove(cfg, ws, es, id) && i < |ws|
    requires ws[0].hpa.None? && ws[0].obj.replicas == 1 && J.NoOwnedKeys(ws[0].obj)
    requires forall k :: 0 <= k < |es| && es[k].Outside? && es[k].id == id ==> es[k].n == 1
    ensures NL.Accounted(ws[i].obj)
  {
    var r, js := OwnWorlds(ws, es, id, i), OwnEvents(es, id, i);
    forall q | 0 <= q < |js| && js[q].External? ensures js[q].n == 1 {
      var k := OwnAt(cfg, ws, es, id, i, q);
      assert es[k].Outside? && es[k].id == id;
    }
    MovesAreRun(cfg, ws, es, id, i);
    NL.NoLeakedSurgeAtomically(cfg, r, js, |r| - 1);
  }

  /** The single-workload theorem in the cluster: without an HPA of its own, no workload keeps a surge behind. */
  lemma ClusterNoLeak(cfg: Config, ss: seq<Store>, es: seq<Event>, i: nat, id: Id)
    requires Run(cfg, ss, es) && Clean(ss[0]) && i < |ss| && id in ss[0].objs
    requires Match(ss[0].hpas, id).None? && ss[0].objs[id].replicas == 1
    requires forall k :: 0 <= k < |es| && es[k].Outside? && es[k].id == id ==> es[k].n == 1
    ensures id in ss[i].objs && NL.Accounted(ss[i].objs[id])
  {
    var ws := WorldsMove(cfg, ss, es, id);
    OwnNoLeak(cfg, ws, es, i, id);
  }

  /** Among the handlers of the workload none swallows a failed restore. */
  ghost predicate NothingSwallowed(cfg: Config, ws: seq<World>, es: seq<Event>, id: Id)
    requires |ws| == |es| + 1
  {
    forall k :: 0 <= k < |es| && es[k].On? && es[k].id == id ==>
      HB.NoSwallowedRestore(J.PlanOf(cfg, ws[k].obj, es[k].action), es[k].fates)
  }

  lemma OwnBaseline(cfg: Config, ws: seq<World>, es: seq<Event>, i: nat, id: Id, hpa: Hpa, base: Int32)
    requires AllMove(cfg, ws, es, id) && i < |ws|
    requires ws[0].hpa == Some(hpa) && hpa.name != "" && J.NoOwnedKeys(ws[0].obj) && NothingSwallowed(cfg, ws, es, id)
    requires HB.IsBaseline(hpa.min, base)
    ensures HB.ConservedFor(ws[i], hpa.name, base)
  {
    var r, js := OwnWorlds(ws, es, id, i), OwnEvents(es, id, i);
    forall q | 0 <= q < |js| && js[q].Controller?
      ensures HB.NoSwallowedRestore(J.PlanOf(cfg, r[q].obj, js[q].action), js[q].fates)
    {
      var k := OwnAt(cfg, ws, es, id, i, q);
      assert es[k].On? && es[k].id == id;
    }
    MovesAreRun(cfg, ws, es, id, i);
    HB.BaselineConserved(cfg, r, js, |r| - 1, hpa, base);
  }

  /** And with one, its minimum is never lost, whatever happens to other workloads and their HPAs. */
  lemma ClusterBaseline(cfg: Config, ss: seq<Store>, es: seq<Event>, i: nat, id: Id, hpa: Hpa,
                        base: Int32, ws: seq<World>)
    requires Run(cfg, ss, es) && Clean(ss[0]) && i < |ss| && id in ss[0].objs && Match(ss[0].hpas, id) == Some(hpa)
    requires WorldsOf(ss, id, ws) && NothingSwallowed(cfg, ws, es, id) && HB.IsBaseline(hpa.min, base)
    ensures HB.ConservedFor(ws[i], hpa.name, base)
  {
    var same := WorldsMove(cfg, ss, es, id);
    assert same == ws;
    OwnBaseline(cfg, ws, es, i, id, hpa, base);
  }

  // ---------- The loops are runs ----------

  /** Each look at a workload, in any of the loops, is an event. */
  lemma JobIsEvent(cfg: Config, job: Job, s: Store, id: Id) returns (e: Event)
    requires id in s.objs && (job.ReconcileJob? ==> job.cfg == cfg && job.node != "")
    requires job.AbortJob? ==> s.objs[id].node.Text? && s.objs[id].node != EMPTY
    ensures Next(cfg, s, e, Do(job, s, id).store)
  {
    match job
    case ReconcileJob(_, node, env) =>
      e := On(id, J.DrainReconcile(node, Seeing(env(id).x, Match(s.hpas, id))), env(id).fates);
    case AbortJob(fates) => e := On(id, J.NodeGone(s.objs[id].node.s), fates(id));
    case OrphanJob(tainted, fates) => e := On(id, J.DrainOrphanScan(tainted), fates(id));
    case RestartOrphanJob(ros, fates) => e := On(id, J.RestartOrphanScan(ros(id)), fates(id));
  }

  lemma ClusterRunSnoc(cfg: Config, ss: seq<Store>, es: seq<Event>, e: Event, s: Store)
    requires Run(cfg, ss, es) && Next(cfg, ss[|ss| - 1], e, s)
    ensures Run(cfg, ss + [s], es + [e])
  {
  }

  /** A node reconcile, or an orphan scan, over any workloads in any order goes on with a run. */
  lemma {:induction false} LoopExtends(cfg: Config, ss: seq<Store>, es: seq<Event>, job: Job, xs: seq<Id>)
    returns (ss': seq<Store>, es': seq<Event>)
    requires Run(cfg, ss, es) && !job.AbortJob? && (job.ReconcileJob? ==> job.cfg == cfg && job.node != "")
    requires forall i :: 0 <= i < |xs| ==> xs[i] in ss[|ss| - 1].objs
    ensures Run(cfg, ss', es') && ss <= ss' && ss'[|ss'| - 1].objs.Keys == ss[|ss| - 1].objs.Keys
    ensures ss'[|ss'| - 1] == InOrder(Doing(job), ss[|ss| - 1], xs).store
    decreases |xs|
  {
    ss', es' := ss, es;
    if xs != [] {
      var id := xs[|xs| - 1];
      ss', es' := LoopExtends(cfg, ss, es, job, xs[..|xs| - 1]);
      var s := ss'[|ss'| - 1];
      var e := JobIsEvent(cfg, job, s, id);
      ClusterRunSnoc(cfg, ss', es', e, Do(job, s, id).store);
      ss', es' := ss' + [Do(job, s, id).store], es' + [e];
    }
  }
}
