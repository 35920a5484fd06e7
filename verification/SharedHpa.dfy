/** Two workloads that share an HPA: the order in which they are reconciled decides what becomes of both. */
module SharedHpa {
  import opened Base
  import opened Surge
  import opened Inputs
  import opened Scaler
  import opened Store
  import opened Order
  import DM = DrainMachine

  /** A workload that is draining from elsewhere, which a reconcile of the node leaves alone. */
  function Parked(hpaName: Value, elsewhere: string): Obj {
    Obj(1, ScaledUp, None, Text(elsewhere), None, hpaName, None, Idle, None)
  }

  /** A workload in `ready` on the node, about to restore an HPA to the minimum on record. */
  function Leaving(hpaName: Value, node: string, min: Int32): Obj {
    Obj(2, Ready, Some(1), Text(node), None, hpaName, Some(min), Idle, None)
  }

  /** A workload at one replica with no drain on record. */
  function Waiting(hpaName: Value): Obj {
    Obj(1, Idle, None, EMPTY, None, hpaName, None, Idle, None)
  }

  /** A drain through the HPA, on record since time zero. */
  function Started(node: string, hpaName: string, min: Int32): Obj {
    Obj(1, ScaledUp, Some(1), Text(node), Some(0), Text(hpaName), Some(min), Idle, None)
  }

  /** Opted in, stable, covered by a budget, and no pod left on any node, at time zero. */
  const EASY: DM.DrainInputs :=
    DM.DrainInputs(true, RolloutStatus(Rollout(Healthy, "", None, None)), Got(None), Got(true), Got(None), Got([]), 0)

  /** Reconciles of a node in that environment, whose writes all succeed. */
  function EasyJob(cfg: Config, node: string): Job {
    ReconcileJob(cfg, node, (id: Id) => Env(EASY, ALL_FINE))
  }

  lemma ParkedStays(cfg: Config, node: string, s: Store, id: Id, elsewhere: string)
    requires id in s.objs && s.objs[id] == Parked(s.objs[id].hpaName, elsewhere) && elsewhere != "" && elsewhere != node
    ensures Doing(EasyJob(cfg, node))(s, id) == Reply(s, Requeue(0))
  {
  }

  lemma LeavingRestores(cfg: Config, node: string, s: Store, id: Id, min: Int32)
    requires id in s.objs && s.objs[id] == Leaving(s.objs[id].hpaName, node, min) && node != ""
    requires s.objs[id].hpaName != EMPTY && Present(s.hpas, id.ns, s.objs[id].hpaName)
    ensures var name := s.objs[id].hpaName;
            Doing(EasyJob(cfg, node))(s, id) ==
            Reply(Store(s.objs[id := s.objs[id].(drain := Draining)], PatchMin(s.hpas, id.ns, name, min)),
                  Requeue(cfg.requeue))
  {
    var o := s.objs[id];
    var plan := DM.DrainPlan(cfg, o, node, Seeing(EASY, Match(s.hpas, id)));
    var x, y := Step(RestoreHpa(o.hpaName, min), true), Save(o.(drain := Draining));
    assert plan == Plan([x, y], Requeue(cfg.requeue));
    TwoIn(s, id, x, y, plan.result);
  }

  lemma TwoIn(s: Store, id: Id, x: Step, y: Step, r: Result)
    requires SucceedsIn(s, id, x.write, Fine) && SucceedsIn(LandIn(s, id, x.write), id, y.write, Fine)
    ensures ExecuteIn(s, id, Plan([x, y], r), ALL_FINE) == Reply(LandIn(LandIn(s, id, x.write), id, y.write), r)
  {
    var s' := LandIn(s, id, x.write);
    assert [x, y][1..] == [y] && [y][1..] == [];
    assert ALL_FINE[1..][0] == Fine;
    assert ExecuteIn(s', id, Plan([y], r), ALL_FINE[1..]) == Reply(LandIn(s', id, y.write), r);
  }

  lemma WaitingStarts(cfg: Config, node: string, s: Store, id: Id)
    requires id in s.objs && s.objs[id] == Waiting(s.objs[id].hpaName) && node != ""
    requires Match(s.hpas, id).Some? && Match(s.hpas, id).value.max >= 2
    ensures var h := Match(s.hpas, id).value;
            Doing(EasyJob(cfg, node))(s, id) ==
            if AtMin(h, 2) then Reply(s, Requeue(250 * MILLISECOND))
            else Reply(Store(s.objs[id := Started(node, h.name, MinOrDefault(h))],
                             PatchMin(s.hpas, id.ns, Text(h.name), 2)),
                       Requeue(cfg.requeue))
  {
    var o, h := s.objs[id], Match(s.hpas, id).value;
    assert TruncateToSecond(0) == 0;
    var plan := DM.DrainPlan(cfg, o, node, Seeing(EASY, Match(s.hpas, id)));
    if !AtMin(h, 2) {
      var x, y := Save(Started(node, h.name, MinOrDefault(h))), Step(SurgeHpa(Text(h.name), 2), true);
      assert plan == Plan([x, y], Requeue(cfg.requeue));
      assert Names(s.hpas[MatchIndex(s.hpas, id)], id.ns, Text(h.name));
      TwoIn(s, id, x, y, plan.result);
    }
  }

  // ---------- An idle workload whose HPA another one is about to restore ----------

  /**
   Workload a is in `ready` with b's HPA on record at minimum 1; the HPA stands at 2; b is eligible.
   Reconciled first, a puts the HPA back to 1, and b then records 1 and surges. Reconciled first, b
   finds the HPA at the surge target and defers by 250 milliseconds, and a puts the HPA back to 1.
   */
  lemma SharedHpaOrders(cfg: Config, node: string, s: Store, a: Id, b: Id)
    requires a in s.objs && b in s.objs && a != b && a.ns == b.ns && node != "" && cfg.requeue > 0
    requires Match(s.hpas, b).Some? && Match(s.hpas, b).value.min == Some(2) && Match(s.hpas, b).value.max >= 2
    requires var name := Text(Match(s.hpas, b).value.name);
             name != EMPTY && s.objs[a] == Leaving(name, node, 1) && s.objs[b] == Waiting(s.objs[b].hpaName)
    ensures var f, h, o := Doing(EasyJob(cfg, node)), Match(s.hpas, b).value, s.objs[a].(drain := Draining);
            var ab, ba := After(f, s, a, b), After(f, s, b, a);
            && ab.store.objs == s.objs[a := o][b := Started(node, h.name, 1)]
            && ba.store.objs == s.objs[a := o]
            && ab.store.hpas == PatchMin(s.hpas, b.ns, Text(h.name), 2)
            && ba.store.hpas == PatchMin(s.hpas, b.ns, Text(h.name), 1)
            && ab.requeueAfter == cfg.requeue
            && ba.requeueAfter == if cfg.requeue < 250 * MILLISECOND then cfg.requeue else 250 * MILLISECOND
  {
    var k, name := MatchIndex(s.hpas, b), s.objs[a].hpaName;
    assert Names(s.hpas[k], b.ns, name);
    LeavingRestores(cfg, node, s, a, 1);
    var s1 := Doing(EasyJob(cfg, node))(s, a).store;
    SameIndex(s.hpas, s1.hpas, b);
    WaitingStarts(cfg, node, s1, b);
    WaitingStarts(cfg, node, s, b);
    assert PatchMin(s1.hpas, b.ns, name, 2) == PatchMin(s.hpas, b.ns, name, 2);
  }

  /** Two workloads in `ready` that have the same HPA on record: the last one decides. */
  lemma SharedRecordOrders(cfg: Config, node: string, s: Store, a: Id, b: Id, k: nat, min: Int32, min': Int32)
    requires a in s.objs && b in s.objs && a != b && a.ns == b.ns && node != "" && k < |s.hpas|
    requires s.hpas[k].hpa.name != "" && Names(s.hpas[k], a.ns, s.objs[a].hpaName)
             && s.objs[b].hpaName == s.objs[a].hpaName
    requires s.objs[a] == Leaving(s.objs[a].hpaName, node, min) && s.objs[b] == Leaving(s.objs[b].hpaName, node, min')
    ensures var ab := After(Doing(EasyJob(cfg, node)), s, a, b);
            k < |ab.store.hpas| && ab.store.hpas[k].hpa.min == Some(min')
  {
    LeavingRestores(cfg, node, s, a, min);
    var s1 := Doing(EasyJob(cfg, node))(s, a).store;
    assert Names(s1.hpas[k], b.ns, s.objs[b].hpaName);
    LeavingRestores(cfg, node, s1, b, min');
  }

  /** The input in full: Rollouts a and b, and b's HPA h, on record at a. */
  lemma OrderMatters(cfg: Config)
    requires cfg.requeue == 10 * SECOND
    ensures var a, b := Id(RolloutKind, "ns", "a"), Id(RolloutKind, "ns", "b");
            var s := Store(map[a := Leaving(Text("h"), "n", 1), b := Waiting(EMPTY)],
                           [Listed("ns", "b", "Rollout", Hpa("h", Some(2), 5))]);
            var ab, ba := InOrder(Doing(EasyJob(cfg, "n")), s, [a, b]), InOrder(Doing(EasyJob(cfg, "n")), s, [b, a]);
            && b in ab.store.objs && ab.store.objs[b] == Started("n", "h", 1)
            && b in ba.store.objs && ba.store.objs[b] == Waiting(EMPTY)
            && ab.store.hpas == [Listed("ns", "b", "Rollout", Hpa("h", Some(2), 5))]
            && ba.store.hpas == [Listed("ns", "b", "Rollout", Hpa("h", Some(1), 5))]
            && ab.requeueAfter == 10 * SECOND
            && ba.requeueAfter == 250 * MILLISECOND
  {
    var a, b := Id(RolloutKind, "ns", "a"), Id(RolloutKind, "ns", "b");
    assert a.name[0] != b.name[0];
    var e := Listed("ns", "b", "Rollout", Hpa("h", Some(2), 5));
    var s := Store(map[a := Leaving(Text("h"), "n", 1), b := Waiting(EMPTY)], [e]);
    assert Targets(s.hpas[0], b.ns, b.name, KindText(b.kind));
    SharedHpaOrders(cfg, "n", s, a, b);
    JustTwo(Doing(EasyJob(cfg, "n")), s, a, b);
    JustTwo(Doing(EasyJob(cfg, "n")), s, b, a);
    assert PatchMin([e], "ns", Text("h"), 1) == [WithMin(e, 1)] && PatchMin([e], "ns", Text("h"), 2) == [e];
  }

  /** The job on one workload and then on another. */
  function After(f: Act, s: Store, a: Id, b: Id): Progress {
    Next(f, Next(f, Progress(s, 0, {}), a), b)
  }

  lemma JustTwo(f: Act, s: Store, a: Id, b: Id)
    ensures InOrder(f, s, [a, b]) == After(f, s, a, b)
  {
    LastTwo(f, s, [], a, b);
    assert [] + [a, b] == [a, b];
  }

  lemma LastTwo(f: Act, s: Store, rest: seq<Id>, a: Id, b: Id)
    ensures InOrder(f, s, rest + [a, b]) == Next(f, Next(f, InOrder(f, s, rest), a), b)
  {
    InOrderSnoc(f, s, rest, a);
    InOrderSnoc(f, s, rest + [a], b);
    assert rest + [a] + [b] == rest + [a, b];
  }

  // ---------- The exact condition ----------

  /** The same workloads, with the same HPAs on record, and the same HPAs up to their bounds. */
  ghost predicate SameLinks(s: Store, t: Store) {
    && t.objs.Keys == s.objs.Keys
    && (forall id :: id in s.objs ==> t.objs[id].hpaName == s.objs[id].hpaName)
    && SameShape(s.hpas, t.hpas)
  }

  /** With these links, no node reconcile depends on the order: for all states, reads, clocks and fates of writes. */
  ghost predicate OrderFree(s: Store, ids: set<Id>) {
    forall t, job: Job, xs, ys :: job.ReconcileJob? && SameLinks(s, t) && Lists(xs, ids) && Lists(ys, ids) ==>
      InOrder(Doing(job), t, xs) == InOrder(Doing(job), t, ys)
  }

  lemma SameDisjoint(job: Job, job': Job, s: Store, t: Store, ids: set<Id>)
    requires ids <= s.objs.Keys && SameLinks(s, t) && job.ReconcileJob? && job'.ReconcileJob? && Disjoint(job, s, ids)
    ensures Disjoint(job', t, ids)
  {
    forall id | id in ids ensures LinksOf(job', t)(id) == LinksOf(job, s)(id) {
      SameLinkSet(job, job', s, t, id);
    }
  }

  lemma {:induction false} ListOf(ids: set<Id>) returns (xs: seq<Id>)
    ensures Lists(xs, ids)
    decreases ids
  {
    xs := [];
    if ids != {} {
      var id :| id in ids;
      var front := ListOf(ids - {id});
      xs := front + [id];
    }
  }

  lemma ListsTwoMore(rest: seq<Id>, ids: set<Id>, a: Id, b: Id)
    requires a in ids && b in ids && a != b && Lists(rest, ids - {a, b})
    ensures Lists(rest + [a, b], ids)
  {
    var xs := rest + [a, b];
    forall id ensures id in xs <==> id in ids {
      assert id in xs <==> id in rest || id == a || id == b;
    }
  }

  lemma {:induction false} ParkedPrefix(cfg: Config, node: string, s: Store, xs: seq<Id>, elsewhere: string)
    requires elsewhere != "" && elsewhere != node
    requires forall i :: 0 <= i < |xs| ==> xs[i] in s.objs && s.objs[xs[i]] == Parked(s.objs[xs[i]].hpaName, elsewhere)
    ensures InOrder(Doing(EasyJob(cfg, node)), s, xs) == Progress(s, 0, {})
  {
    if xs != [] {
      ParkedPrefix(cfg, node, s, xs[..|xs| - 1], elsewhere);
      ParkedStays(cfg, node, s, xs[|xs| - 1], elsewhere);
    }
  }

  /** All workloads but two parked, and every HPA at a minimum of 2 and a maximum of 5. */
  function Stage(s: Store, a: Id, oa: Obj, b: Id, ob: Obj): Store
    requires a in s.objs && b in s.objs
  {
    Store((map id | id in s.objs :: Parked(s.objs[id].hpaName, "elsewhere"))[a := oa][b := ob],
          seq(|s.hpas|, k requires 0 <= k < |s.hpas| => s.hpas[k].(hpa := Hpa(s.hpas[k].hpa.name, Some(2), 5))))
  }

  lemma StageParks(cfg: Config, s: Store, ids: set<Id>, a: Id, oa: Obj, b: Id, ob: Obj, rest: seq<Id>)
    requires ids <= s.objs.Keys && a in ids && b in ids && Lists(rest, ids - {a, b})
    requires oa.hpaName == s.objs[a].hpaName && ob.hpaName == s.objs[b].hpaName
    ensures var t := Stage(s, a, oa, b, ob);
            SameLinks(s, t) && InOrder(Doing(EasyJob(cfg, "node")), t, rest) == Progress(t, 0, {})
  {
    var t := Stage(s, a, oa, b, ob);
    forall i | 0 <= i < |rest|
      ensures rest[i] in s.objs && t.objs[rest[i]] == Parked(s.objs[rest[i]].hpaName, "elsewhere")
    {
      assert rest[i] in rest;
    }
    assert "node"[0] != "elsewhere"[0];
    ParkedPrefix(cfg, "node", t, rest, "elsewhere");
  }

  lemma SwapAgrees(f: Act, s: Store, rest: seq<Id>, a: Id, b: Id)
    requires InOrder(f, s, rest) == Progress(s, 0, {}) && InOrder(f, s, rest + [a, b]) == InOrder(f, s, rest + [b, a])
    ensures After(f, s, a, b) == After(f, s, b, a)
  {
    LastTwo(f, s, rest, a, b);
    LastTwo(f, s, rest, b, a);
  }

  lemma ListsBoth(rest: seq<Id>, ids: set<Id>, a: Id, b: Id)
    requires a in ids && b in ids && a != b && Lists(rest, ids - {a, b})
    ensures Lists(rest + [a, b], ids) && Lists(rest + [b, a], ids)
  {
    ListsTwoMore(rest, ids, a, b);
    assert {a, b} == {b, a};
    ListsTwoMore(rest, ids, b, a);
  }

  lemma FreeAt(job: Job, s: Store, t: Store, ids: set<Id>, xs: seq<Id>, ys: seq<Id>)
    requires OrderFree(s, ids) && job.ReconcileJob? && SameLinks(s, t) && Lists(xs, ids) && Lists(ys, ids)
    ensures InOrder(Doing(job), t, xs) == InOrder(Doing(job), t, ys)
  {
  }

  /** If the order is free, it does not matter for two workloads either, with the others parked. */
  lemma StagedOrders(cfg: Config, s: Store, ids: set<Id>, a: Id, oa: Obj, b: Id, ob: Obj)
    requires ids <= s.objs.Keys && a in ids && b in ids && a != b && OrderFree(s, ids)
    requires oa.hpaName == s.objs[a].hpaName && ob.hpaName == s.objs[b].hpaName
    ensures var f, t := Doing(EasyJob(cfg, "node")), Stage(s, a, oa, b, ob);
            After(f, t, a, b) == After(f, t, b, a)
  {
    var rest := ListOf(ids - {a, b});
    StageParks(cfg, s, ids, a, oa, b, ob, rest);
    ListsBoth(rest, ids, a, b);
    var job, t := EasyJob(cfg, "node"), Stage(s, a, oa, b, ob);
    FreeAt(job, s, t, ids, rest + [a, b], rest + [b, a]);
    SwapAgrees(Doing(job), t, rest, a, b);
  }

  lemma RecordsApart(cfg: Config, s: Store, ids: set<Id>, a: Id, b: Id, k: nat)
    requires ids <= s.objs.Keys && OrderFree(s, ids) && Proper(s.hpas) && a in ids && b in ids && k < |s.hpas|
    requires Names(s.hpas[k], a.ns, s.objs[a].hpaName) && Names(s.hpas[k], b.ns, s.objs[b].hpaName)
    ensures a == b
  {
    if a != b {
      var name := s.objs[a].hpaName;
      var t := Stage(s, a, Leaving(name, "node", 1), b, Leaving(name, "node", 3));
      StagedOrders(cfg, s, ids, a, t.objs[a], b, t.objs[b]);
      SharedRecordOrders(cfg, "node", t, a, b, k, 1, 3);
      SharedRecordOrders(cfg, "node", t, b, a, k, 3, 1);
    }
  }

  lemma RecordAndMatchApart(cfg: Config, s: Store, ids: set<Id>, a: Id, b: Id)
    requires ids <= s.objs.Keys && OrderFree(s, ids) && Proper(s.hpas) && a in ids && b in ids && a.ns == b.ns
    requires Match(s.hpas, b).Some? && s.objs[a].hpaName == Text(Match(s.hpas, b).value.name) && cfg.requeue > 0
    ensures a == b
  {
    if a != b {
      var t := Stage(s, a, Leaving(s.objs[a].hpaName, "node", 1), b, Waiting(s.objs[b].hpaName));
      SameIndex(s.hpas, t.hpas, b);
      var k := MatchIndex(t.hpas, b);
      assert PatchMin(t.hpas, b.ns, s.objs[a].hpaName, 1)[k] != PatchMin(t.hpas, b.ns, s.objs[a].hpaName, 2)[k];
      SharedHpaOrders(cfg, "node", t, a, b);
      StagedOrders(cfg, s, ids, a, t.objs[a], b, t.objs[b]);
    }
  }

  /** An HPA is the first match of one workload only. */
  lemma MatchesApart(s: Store, a: Id, b: Id)
    requires a in s.objs && b in s.objs && Proper(s.hpas) && a.ns == b.ns
    requires Match(s.hpas, a).Some? && Match(s.hpas, b).Some?
             && Match(s.hpas, a).value.name == Match(s.hpas, b).value.name
    ensures a == b
  {
    var i, j := MatchIndex(s.hpas, a), MatchIndex(s.hpas, b);
    assert i == j;
    assert KindText(RolloutKind)[0] != KindText(DeploymentKind)[0];
  }

  /**
   The traversal order of node reconcile is immaterial, in all states, if and only if no HPA is on
   record at, or found for, two of the collected workloads.
   */
  lemma OrderFreeIffDisjoint(job: Job, s: Store, ids: set<Id>)
    requires job.ReconcileJob? && ids <= s.objs.Keys && Proper(s.hpas)
    ensures OrderFree(s, ids) <==> Disjoint(job, s, ids)
  {
    if Disjoint(job, s, ids) {
      forall t, job': Job, xs, ys | job'.ReconcileJob? && SameLinks(s, t) && Lists(xs, ids) && Lists(ys, ids)
        ensures InOrder(Doing(job'), t, xs) == InOrder(Doing(job'), t, ys)
      {
        SameDisjoint(job, job', s, t, ids);
        OrderDoesNotMatter(job', t, ids, xs, ys);
      }
    }
    if OrderFree(s, ids) {
      forall a, b, k | a in ids && b in ids && k in LinksOf(job, s)(a) && k in LinksOf(job, s)(b) ensures a == b {
        LinkedApart(job, s, ids, a, b, k);
      }
    }
  }

  lemma LinkedApart(job: Job, s: Store, ids: set<Id>, a: Id, b: Id, k: nat)
    requires job.ReconcileJob? && ids <= s.objs.Keys && Proper(s.hpas) && OrderFree(s, ids) && a in ids && b in ids
    requires k < |s.hpas| && LinkedTo(job, s, a, k) && LinkedTo(job, s, b, k)
    ensures a == b
  {
    var cfg := Config(1, 1, 1, 1);
    if Names(s.hpas[k], a.ns, s.objs[a].hpaName) {
      if Names(s.hpas[k], b.ns, s.objs[b].hpaName) {
        RecordsApart(cfg, s, ids, a, b, k);
      } else {
        RecordAndMatchApart(cfg, s, ids, a, b);
      }
    } else if Names(s.hpas[k], b.ns, s.objs[b].hpaName) {
      RecordAndMatchApart(cfg, s, ids, b, a);
    } else {
      MatchesApart(s, a, b);
    }
  }
}
