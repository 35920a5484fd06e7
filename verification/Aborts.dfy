/** Aborts of many workloads: what they come to, and which workloads each caller gets to see. */
module Aborts {
  import opened Base
  import opened Surge
  import opened Inputs
  import opened RestartDetect
  import J = Joint
  import opened Scaler
  import opened Store
  import opened Order
  import DM = DrainMachine

  // ---------- One abort ----------

  /** The workload after an abort that tries to make it o', its writes meeting the given fates. */
  function Cleared(o: Obj, o': Obj, fates: seq<Fate>): Obj {
    if J.FateAt(fates, |RestoreSteps(o, false)|) == Lost then o else o'
  }

  /** Only the last write of an abort, that of the workload, can make it fail. */
  predicate Fails(o: Obj, fates: seq<Fate>) {
    J.FateAt(fates, |RestoreSteps(o, false)|) != Fine
  }

  /** The HPAs after an abort. */
  function Restored(hpas: seq<Listed>, ns: string, o: Obj, fates: seq<Fate>): seq<Listed> {
    if RestoreSteps(o, false) == [] || J.FateAt(fates, 0) == Lost then hpas
    else PatchMin(hpas, ns, o.hpaName, Wrap32(o.hpaMin.value))
  }

  /** An abort restores the HPA on record if it can, and clears the workload whether or not it could. */
  lemma AbortIs(s: Store, id: Id, o: Obj, o': Obj, fates: seq<Fate>)
    requires id in s.objs && s.objs[id] == o
    ensures ExecuteIn(s, id, Plan(RestoreSteps(o, false) + [Save(o')], Requeue(0)), fates) ==
            Reply(Store(s.objs[id := Cleared(o, o', fates)], Restored(s.hpas, id.ns, o, fates)),
                  if Fails(o, fates) then Failed else Requeue(0))
  {
    var steps := RestoreSteps(o, false) + [Save(o')];
    if RestoreSteps(o, false) == [] {
      assert steps == [Save(o')];
      SaveIs(s, id, o', fates);
    } else {
      assert steps[0] == RestoreSteps(o, false)[0] && steps[1..] == [Save(o')];
      var s' := s.(hpas := Restored(s.hpas, id.ns, o, fates));
      SaveIs(s', id, o', if fates == [] then [] else fates[1..]);
    }
    assert s.objs[id := o] == s.objs;
  }

  lemma SaveIs(s: Store, id: Id, o': Obj, fates: seq<Fate>)
    ensures ExecuteIn(s, id, Plan([Save(o')], Requeue(0)), fates) ==
            Reply(if J.FateAt(fates, 0) == Lost then s else s.(objs := s.objs[id := o']),
                  if J.FateAt(fates, 0) == Fine then Requeue(0) else Failed)
  {
    assert [Save(o')][1..] == [];
  }

  // ---------- Loops that do not look at HPAs ----------

  /** What a job makes of a workload, and whether it fails, when neither depends on the HPAs. */
  type Effect = (Id, Obj) -> (Obj, bool)

  /** The effect on every workload of the set. */
  function Each(g: Effect, objs: map<Id, Obj>, ids: set<Id>): map<Id, Obj> {
    map id | id in objs :: if id in ids then g(id, objs[id]).0 else objs[id]
  }

  function Errors(g: Effect, objs: map<Id, Obj>, ids: set<Id>): set<Id> {
    set id | id in ids && id in objs && g(id, objs[id]).1
  }

  /** The job has this effect, whatever the store, and never asks for a requeue. */
  ghost predicate Has(f: Act, g: Effect) {
    forall s: Store, id :: id in s.objs ==> HasAt(f(s, id), g(id, s.objs[id]), s, id)
  }

  ghost predicate HasAt(r: Reply, effect: (Obj, bool), s: Store, id: Id) {
    r.store.objs == s.objs[id := effect.0] && r.result == if effect.1 then Failed else Requeue(0)
  }

  /** In any order, and whatever HPAs are shared, the workloads fare alike. */
  lemma {:induction false} EachInOrder(f: Act, g: Effect, s: Store, xs: seq<Id>, ids: set<Id>)
    requires Has(f, g) && ids <= s.objs.Keys && Lists(xs, ids)
    ensures var at := InOrder(f, s, xs);
            at.store.objs == Each(g, s.objs, ids) && at.failed == Errors(g, s.objs, ids) && at.requeueAfter == 0
    decreases |xs|
  {
    if xs != [] {
      var id := xs[|xs| - 1];
      ListsFront(xs, ids);
      EachInOrder(f, g, s, xs[..|xs| - 1], ids - {id});
    }
  }

  /** The effect of abortWorkload. */
  function Aborting(fates: Id -> seq<Fate>): Effect {
    (id: Id, o: Obj) => (Cleared(o, ClearAll(BackToOriginal(o)), fates(id)), Fails(o, fates(id)))
  }

  /** The effect of the drain orphan scan. */
  function Scanning(tainted: set<string>, fates: Id -> seq<Fate>): Effect {
    (id: Id, o: Obj) => if DM.IsDrainOrphan(o, tainted) then Aborting(fates)(id, o) else (o, false)
  }

  /** The effect of the restart-surge orphan scan. */
  function RestartScanning(ros: Id -> Rollout, fates: Id -> seq<Fate>): Effect {
    (id: Id, o: Obj) => if o.restart != Idle && ArgoIdle(ros(id))
               then (Cleared(o, ClearRestart(BackToOriginal(o)), fates(id)), Fails(o, fates(id)))
               else (o, false)
  }

  lemma AbortDoes(s: Store, id: Id, fates: Id -> seq<Fate>)
    requires id in s.objs
    ensures var o := s.objs[id];
            Do(AbortJob(fates), s, id) ==
            Reply(Store(s.objs[id := Cleared(o, ClearAll(BackToOriginal(o)), fates(id))],
                        Restored(s.hpas, id.ns, o, fates(id))),
                  if Fails(o, fates(id)) then Failed else Requeue(0))
  {
    AbortIs(s, id, s.objs[id], ClearAll(BackToOriginal(s.objs[id])), fates(id));
  }

  /** The orphan scan does what an abort does to an orphan, and nothing to any other workload. */
  lemma OrphanDoes(s: Store, id: Id, tainted: set<string>, fates: Id -> seq<Fate>)
    requires id in s.objs
    ensures Do(OrphanJob(tainted, fates), s, id) ==
            if DM.IsDrainOrphan(s.objs[id], tainted) then Do(AbortJob(fates), s, id) else Reply(s, Requeue(0))
  {
  }

  lemma RestartOrphanDoes(s: Store, id: Id, ros: Id -> Rollout, fates: Id -> seq<Fate>)
    requires id in s.objs
    ensures var o := s.objs[id];
            Do(RestartOrphanJob(ros, fates), s, id) ==
            if o.restart != Idle && ArgoIdle(ros(id))
            then Reply(Store(s.objs[id := Cleared(o, ClearRestart(BackToOriginal(o)), fates(id))],
                             Restored(s.hpas, id.ns, o, fates(id))),
                       if Fails(o, fates(id)) then Failed else Requeue(0))
            else Reply(s, Requeue(0))
  {
    AbortIs(s, id, s.objs[id], ClearRestart(BackToOriginal(s.objs[id])), fates(id));
  }

  lemma AbortJobHas(fates: Id -> seq<Fate>)
    ensures Has(Doing(AbortJob(fates)), Aborting(fates))
  {
    forall s: Store, id | id in s.objs
      ensures HasAt(Doing(AbortJob(fates))(s, id), Aborting(fates)(id, s.objs[id]), s, id)
    {
      AbortDoes(s, id, fates);
    }
  }

  lemma OrphanJobHas(tainted: set<string>, fates: Id -> seq<Fate>)
    ensures Has(Doing(OrphanJob(tainted, fates)), Scanning(tainted, fates))
  {
    forall s: Store, id | id in s.objs
      ensures HasAt(Doing(OrphanJob(tainted, fates))(s, id), Scanning(tainted, fates)(id, s.objs[id]), s, id)
    {
      AbortDoes(s, id, fates);
      OrphanDoes(s, id, tainted, fates);
      assert s.objs[id := s.objs[id]] == s.objs;
      assert Scanning(tainted, fates)(id, s.objs[id]) ==
             if DM.IsDrainOrphan(s.objs[id], tainted) then Aborting(fates)(id, s.objs[id]) else (s.objs[id], false);
    }
  }

  lemma RestartOrphanJobHas(ros: Id -> Rollout, fates: Id -> seq<Fate>)
    ensures Has(Doing(RestartOrphanJob(ros, fates)), RestartScanning(ros, fates))
  {
    forall s: Store, id | id in s.objs
      ensures HasAt(Doing(RestartOrphanJob(ros, fates))(s, id), RestartScanning(ros, fates)(id, s.objs[id]), s, id)
    {
      RestartOrphanDoes(s, id, ros, fates);
    }
  }

  lemma AbortsInOrder(s: Store, xs: seq<Id>, ids: set<Id>, fates: Id -> seq<Fate>)
    requires ids <= s.objs.Keys && Lists(xs, ids)
    ensures var at := InOrder(Doing(AbortJob(fates)), s, xs);
            && at.store.objs == Each(Aborting(fates), s.objs, ids)
            && at.failed == Errors(Aborting(fates), s.objs, ids)
            && at.requeueAfter == 0
  {
    AbortJobHas(fates);
    EachInOrder(Doing(AbortJob(fates)), Aborting(fates), s, xs, ids);
  }

  /** The fates of the writes of every abort when none fails. */
  function NoFailure(id: Id): seq<Fate> { ALL_FINE }

  /** If the writes of the aborts succeed and no HPA is on record twice, every HPA on record is back at its minimum. */
  lemma AbortsRestoreHpas(s: Store, xs: seq<Id>, ids: set<Id>, id: Id, k: nat)
    requires ids <= s.objs.Keys && Lists(xs, ids) && Disjoint(AbortJob(NoFailure), s, ids)
    requires id in ids && k < |s.hpas| && Names(s.hpas[k], id.ns, s.objs[id].hpaName)
    requires RestoreSteps(s.objs[id], false) != []
    ensures var hpas := InOrder(Doing(AbortJob(NoFailure)), s, xs).store.hpas;
            k < |hpas| && hpas[k] == WithMin(s.hpas[k], Wrap32(s.objs[id].hpaMin.value))
  {
    var job := AbortJob(NoFailure);
    InOrderIs(job, s, xs, ids);
    assert k in LinksOf(job, s)(id);
    AbortDoes(s, id, NoFailure);
    var hpas := InOrder(Doing(job), s, xs).store.hpas;
    assert hpas[k] == Doing(job)(s, id).store.hpas[k];
  }

  // ---------- Which workloads an abort gets to see ----------

  /** workloadKey, which leaves the kind out. */
  function WorkloadKey(id: Id): string {
    id.ns + "/" + id.name
  }

  /** Namespaces have no slash in them, so two workloads share a key only if they share namespace and name. */
  lemma KeyDeterminesName(a: Id, b: Id)
    requires '/' !in a.ns && '/' !in b.ns
    ensures WorkloadKey(a) == WorkloadKey(b) <==> a.ns == b.ns && a.name == b.name
  {
    var k, l := WorkloadKey(a), WorkloadKey(b);
    if k == l {
      assert k[|a.ns|] == '/' && l[|b.ns|] == '/';
      assert forall i :: 0 <= i < |a.ns| ==> k[i] == a.ns[i] != '/';
      assert forall i :: 0 <= i < |b.ns| ==> l[i] == b.ns[i] != '/';
      assert |a.ns| == |b.ns|;
      assert k[..|a.ns|] == a.ns && l[..|b.ns|] == b.ns;
      assert k[|a.ns| + 1..] == a.name && l[|b.ns| + 1..] == b.name;
    }
  }

  /** Namespaces are written without a slash. */
  predicate Named(objs: map<Id, Obj>) {
    forall id :: id in objs ==> '/' !in id.ns
  }

  /** The index on drain-node, which leaves workloads without one out. */
  function Indexed(objs: map<Id, Obj>, kind: Kind, node: string): set<Id> {
    set id | id in objs && id.kind == kind && node != "" && objs[id].node == Text(node)
  }

  /** A Deployment of the same key and drain node takes the Rollout's place in the map. */
  predicate Shadowed(objs: map<Id, Obj>, id: Id)
    requires id in objs
  {
    && id.kind == RolloutKind
    && exists d :: d in objs && d.kind == DeploymentKind
                   && WorkloadKey(d) == WorkloadKey(id) && objs[d].node == objs[id].node
  }

  /** The workloads that abortWorkloadsForNode gets to see. */
  function Found(objs: map<Id, Obj>, node: string): set<Id> {
    set id | id in objs && node != "" && objs[id].node == Text(node) && !Shadowed(objs, id)
  }

  function Orphans(objs: map<Id, Obj>, tainted: set<string>): set<Id> {
    set id | id in objs && DM.IsDrainOrphan(objs[id], tainted)
  }

  /** The workloads of the set, and no others, have been aborted, in the given order. */
  ghost predicate Aborted(s: Store, ids: set<Id>, fates: Id -> seq<Fate>, order: seq<Id>, s': Store) {
    && Lists(order, ids)
    && s' == InOrder(Doing(AbortJob(fates)), s, order).store
    && s'.objs == Each(Aborting(fates), s.objs, ids)
  }

  lemma ListsKept(xs: seq<Id>, ids: set<Id>, keep: set<Id>, id: Id)
    requires Lists(xs, (ids - {id}) * keep) && id in ids
    ensures Lists(if id in keep then xs + [id] else xs, ids * keep)
  {
    var others := (ids - {id}) * keep;
    if id in keep {
      ListsAppend(xs, [id], others, {id});
      assert others + {id} == ids * keep;
    } else {
      assert others == ids * keep;
    }
  }

  lemma Unvisited(f: Act, effect: Effect, s: Store, xs: seq<Id>, ids: set<Id>, id: Id)
    requires Has(f, effect) && ids <= s.objs.Keys && Lists(xs, ids) && id in s.objs && id !in ids
    ensures var t := InOrder(f, s, xs).store; id in t.objs && t.objs[id] == s.objs[id]
  {
    EachInOrder(f, effect, s, xs, ids);
  }

  /**
   On workloads that are as they were in s, the first job does what the second does to those kept, and
   nothing to others.
   */
  ghost predicate Filters(f: Act, g: Act, s: Store, keep: set<Id>) {
    forall t: Store, id :: id in s.objs && id in t.objs && t.objs[id] == s.objs[id] ==>
      f(t, id).store == if id in keep then g(t, id).store else t
  }

  lemma {:induction false} FilteredLoop(f: Act, g: Act, effect: Effect, s: Store, xs: seq<Id>, ids: set<Id>,
                                        keep: set<Id>)
    returns (order: seq<Id>)
    requires ids <= s.objs.Keys && Lists(xs, ids) && Has(g, effect) && Filters(f, g, s, keep)
    ensures Lists(order, ids * keep) && InOrder(f, s, xs).store == InOrder(g, s, order).store
    decreases |xs|
  {
    order := [];
    if xs != [] {
      var id := xs[|xs| - 1];
      ListsFront(xs, ids);
      order := FilteredLoop(f, g, effect, s, xs[..|xs| - 1], ids - {id}, keep);
      Unvisited(g, effect, s, order, (ids - {id}) * keep, id);
      ListsKept(order, ids, keep, id);
      if id in keep {
        InOrderSnoc(g, s, order, id);
        order := order + [id];
      }
    }
  }

  /** A scan over all the workloads of a set aborts the orphans among them. */
  lemma ScanAborts(s: Store, xs: seq<Id>, ids: set<Id>, tainted: set<string>, fates: Id -> seq<Fate>)
    returns (order: seq<Id>)
    requires ids <= s.objs.Keys && Lists(xs, ids)
    ensures Aborted(s, ids * Orphans(s.objs, tainted), fates, order,
                    InOrder(Doing(OrphanJob(tainted, fates)), s, xs).store)
  {
    var f, g, orphans := Doing(OrphanJob(tainted, fates)), Doing(AbortJob(fates)), Orphans(s.objs, tainted);
    assert Filters(f, g, s, orphans) by {
      forall t: Store, id | id in s.objs && id in t.objs && t.objs[id] == s.objs[id]
        ensures f(t, id).store == if id in orphans then g(t, id).store else t
      {
        OrphanDoes(t, id, tainted, fates);
      }
    }
    AbortJobHas(fates);
    order := FilteredLoop(f, g, Aborting(fates), s, xs, ids, orphans);
    AbortsInOrder(s, order, ids * orphans, fates);
  }

  lemma TwoScansAbort(s: Store, xs: seq<Id>, a: set<Id>, ys: seq<Id>, b: set<Id>, tainted: set<string>,
                      fates: Id -> seq<Fate>)
    returns (order: seq<Id>)
    requires a <= s.objs.Keys && b <= s.objs.Keys && a !! b && Lists(xs, a) && Lists(ys, b)
    ensures var f := Doing(OrphanJob(tainted, fates));
            Aborted(s, (a + b) * Orphans(s.objs, tainted), fates, order, InOrder(f, InOrder(f, s, xs).store, ys).store)
  {
    InOrderAppend(Doing(OrphanJob(tainted, fates)), s, xs, ys);
    ListsAppend(xs, ys, a, b);
    order := ScanAborts(s, xs + ys, a + b, tainted, fates);
  }

  /** What an abort whose writes succeed makes of a workload. */
  lemma FineAbort(fates: Id -> seq<Fate>, id: Id, o: Obj)
    requires fates(id) == [Fine, Fine, Fine]
    ensures var n := if o.original.Some? then o.original.value else o.replicas;
            Aborting(fates)(id, o).0 == Obj(n, Idle, None, Text(""), None, Text(""), None, Idle, None)
  {
    assert fates(id)[0] == fates(id)[1] == Fine;
    assert Cleared(o, ClearAll(BackToOriginal(o)), fates(id)) == ClearAll(BackToOriginal(o));
  }

  /** An abort whose writes succeed leaves no owned annotation behind. */
  lemma FineAbortIsClear(objs: map<Id, Obj>, ids: set<Id>, id: Id)
    requires id in objs
    ensures Each(Aborting(NoFailure), objs, ids)[id] ==
            if id in ids then ClearAll(BackToOriginal(objs[id])) else objs[id]
  {
    assert NoFailure(id)[0] == NoFailure(id)[1] == Fine;
    assert Aborting(NoFailure)(id, objs[id]).0 == Cleared(objs[id], ClearAll(BackToOriginal(objs[id])), NoFailure(id));
  }

  /** The orphan scan leaves no orphan, and leaves every other workload alone. */
  lemma ScanLeavesNoOrphan(s: Store, tainted: set<string>, order: seq<Id>, s': Store)
    requires Aborted(s, Orphans(s.objs, tainted), NoFailure, order, s')
    ensures s'.objs.Keys == s.objs.Keys
    ensures Orphans(s'.objs, tainted) == {}
    ensures forall id :: id in s.objs && !DM.IsDrainOrphan(s.objs[id], tainted) ==> s'.objs[id] == s.objs[id]
  {
    forall id | id in s.objs {
      FineAbortIsClear(s.objs, Orphans(s.objs, tainted), id);
    }
  }

  /**
   A restart-surge orphan scan whose writes succeed leaves no Rollout mid-operation without a pending
   restart. It clears such a Rollout back to its original replicas whatever drain is in progress there:
   the drain keeps its state, node and start, but not the bookkeeping that it shares.
   */
  lemma RestartScanLeavesNoOrphan(objs: map<Id, Obj>, ids: set<Id>, ros: Id -> Rollout, id: Id)
    requires id in objs
    ensures var o, o' := objs[id], Each(RestartScanning(ros, NoFailure), objs, ids)[id];
            var at, done := ros(id).restartAt, ros(id).restartedAt;
            if id in ids && o.restart != Idle && (at.None? || done == at)
            then o' == Obj(if o.original.Some? then o.original.value else o.replicas, o.drain, None, o.node, o.start,
                           Text(""), None, Idle, None)
            else o' == o
  {
    var o := objs[id];
    assert NoFailure(id)[0] == NoFailure(id)[1] == Fine;
    assert Cleared(o, ClearRestart(BackToOriginal(o)), NoFailure(id)) == ClearRestart(BackToOriginal(o));
    assert RestartScanning(ros, NoFailure)(id, o).0 ==
           if o.restart != Idle && ArgoIdle(ros(id)) then ClearRestart(BackToOriginal(o)) else o;
  }

  /**
   Whatever becomes of its writes, the scan leaves a Rollout alone whose restart is pending, that is, whose
   restartAt is set and is not what restartedAt says; such is every Rollout that is found stuck at any time.
   */
  lemma ScanSparesPending(objs: map<Id, Obj>, ids: set<Id>, ros: Id -> Rollout, fates: Id -> seq<Fate>, id: Id)
    requires id in objs
    ensures ros(id).restartAt.Some? && ros(id).restartedAt != ros(id).restartAt ==>
              Each(RestartScanning(ros, fates), objs, ids)[id] == objs[id]
    ensures (exists pods, grace, now :: IsRestartStuck(ros(id), pods, grace, now)) ==>
              Each(RestartScanning(ros, fates), objs, ids)[id] == objs[id]
  {
  }

  // ---------- One scan or many node aborts ----------

  predicate Distinct(nodes: seq<string>) {
    forall i, j :: 0 <= i < j < |nodes| ==> nodes[i] != nodes[j]
  }

  /** abortWorkloadsForNode for one node after the other, each going through its workloads in some order. */
  ghost predicate NodesAborted(ss: seq<Store>, nodes: seq<string>, orders: seq<seq<Id>>) {
    && |orders| == |nodes| && |ss| == |nodes| + 1
    && forall i :: 0 <= i < |nodes| ==> Aborted(ss[i], Found(ss[i].objs, nodes[i]), NoFailure, orders[i], ss[i + 1])
  }

  /** The workloads that aborts of all these nodes get to see. */
  function FoundAmong(objs: map<Id, Obj>, nodes: seq<string>): set<Id> {
    set id | id in objs && objs[id].node.Text? && objs[id].node.s in nodes && !Shadowed(objs, id)
  }

  /** Aborts of other nodes do not change which workloads the abort of a node finds. */
  lemma FoundLater(objs: map<Id, Obj>, nodes: seq<string>, node: string)
    requires node !in nodes && node != ""
    ensures Found(Each(Aborting(NoFailure), objs, FoundAmong(objs, nodes)), node) == Found(objs, node)
  {
    var objs' := Each(Aborting(NoFailure), objs, FoundAmong(objs, nodes));
    forall id | id in objs ensures objs'[id].node == Text(node) <==> objs[id].node == Text(node) {
      FineAbortIsClear(objs, FoundAmong(objs, nodes), id);
    }
    forall id | id in objs && objs[id].node == Text(node) ensures Shadowed(objs', id) == Shadowed(objs, id) {
      assert forall d :: d in objs ==> (objs'[d].node == objs'[id].node <==> objs[d].node == objs[id].node);
    }
  }

  lemma OneMoreNode(s: Store, t: Store, t': Store, nodes: seq<string>, node: string, front: seq<Id>, last: seq<Id>)
    requires Aborted(s, FoundAmong(s.objs, nodes), NoFailure, front, t)
    requires Aborted(t, Found(t.objs, node), NoFailure, last, t')
    requires node !in nodes && node != ""
    ensures Aborted(s, FoundAmong(s.objs, nodes + [node]), NoFailure, front + last, t')
  {
    var before, found := FoundAmong(s.objs, nodes), Found(s.objs, node);
    FoundLater(s.objs, nodes, node);
    InOrderAppend(Doing(AbortJob(NoFailure)), s, front, last);
    ListsAppend(front, last, before, found);
    assert FoundAmong(s.objs, nodes + [node]) == before + found;
    AbortsInOrder(s, front + last, before + found, NoFailure);
  }

  /** Aborts of several nodes are one loop over the workloads that they get to see. */
  lemma {:induction false} NodeAbortsAreOneLoop(ss: seq<Store>, nodes: seq<string>, orders: seq<seq<Id>>, n: nat)
    returns (order: seq<Id>)
    requires NodesAborted(ss, nodes, orders) && Distinct(nodes) && "" !in nodes && n <= |nodes|
    ensures Aborted(ss[0], FoundAmong(ss[0].objs, nodes[..n]), NoFailure, order, ss[n])
  {
    if n == 0 {
      order := [];
      assert ss[0].objs == Each(Aborting(NoFailure), ss[0].objs, {});
    } else {
      var front := NodeAbortsAreOneLoop(ss, nodes, orders, n - 1);
      order := front + orders[n - 1];
      OneMoreNode(ss[0], ss[n - 1], ss[n], nodes[..n - 1], nodes[n - 1], front, orders[n - 1]);
      assert nodes[..n] == nodes[..n - 1] + [nodes[n - 1]];
    }
  }

  /**
   Orphan recovery does in one scan what node aborts of all the missing or untainted nodes do to the
   workloads, exactly if no orphaned Rollout has its place taken by an orphaned Deployment of the same
   namespace and name; and then, if no HPA is on record twice, also what they do to the HPAs.
   */
  lemma ScanEqualsNodeAborts(s: Store, tainted: set<string>, order: seq<Id>, scanned: Store,
                             ss: seq<Store>, nodes: seq<string>, orders: seq<seq<Id>>)
    requires Distinct(nodes) && "" !in nodes
    requires forall id :: id in s.objs ==> s.objs[id].node.Text?
    requires forall id :: id in s.objs ==> (DM.IsDrainOrphan(s.objs[id], tainted) <==> s.objs[id].node.s in nodes)
    requires Aborted(s, Orphans(s.objs, tainted), NoFailure, order, scanned)
    requires NodesAborted(ss, nodes, orders) && ss[0] == s
    ensures ss[|nodes|].objs == scanned.objs <==>
            forall id :: id in s.objs && DM.IsDrainOrphan(s.objs[id], tainted) ==> !Shadowed(s.objs, id)
    ensures ss[|nodes|].objs == scanned.objs && Disjoint(AbortJob(NoFailure), s, Orphans(s.objs, tainted)) ==>
              ss[|nodes|] == scanned
  {
    var objs, orphans := s.objs, Orphans(s.objs, tainted);
    var other := NodeAbortsAreOneLoop(ss, nodes, orders, |nodes|);
    assert nodes[..|nodes|] == nodes;
    var found, after := FoundAmong(objs, nodes), ss[|nodes|];
    forall id | id in objs
      ensures after.objs[id] == if id in found then ClearAll(BackToOriginal(objs[id])) else objs[id]
      ensures scanned.objs[id] == if id in orphans then ClearAll(BackToOriginal(objs[id])) else objs[id]
      ensures id in found <==> id in orphans && !Shadowed(objs, id)
      ensures id in orphans ==> ClearAll(BackToOriginal(objs[id])) != objs[id]
    {
      FineAbortIsClear(objs, found, id);
      FineAbortIsClear(objs, orphans, id);
    }
    if id :| id in objs && DM.IsDrainOrphan(objs[id], tainted) && Shadowed(objs, id) {
      assert after.objs[id] != scanned.objs[id];
    } else {
      assert found == orphans;
      if Disjoint(AbortJob(NoFailure), s, orphans) {
        OrderDoesNotMatter(AbortJob(NoFailure), s, orphans, order, other);
      }
    }
  }

  /** A Rollout and a Deployment of the same name on a node that is gone: the node abort misses the Rollout. */
  lemma ShadowedIsMissed(o: Obj)
    requires o.node == Text("n")
    ensures var ro, de := Id(RolloutKind, "ns", "a"), Id(DeploymentKind, "ns", "a");
            var objs := map[ro := o, de := o];
            && ro in Orphans(objs, {}) && de in Orphans(objs, {})
            && Shadowed(objs, ro) && Found(objs, "n") == {de}
  {
    var ro, de := Id(RolloutKind, "ns", "a"), Id(DeploymentKind, "ns", "a");
    var objs := map[ro := o, de := o];
    assert de in objs && WorkloadKey(de) == WorkloadKey(ro);
  }
}
