/** The controller's entry points that deal with many workloads: node reconcile, node abort and both orphan scans. */
module Cluster {
  import opened Base
  import opened Surge
  import opened Inputs
  import opened Store
  import opened Order
  import opened Aborts
  import opened Pacing

  /** A pod on the node: whether it counts, and what its owner chain resolves to. */
  datatype PodOwner = PodOwner(live: bool, owner: Read<Option<Id>>)

  function Owner(p: PodOwner): Option<Id> {
    if p.live && p.owner.Got? then p.owner.value else None
  }

  predicate Resolves(p: PodOwner, key: string) {
    Owner(p).Some? && WorkloadKey(Owner(p).value) == key
  }

  /** The owner that comes first among those with the key. */
  function FirstOwner(pods: seq<PodOwner>, key: string): (r: Option<Id>)
    ensures r.Some? ==> WorkloadKey(r.value) == key && exists i :: 0 <= i < |pods| && Owner(pods[i]) == r
  {
    if pods == [] then None
    else
      var earlier, p := FirstOwner(pods[..|pods| - 1], key), pods[|pods| - 1];
      if earlier.Some? then earlier else if Resolves(p, key) then Owner(p) else None
  }

  /** Live pods alone count, and of those that resolve to workloads of one key, the first one. */
  lemma {:induction false} FirstOwnerIsFirst(pods: seq<PodOwner>, i: nat, id: Id)
    requires i < |pods| && pods[i].live && pods[i].owner == Got(Some(id))
    requires forall j :: 0 <= j < i && pods[j].live && pods[j].owner.Got? && pods[j].owner.value.Some? ==>
               pods[j].owner.value.value.ns + "/" + pods[j].owner.value.value.name != id.ns + "/" + id.name
    ensures FirstOwner(pods, id.ns + "/" + id.name) == Some(id)
  {
    var front, key := pods[..|pods| - 1], id.ns + "/" + id.name;
    if i < |front| {
      FirstOwnerIsFirst(front, i, id);
    } else {
      NoFirstOwner(front, key);
    }
  }

  lemma {:induction false} NoFirstOwner(pods: seq<PodOwner>, key: string)
    requires forall j :: 0 <= j < |pods| && pods[j].live && pods[j].owner.Got? && pods[j].owner.value.Some? ==>
               pods[j].owner.value.value.ns + "/" + pods[j].owner.value.value.name != key
    ensures FirstOwner(pods, key).None?
  {
    if pods != [] {
      NoFirstOwner(pods[..|pods| - 1], key);
    }
  }

  /** Each workload is filed under its own key. */
  predicate Filed(m: map<string, Id>) {
    forall key :: key in m ==> WorkloadKey(m[key]) == key
  }

  /** The owners of the pods, the first one of each key, and beside them what was there already. */
  ghost predicate Collected(pods: seq<PodOwner>, existing: map<string, Id>, m: map<string, Id>) {
    && (forall key :: key in m <==> key in existing || FirstOwner(pods, key).Some?)
    && (forall key :: key in m ==>
          m[key] == if FirstOwner(pods, key).Some? then FirstOwner(pods, key).value else existing[key])
  }

  lemma CollectedWithin(pods: seq<PodOwner>, existing: map<string, Id>, m: map<string, Id>, ids: set<Id>)
    requires Collected(pods, existing, m) && existing.Values <= ids
    requires forall i :: 0 <= i < |pods| && Owner(pods[i]).Some? ==> Owner(pods[i]).value in ids
    ensures m.Values <= ids
  {
  }

  /** A node as the API returns it. */
  datatype NodeInfo = NodeInfo(name: string, taints: seq<string>)

  predicate HasDrainTaint(n: NodeInfo, taints: seq<string>) {
    exists t :: t in n.taints && t in taints
  }

  /** hasDrainTaint: only the keys of the taints count. */
  method CheckTaints(n: NodeInfo, taints: seq<string>) returns (b: bool)
    ensures b <==> HasDrainTaint(n, taints)
  {
    for i := 0 to |n.taints|
      invariant forall k :: 0 <= k < i ==> n.taints[k] !in taints
    {
      for j := 0 to |taints|
        invariant forall k :: 0 <= k < j ==> taints[k] != n.taints[i]
      {
        if n.taints[i] == taints[j] {
          assert n.taints[i] in n.taints && n.taints[i] in taints;
          return true;
        }
      }
    }
    return false;
  }

  function TaintedNames(nodes: seq<NodeInfo>, taints: seq<string>): set<string> {
    set i | 0 <= i < |nodes| && HasDrainTaint(nodes[i], taints) :: nodes[i].name
  }

  /** The tainted nodes of an orphan scan. */
  method TaintedNodes(nodes: seq<NodeInfo>, taints: seq<string>) returns (tainted: set<string>)
    ensures tainted == TaintedNames(nodes, taints)
  {
    tainted := {};
    for i := 0 to |nodes|
      invariant tainted == set k | 0 <= k < i && HasDrainTaint(nodes[k], taints) :: nodes[k].name
    {
      var b := CheckTaints(nodes[i], taints);
      if b {
        tainted := tainted + {nodes[i].name};
      }
    }
  }

  lemma FoundIs(objs: map<Id, Obj>, node: string, m: map<string, Id>, rollouts: set<Id>, deployments: set<Id>)
    requires Filed(m)
    requires rollouts == Indexed(objs, RolloutKind, node) && deployments == Indexed(objs, DeploymentKind, node)
    requires forall key :: key in m ==> m[key] in rollouts + deployments
    requires forall id :: id in deployments ==> WorkloadKey(id) in m && m[WorkloadKey(id)] == id
    requires forall id :: id in rollouts ==>
             WorkloadKey(id) in m && (m[WorkloadKey(id)] == id || m[WorkloadKey(id)] in deployments)
    ensures m.Values == Found(objs, node)
  {
    forall id ensures id in m.Values <==> id in Found(objs, node) {
      if id in m.Values {
        var key :| key in m && m[key] == id;
        assert WorkloadKey(id) == key;
      }
      if id in Found(objs, node) {
        assert m[WorkloadKey(id)] == id;
      }
    }
  }

  /** Some listed node of that name has a configured taint key. */
  predicate TaintedIn(nodes: seq<NodeInfo>, taints: seq<string>, name: Value) {
    exists i, t :: 0 <= i < |nodes| && Text(nodes[i].name) == name && t in nodes[i].taints && t in taints
  }

  /**
   The drain orphan scan, on the node list: a workload with no node on record, or whose recorded node is
   listed with a configured taint key, is left as it is. Every other one, if the write of it is not lost,
   ends at its original replicas, or where it is if none are on record, with nothing owned left.
   */
  lemma ScanByNodes(s: Store, nodes: seq<NodeInfo>, taints: seq<string>, seen: set<Id>, fates: Id -> seq<Fate>,
                    order: seq<Id>, s': Store, id: Id)
    requires Aborted(s, seen * Orphans(s.objs, TaintedNames(nodes, taints)), fates, order, s') && id in s.objs
    ensures id in s'.objs
    ensures s.objs[id].node == Text("") || TaintedIn(nodes, taints, s.objs[id].node) || id !in seen ==>
              s'.objs[id] == s.objs[id]
    ensures s.objs[id].node != Text("") && !TaintedIn(nodes, taints, s.objs[id].node) && id in seen
            && fates(id) == [Fine, Fine, Fine] ==>
              var n := if s.objs[id].original.Some? then s.objs[id].original.value else s.objs[id].replicas;
              s'.objs[id] == Obj(n, Idle, None, Text(""), None, Text(""), None, Idle, None)
  {
    TaintedNamesAre(nodes, taints, s.objs[id].node);
    if fates(id) == [Fine, Fine, Fine] {
      FineAbort(fates, id, s.objs[id]);
    }
  }

  lemma TaintedNamesAre(nodes: seq<NodeInfo>, taints: seq<string>, name: Value)
    ensures TaintedIn(nodes, taints, name) <==> name.Text? && name.s in TaintedNames(nodes, taints)
  {
    if i, t :| 0 <= i < |nodes| && Text(nodes[i].name) == name && t in nodes[i].taints && t in taints {
      assert HasDrainTaint(nodes[i], taints);
    }
    if name.Text? && name.s in TaintedNames(nodes, taints) {
      var i :| 0 <= i < |nodes| && HasDrainTaint(nodes[i], taints) && nodes[i].name == name.s;
      var t :| t in nodes[i].taints && t in taints;
      assert Text(nodes[i].name) == name;
    }
  }

  lemma FoundOnFields(objs: map<Id, Obj>, node: string)
    requires Named(objs)
    ensures forall id :: id in Found(objs, node) <==>
              && id in objs && node != "" && objs[id].node == Text(node)
              && (id.kind == RolloutKind ==>
                    Id(DeploymentKind, id.ns, id.name) !in objs
                    || objs[Id(DeploymentKind, id.ns, id.name)].node != Text(node))
  {
    forall id | id in objs && id.kind == RolloutKind && objs[id].node == Text(node)
      ensures var twin := Id(DeploymentKind, id.ns, id.name);
              Shadowed(objs, id) <==> twin in objs && objs[twin].node == Text(node)
    {
      forall d | d in objs ensures WorkloadKey(d) == WorkloadKey(id) <==> d.ns == id.ns && d.name == id.name {
        KeyDeterminesName(d, id);
      }
      var twin := Id(DeploymentKind, id.ns, id.name);
      if Shadowed(objs, id) {
        var d :| d in objs && d.kind == DeploymentKind && WorkloadKey(d) == WorkloadKey(id)
          && objs[d].node == objs[id].node;
        assert d == twin;
      }
      if twin in objs && objs[twin].node == Text(node) {
        assert WorkloadKey(twin) == WorkloadKey(id);
      }
    }
  }

  class Controller {
    var store: Store

    constructor (store: Store)
      ensures this.store == store
    {
      this.store := store;
    }

    /** The loop over workloads, in whatever order: each is visited once, and a failing one stops no other. */
    method Traverse(act: Act, ids: set<Id>) returns (requeueAfter: int, failed: set<Id>, ghost order: seq<Id>)
      modifies this
      ensures Lists(order, ids)
      ensures Progress(store, requeueAfter, failed) == InOrder(act, old(store), order)
    {
      requeueAfter, failed, order := 0, {}, [];
      var todo := ids;
      while todo != {}
        invariant todo <= ids
        invariant Lists(order, ids - todo)
        invariant Progress(store, requeueAfter, failed) == InOrder(act, old(store), order)
        decreases todo
      {
        var id :| id in todo;
        ListsOneMore(order, ids, todo, id);
        InOrderSnoc(act, old(store), order, id);
        var r := act(store, id);
        store := r.store;
        if r.result.Failed? {
          failed := failed + {id};
        } else if r.result.after > 0 && (requeueAfter == 0 || r.result.after < requeueAfter) {
          requeueAfter := r.result.after;
        }
        order := order + [id];
        todo := todo - {id};
      }
      assert ids - todo == ids;
    }

    /**
     One of the controller's jobs on every workload of the set, each on the store as the earlier ones
     have left it. If no two of the workloads share an HPA, each fares as if alone.
     */
    method RunJobs(job: Job, ids: set<Id>) returns (requeueAfter: int, failed: set<Id>, ghost order: seq<Id>)
      requires ids <= store.objs.Keys
      modifies this
      ensures Lists(order, ids)
      ensures Progress(store, requeueAfter, failed) == InOrder(Doing(job), old(store), order)
      ensures Disjoint(job, old(store), ids) ==>
                AsIfAlone(Doing(job), LinksOf(job, old(store)), old(store), ids, Progress(store, requeueAfter, failed))
    {
      requeueAfter, failed, order := Traverse(Doing(job), ids);
      if Disjoint(job, old(store), ids) {
        InOrderIs(job, old(store), order, ids);
      }
    }

    // ---------- Node abort and orphan scans ----------

    /** findWorkloadsWithDrainNode: Rollouts first, then Deployments, filed by a key without the kind. */
    method FindWorkloadsWithDrainNode(node: string, rolloutsListed: bool, deploymentsListed: bool)
      returns (r: Read<map<string, Id>>)
      requires Named(store.objs)
      ensures r.Got? <==> rolloutsListed && deploymentsListed
      ensures r.Got? ==> Filed(r.value) && r.value.Values == Found(store.objs, node)
      ensures r.Got? ==>
                forall id :: id in r.value.Values <==>
                  && id in store.objs && node != "" && store.objs[id].node == Text(node)
                  && (id.kind == RolloutKind ==>
                        Id(DeploymentKind, id.ns, id.name) !in store.objs
                        || store.objs[Id(DeploymentKind, id.ns, id.name)].node != Text(node))
    {
      if !rolloutsListed {
        return ReadError;
      }
      var m := map[];
      var todo := Indexed(store.objs, RolloutKind, node);
      ghost var rollouts := todo;
      while todo != {}
        invariant Filed(m) && todo <= rollouts
        invariant forall key :: key in m ==> m[key] in rollouts - todo
        invariant forall id :: id in rollouts - todo ==> WorkloadKey(id) in m && m[WorkloadKey(id)] == id
        decreases todo
      {
        var id :| id in todo;
        forall other | other in rollouts ensures WorkloadKey(other) == WorkloadKey(id) ==> other == id {
          KeyDeterminesName(other, id);
        }
        m := m[WorkloadKey(id) := id];
        todo := todo - {id};
      }
      if !deploymentsListed {
        return ReadError;
      }
      todo := Indexed(store.objs, DeploymentKind, node);
      ghost var deployments := todo;
      while todo != {}
        invariant Filed(m) && todo <= deployments
        invariant forall key :: key in m ==> m[key] in rollouts + (deployments - todo)
        invariant forall id :: id in deployments - todo ==> WorkloadKey(id) in m && m[WorkloadKey(id)] == id
        invariant forall id :: id in rollouts ==>
                  WorkloadKey(id) in m && (m[WorkloadKey(id)] == id || m[WorkloadKey(id)] in deployments)
        decreases todo
      {
        var id :| id in todo;
        forall other | other in deployments ensures WorkloadKey(other) == WorkloadKey(id) ==> other == id {
          KeyDeterminesName(other, id);
        }
        m := m[WorkloadKey(id) := id];
        todo := todo - {id};
      }
      FoundIs(store.objs, node, m, rollouts, deployments);
      FoundOnFields(store.objs, node);
      r := Got(m);
    }

    /** abortWorkloadsForNode: nothing if a list fails; otherwise every workload found is attempted. */
    method AbortWorkloadsForNode(node: string, rolloutsListed: bool, deploymentsListed: bool, fates: Id -> seq<Fate>)
      returns (r: Result, ghost order: seq<Id>)
      requires Named(store.objs)
      modifies this
      ensures !(rolloutsListed && deploymentsListed) ==> r == Failed && store == old(store)
      ensures rolloutsListed && deploymentsListed ==>
                var found := Found(old(store).objs, node);
                && Aborted(old(store), found, fates, order, store)
                && r == if Errors(Aborting(fates), old(store).objs, found) == {} then Requeue(0) else Failed
    {
      order := [];
      var workloads := FindWorkloadsWithDrainNode(node, rolloutsListed, deploymentsListed);
      if workloads.ReadError? {
        return Failed, order;
      }
      var _, errs, visited := RunJobs(AbortJob(fates), workloads.value.Values);
      order := visited;
      AbortsInOrder(old(store), order, workloads.value.Values, fates);
      r := if errs == {} then Requeue(0) else Failed;
    }

    /** RecoverOrphans of the drain machine: first the Rollouts, then the Deployments; failed aborts are logged only. */
    method RecoverOrphans(nodes: Read<seq<NodeInfo>>, taints: seq<string>, rolloutsListed: bool,
                          deploymentsListed: bool, fates: Id -> seq<Fate>)
      returns (ok: bool, ghost order: seq<Id>)
      modifies this
      ensures ok <==> nodes.Got? && rolloutsListed && deploymentsListed
      ensures nodes.ReadError? || !rolloutsListed ==> store == old(store)
      ensures nodes.Got? && rolloutsListed ==>
                var seen := set id | id in old(store).objs && (deploymentsListed || id.kind == RolloutKind);
                var orphans := Orphans(old(store).objs, TaintedNames(nodes.value, taints));
                Aborted(old(store), seen * orphans, fates, order, store)
    {
      order := [];
      if nodes.ReadError? {
        return false, order;
      }
      var tainted := TaintedNodes(nodes.value, taints);
      if !rolloutsListed {
        return false, order;
      }
      ghost var rollouts := OfKind(store.objs, RolloutKind);
      var first := ScanKind(RolloutKind, tainted, fates);
      if !deploymentsListed {
        order := ScanAborts(old(store), first, rollouts, tainted, fates);
        assert rollouts == set id | id in old(store).objs && (deploymentsListed || id.kind == RolloutKind);
        return false, order;
      }
      ghost var deployments := OfKind(store.objs, DeploymentKind);
      var second := ScanKind(DeploymentKind, tainted, fates);
      order := TwoScansAbort(old(store), first, rollouts, second, deployments, tainted, fates);
      assert rollouts + deployments == set id | id in old(store).objs && (deploymentsListed || id.kind == RolloutKind);
      ok := true;
    }

    /** One of the two loops of RecoverOrphans. */
    method ScanKind(kind: Kind, tainted: set<string>, fates: Id -> seq<Fate>) returns (ghost order: seq<Id>)
      modifies this
      ensures Lists(order, OfKind(old(store).objs, kind)) && store.objs.Keys == old(store).objs.Keys
      ensures store == InOrder(Doing(OrphanJob(tainted, fates)), old(store), order).store
    {
      var ids := OfKind(store.objs, kind);
      var _, _, visited := RunJobs(OrphanJob(tainted, fates), ids);
      order := visited;
      OrphanJobHas(tainted, fates);
      EachInOrder(Doing(OrphanJob(tainted, fates)), Scanning(tainted, fates), old(store), order, ids);
    }

    /** RecoverOrphans of the restart machine; failed aborts are logged only. */
    method RecoverRestartOrphans(rolloutsListed: bool, ros: Id -> Rollout, fates: Id -> seq<Fate>)
      returns (ok: bool, ghost order: seq<Id>)
      modifies this
      ensures ok <==> rolloutsListed
      ensures !rolloutsListed ==> store == old(store)
      ensures rolloutsListed ==>
                var rollouts := set id | id in old(store).objs && id.kind == RolloutKind;
                && Lists(order, rollouts)
                && store == InOrder(Doing(RestartOrphanJob(ros, fates)), old(store), order).store
                && store.objs == Each(RestartScanning(ros, fates), old(store).objs, rollouts)
    {
      order := [];
      if !rolloutsListed {
        return false, order;
      }
      var rollouts := OfKind(store.objs, RolloutKind);
      var _, _, visited := RunJobs(RestartOrphanJob(ros, fates), rollouts);
      order := visited;
      RestartOrphanJobHas(ros, fates);
      EachInOrder(Doing(RestartOrphanJob(ros, fates)), RestartScanning(ros, fates), old(store), order, rollouts);
      ok := true;
    }

    // ---------- Node reconcile ----------

    /** The workloads of a node: the owners of its pods, first come, and those already on record for it. */
    method CollectWorkloads(pods: seq<PodOwner>, existing: map<string, Id>) returns (m: map<string, Id>)
      requires Filed(existing)
      ensures Filed(m) && Collected(pods, existing, m)
    {
      m := map[];
      for i := 0 to |pods|
        invariant Collected(pods[..i], map[], m)
      {
        assert pods[..i + 1][..i] == pods[..i];
        if !pods[i].live || pods[i].owner.ReadError? || pods[i].owner.value.None? {
          continue;
        }
        var id := pods[i].owner.value.value;
        if WorkloadKey(id) !in m {
          m := m[WorkloadKey(id) := id];
        }
      }
      assert pods[..|pods|] == pods;
      m := map key | key in existing.Keys + m.Keys :: if key in m then m[key] else existing[key];
    }

    /**
     NodeReconciler.Reconcile. A node that is gone or not tainted has its workloads aborted; otherwise
     every workload collected for it is reconciled, those on record being left out if a list fails.
     */
    method Reconcile(cfg: Config, name: string, node: Read<Option<NodeInfo>>, taints: seq<string>,
                     pods: Read<seq<PodOwner>>, rolloutsListed: bool, deploymentsListed: bool,
                     env: Id -> Env, fates: Id -> seq<Fate>)
      returns (r: Result, ghost m: map<string, Id>, ghost order: seq<Id>)
      requires Named(store.objs)
      requires pods.Got? ==>
                 forall i :: 0 <= i < |pods.value| && Owner(pods.value[i]).Some? ==>
                   Owner(pods.value[i]).value in store.objs
      modifies this
      ensures node.ReadError? ==> r == Failed && store == old(store)
      ensures Clear(node, taints) && !(rolloutsListed && deploymentsListed) ==> r == Failed && store == old(store)
      ensures Clear(node, taints) && rolloutsListed && deploymentsListed ==>
                var found := Found(old(store).objs, name);
                && Aborted(old(store), found, fates, order, store)
                && r == if Errors(Aborting(fates), old(store).objs, found) == {} then Requeue(0) else Failed
      ensures node.Got? && !Clear(node, taints) && pods.ReadError? ==> r == Failed && store == old(store)
      ensures node.Got? && !Clear(node, taints) && pods.Got? ==>
                && Filed(m) && m.Values <= old(store).objs.Keys && Lists(order, m.Values)
                && (exists existing :: Collected(pods.value, existing, m) && Filed(existing) && existing.Values ==
                      if rolloutsListed && deploymentsListed then Found(old(store).objs, name) else {})
                && Reconciled(cfg, name, env, old(store), order, store, r)
    {
      m, order := map[], [];
      if node.ReadError? {
        return Failed, m, order;
      }
      var tainted := false;
      if node.value.Some? {
        tainted := CheckTaints(node.value.value, taints);
      }
      if !tainted {
        r, order := AbortWorkloadsForNode(name, rolloutsListed, deploymentsListed, fates);
        return;
      }
      if pods.ReadError? {
        return Failed, m, order;
      }
      var existing := map[];
      var recorded := FindWorkloadsWithDrainNode(name, rolloutsListed, deploymentsListed);
      if recorded.Got? {
        existing := recorded.value;
      }
      var workloads := CollectWorkloads(pods.value, existing);
      CollectedWithin(pods.value, existing, workloads, store.objs.Keys);
      m := workloads;
      r, order := ReconcileAll(cfg, name, workloads.Values, env);
    }

    /** The loop of node reconcile over the workloads collected. */
    method ReconcileAll(cfg: Config, name: string, ids: set<Id>, env: Id -> Env)
      returns (r: Result, ghost order: seq<Id>)
      requires ids <= store.objs.Keys
      modifies this
      ensures Lists(order, ids) && Reconciled(cfg, name, env, old(store), order, store, r)
    {
      var requeueAfter, failed, visited := RunJobs(ReconcileJob(cfg, name, env), ids);
      order := visited;
      r := Requeue(requeueAfter);
      if 0 < cfg.requeue {
        ghost var at := Progress(store, requeueAfter, failed);
        LoopComesBackFor(ReconcileJob(cfg, name, env), old(store), order, ids, at);
      }
    }
  }

  /**
   The workloads have been reconciled in this order; and if a drain of the node is left on record at one of
   them that did not fail, the result asks to be back after a positive time of at most the requeue interval.
   */
  ghost predicate Reconciled(cfg: Config, name: string, env: Id -> Env, s: Store, order: seq<Id>, s': Store,
    r: Result) {
    var at := InOrder(Doing(ReconcileJob(cfg, name, env)), s, order);
    && s' == at.store
    && r == Requeue(at.requeueAfter)
    && (0 < cfg.requeue ==>
          forall id :: id in order && id in s'.objs && id !in at.failed ==>
            s'.objs[id].drain != Idle && s'.objs[id].node == Text(name) ==> 0 < r.after <= cfg.requeue)
  }

  /** The node was looked up, and is gone or has no drain taint. */
  predicate Clear(node: Read<Option<NodeInfo>>, taints: seq<string>) {
    node.Got? && !(node.value.Some? && HasDrainTaint(node.value.value, taints))
  }

  function OfKind(objs: map<Id, Obj>, kind: Kind): set<Id> {
    set id | id in objs && id.kind == kind
  }
}
