/**
 The loop of node reconcile over a Go map: what it does when no two workloads share an HPA, and that
 this is exactly when the order of the traversal does not matter.
 */
module Order {
  import opened Surge
  import opened Scaler
  import opened Store

  /** Where the loop stands: the store, the least requeue so far, and the workloads that failed. */
  datatype Progress = Progress(store: Store, requeueAfter: int, failed: set<Id>)

  /** The running minimum. */
  function Least(requeueAfter: int, r: Result): int {
    if r.Requeue? && r.after > 0 && (requeueAfter == 0 || r.after < requeueAfter) then r.after else requeueAfter
  }

  function Next(f: Act, at: Progress, id: Id): Progress {
    var r := f(at.store, id);
    Progress(r.store, Least(at.requeueAfter, r.result), if r.result.Failed? then at.failed + {id} else at.failed)
  }

  /** The loop, over the workloads in the given order, the last one last. */
  function InOrder(f: Act, s: Store, ids: seq<Id>): Progress {
    if ids == [] then Progress(s, 0, {}) else Next(f, InOrder(f, s, ids[..|ids| - 1]), ids[|ids| - 1])
  }

  /** The sequence lists every workload of the set once. */
  ghost predicate Lists(xs: seq<Id>, ids: set<Id>) {
    && (forall i, j :: 0 <= i < j < |xs| ==> xs[i] != xs[j])
    && forall id :: id in xs <==> id in ids
  }

  lemma ListsFront(xs: seq<Id>, ids: set<Id>)
    requires Lists(xs, ids) && xs != []
    ensures Lists(xs[..|xs| - 1], ids - {xs[|xs| - 1]}) && xs[|xs| - 1] in ids
  {
    var front, id := xs[..|xs| - 1], xs[|xs| - 1];
    assert forall a :: a in xs <==> a in front || a == id;
  }

  lemma ListsAppend(xs: seq<Id>, ys: seq<Id>, a: set<Id>, b: set<Id>)
    requires Lists(xs, a) && Lists(ys, b) && a !! b
    ensures Lists(xs + ys, a + b)
  {
    var zs := xs + ys;
    forall i, j | 0 <= i < j < |zs| ensures zs[i] != zs[j] {
      if i < |xs| <= j {
        assert xs[i] in xs && ys[j - |xs|] in ys;
      }
    }
  }

  lemma ListsOneMore(xs: seq<Id>, ids: set<Id>, todo: set<Id>, id: Id)
    requires Lists(xs, ids - todo) && todo <= ids && id in todo
    ensures Lists(xs + [id], ids - (todo - {id}))
  {
    ListsAppend(xs, [id], ids - todo, {id});
    assert ids - todo + {id} == ids - (todo - {id});
  }

  lemma InOrderSnoc(f: Act, s: Store, xs: seq<Id>, id: Id)
    ensures InOrder(f, s, xs + [id]) == Next(f, InOrder(f, s, xs), id)
  {
    assert (xs + [id])[..|xs|] == xs;
  }

  /** One loop after another is one loop. */
  lemma {:induction false} InOrderAppend(f: Act, s: Store, xs: seq<Id>, ys: seq<Id>)
    ensures InOrder(f, InOrder(f, s, xs).store, ys).store == InOrder(f, s, xs + ys).store
    decreases |ys|
  {
    if ys == [] {
      assert xs + ys == xs;
    } else {
      var front := ys[..|ys| - 1];
      InOrderAppend(f, s, xs, front);
      assert (xs + ys)[..|xs + ys| - 1] == xs + front;
    }
  }

  // ---------- Each workload for itself ----------

  /** Success, and a wish to see the workload again after a positive time. */
  predicate AsksFor(r: Result, t: int) {
    t > 0 && r == Requeue(t)
  }

  /** The least positive time that a success asks for, or zero if there is none. */
  ghost predicate LeastRequeue(results: map<Id, Result>, r: int) {
    && r >= 0
    && (r > 0 ==> exists id :: id in results && AsksFor(results[id], r))
    && forall id, t :: id in results && AsksFor(results[id], t) ==> 0 < r <= t
  }

  function Failures(results: map<Id, Result>): set<Id> {
    set id | id in results && results[id].Failed?
  }

  /** What the jobs of the set return, each on the store as it was. */
  function Results(f: Act, s: Store, ids: set<Id>): map<Id, Result> {
    map id | id in ids :: f(s, id).result
  }

  /** The numbers of the HPAs that a job on each workload can touch. */
  type Links = Id -> set<nat>

  function LinksOf(job: Job, s: Store): Links {
    id => if id in s.objs then LinkSet(job, s, id) else {}
  }

  ghost predicate ObjsDone(f: Act, s: Store, ids: set<Id>, objs: map<Id, Obj>) {
    && objs.Keys == s.objs.Keys
    && forall id :: id in objs ==>
        if id in ids then id in f(s, id).store.objs && objs[id] == f(s, id).store.objs[id] else objs[id] == s.objs[id]
  }

  /**
   Each HPA linked to a workload of the set is as that workload's job alone leaves it, and the others
   as they were.
   */
  ghost predicate HpasDone(f: Act, links: Links, s: Store, ids: set<Id>, hpas: seq<Listed>) {
    && SameShape(s.hpas, hpas)
    && (forall id :: id in ids ==> |f(s, id).store.hpas| == |hpas|)
    && (forall id, k :: id in ids && 0 <= k < |hpas| && k in links(id) ==> hpas[k] == f(s, id).store.hpas[k])
    && (forall k :: 0 <= k < |hpas| && (forall id :: id in ids ==> k !in links(id)) ==> hpas[k] == s.hpas[k])
  }

  /**
   Every workload of the set is as its job alone, on the store as it was, leaves it; so are the HPAs;
   nothing else has changed; and the requeue time and the failures are those of the jobs alone.
   */
  ghost predicate AsIfAlone(f: Act, links: Links, s: Store, ids: set<Id>, at: Progress) {
    && ObjsDone(f, s, ids, at.store.objs)
    && HpasDone(f, links, s, ids, at.store.hpas)
    && LeastRequeue(Results(f, s, ids), at.requeueAfter)
    && at.failed == Failures(Results(f, s, ids))
  }

  /** No HPA is linked to two workloads of the set. */
  ghost predicate Apart(links: Links, ids: set<Id>) {
    forall a, b, k :: a in ids && b in ids && k in links(a) && k in links(b) ==> a == b
  }

  /** On every store that looks the same to it the job does the same, and only to what is linked. */
  ghost predicate Settled(f: Act, links: Links, s: Store, ids: set<Id>) {
    forall id, t :: id in ids && Agree(s, t, id, links(id)) ==>
      && f(t, id).result == f(s, id).result
      && Agree(f(s, id).store, f(t, id).store, id, links(id))
      && Local(t, f(t, id).store, id, links(id))
  }

  lemma HpasOneMore(f: Act, links: Links, s: Store, ids: set<Id>, t: Store, id: Id)
    requires Apart(links, ids + {id}) && id !in ids && HpasDone(f, links, s, ids, t.hpas)
    requires Local(t, f(t, id).store, id, links(id)) && Agree(f(s, id).store, f(t, id).store, id, links(id))
    ensures HpasDone(f, links, s, ids + {id}, f(t, id).store.hpas)
  {
    var hpas := f(t, id).store.hpas;
    forall a, k | a in ids + {id} && 0 <= k < |hpas| && k in links(a) ensures hpas[k] == f(s, a).store.hpas[k] {
      if a != id {
        assert k !in links(id);
      }
    }
    forall k | 0 <= k < |hpas| && forall a :: a in ids + {id} ==> k !in links(a) ensures hpas[k] == s.hpas[k] {
      assert id in ids + {id};
      assert forall a :: a in ids ==> a in ids + {id} && k !in links(a);
    }
  }

  lemma ObjsOneMore(f: Act, links: Links, s: Store, ids: set<Id>, t: Store, id: Id)
    requires id in s.objs && ObjsDone(f, s, ids, t.objs)
    requires Local(t, f(t, id).store, id, links(id)) && Agree(f(s, id).store, f(t, id).store, id, links(id))
    ensures ObjsDone(f, s, ids + {id}, f(t, id).store.objs)
  {
  }

  lemma LeastOneMore(results: map<Id, Result>, before: int, id: Id, r: Result)
    requires id !in results && LeastRequeue(results, before)
    ensures LeastRequeue(results[id := r], Least(before, r))
  {
    var after, more := Least(before, r), results[id := r];
    if after > 0 && after == before {
      var other :| other in results && AsksFor(results[other], before);
      assert AsksFor(more[other], after);
    } else if after > 0 {
      assert AsksFor(more[id], after);
    }
    forall other, t | other in more && AsksFor(more[other], t) ensures 0 < after <= t {
      assert other != id ==> AsksFor(results[other], t);
    }
  }

  /** To a workload not yet visited the store looks as it did at the start. */
  lemma LooksTheSame(f: Act, links: Links, s: Store, ids: set<Id>, t: Store, id: Id)
    requires id in s.objs && id !in ids && Apart(links, ids + {id}) && Settled(f, links, s, ids + {id})
    requires ObjsDone(f, s, ids, t.objs) && HpasDone(f, links, s, ids, t.hpas)
    ensures f(t, id).result == f(s, id).result
    ensures Agree(f(s, id).store, f(t, id).store, id, links(id)) && Local(t, f(t, id).store, id, links(id))
  {
    forall k | k in links(id) && k < |s.hpas| ensures s.hpas[k] == t.hpas[k] {
      assert forall other :: other in ids ==> k !in links(other);
    }
    assert Agree(s, t, id, links(id));
  }

  lemma AloneOneMore(f: Act, links: Links, s: Store, ids: set<Id>, at: Progress, id: Id)
    requires id in s.objs && id !in ids && Apart(links, ids + {id}) && Settled(f, links, s, ids + {id})
    requires AsIfAlone(f, links, s, ids, at)
    ensures AsIfAlone(f, links, s, ids + {id}, Next(f, at, id))
  {
    var results, r := Results(f, s, ids), f(s, id).result;
    LooksTheSame(f, links, s, ids, at.store, id);
    HpasOneMore(f, links, s, ids, at.store, id);
    ObjsOneMore(f, links, s, ids, at.store, id);
    LeastOneMore(results, at.requeueAfter, id, r);
    FailuresOneMore(results, id, r);
    assert Results(f, s, ids + {id}) == results[id := r];
  }

  lemma FailuresOneMore(results: map<Id, Result>, id: Id, r: Result)
    requires id !in results
    ensures Failures(results[id := r]) == if r.Failed? then Failures(results) + {id} else Failures(results)
  {
  }

  lemma {:induction false} LoopIs(f: Act, links: Links, s: Store, xs: seq<Id>, ids: set<Id>)
    requires ids <= s.objs.Keys && Lists(xs, ids) && Apart(links, ids) && Settled(f, links, s, ids)
    ensures AsIfAlone(f, links, s, ids, InOrder(f, s, xs))
    decreases |xs|
  {
    if xs != [] {
      var front, id := xs[..|xs| - 1], xs[|xs| - 1];
      ListsFront(xs, ids);
      LoopIs(f, links, s, front, ids - {id});
      assert ids - {id} + {id} == ids;
      AloneOneMore(f, links, s, ids - {id}, InOrder(f, s, front), id);
    }
  }

  lemma AloneIsUnique(f: Act, links: Links, s: Store, ids: set<Id>, at: Progress, other: Progress)
    requires AsIfAlone(f, links, s, ids, at) && AsIfAlone(f, links, s, ids, other)
    ensures at == other
  {
    assert at.store.objs == other.store.objs;
    forall k | 0 <= k < |s.hpas| ensures at.store.hpas[k] == other.store.hpas[k] {
      if id :| id in ids && k in links(id) {
        assert at.store.hpas[k] == f(s, id).store.hpas[k];
      }
    }
    assert at.store.hpas == other.store.hpas;
  }

  // ---------- The controller's jobs ----------

  lemma SameLinkSet(job: Job, job': Job, s: Store, t: Store, id: Id)
    requires id in s.objs && id in t.objs && s.objs[id].hpaName == t.objs[id].hpaName && SameShape(s.hpas, t.hpas)
    requires job.ReconcileJob? == job'.ReconcileJob?
    ensures LinkSet(job, s, id) == LinkSet(job', t, id)
  {
    SameIndex(s.hpas, t.hpas, id);
  }

  lemma JobSettled(job: Job, s: Store, t: Store, id: Id)
    requires id in s.objs && Agree(s, t, id, LinkSet(job, s, id))
    ensures Do(job, t, id).result == Do(job, s, id).result
    ensures Agree(Do(job, s, id).store, Do(job, t, id).store, id, LinkSet(job, s, id))
    ensures Local(t, Do(job, t, id).store, id, LinkSet(job, s, id))
  {
    DoIsLocal(job, s, t, id);
    SameLinkSet(job, job, s, t, id);
    DoIsLocal(job, t, s, id);
  }

  lemma JobsSettled(job: Job, s: Store, ids: set<Id>)
    requires ids <= s.objs.Keys
    ensures Settled(Doing(job), LinksOf(job, s), s, ids)
  {
    forall id, t | id in ids && Agree(s, t, id, LinksOf(job, s)(id))
      ensures Doing(job)(t, id).result == Doing(job)(s, id).result
      ensures Agree(Doing(job)(s, id).store, Doing(job)(t, id).store, id, LinksOf(job, s)(id))
      ensures Local(t, Doing(job)(t, id).store, id, LinksOf(job, s)(id))
    {
      JobSettled(job, s, t, id);
    }
  }

  /** No HPA is on record at, or found by a reconcile for, two workloads of the set. */
  ghost predicate Disjoint(job: Job, s: Store, ids: set<Id>) {
    Apart(LinksOf(job, s), ids)
  }

  /** If no two workloads share an HPA, the loop does to each what its job alone would, in whatever order. */
  lemma InOrderIs(job: Job, s: Store, xs: seq<Id>, ids: set<Id>)
    requires ids <= s.objs.Keys && Lists(xs, ids) && Disjoint(job, s, ids)
    ensures AsIfAlone(Doing(job), LinksOf(job, s), s, ids, InOrder(Doing(job), s, xs))
  {
    JobsSettled(job, s, ids);
    LoopIs(Doing(job), LinksOf(job, s), s, xs, ids);
  }

  /** Then node reconcile does not depend on the order in which Go happens to traverse its map. */
  lemma OrderDoesNotMatter(job: Job, s: Store, ids: set<Id>, xs: seq<Id>, ys: seq<Id>)
    requires ids <= s.objs.Keys && Lists(xs, ids) && Lists(ys, ids) && Disjoint(job, s, ids)
    ensures InOrder(Doing(job), s, xs) == InOrder(Doing(job), s, ys)
  {
    InOrderIs(job, s, xs, ids);
    InOrderIs(job, s, ys, ids);
    AloneIsUnique(Doing(job), LinksOf(job, s), s, ids, InOrder(Doing(job), s, xs), InOrder(Doing(job), s, ys));
  }

  /**
   And each workload that has no HPA but its own on record fares as in the single-workload model, so
   that the theorems about runs of one workload apply to each.
   */
  lemma LoopProjects(job: Job, s: Store, ids: set<Id>, xs: seq<Id>, id: Id)
    requires job.ReconcileJob? && ids <= s.objs.Keys && Lists(xs, ids) && Disjoint(job, s, ids) && Proper(s.hpas)
    requires id in ids && OwnRecord(s.objs[id], Match(s.hpas, id))
    ensures var t := InOrder(Doing(job), s, xs).store; id in t.objs && WorldOf(t, id) == DoAlone(job, s, id).world
  {
    InOrderIs(job, s, xs, ids);
    var t := InOrder(Doing(job), s, xs).store;
    assert t.objs[id] == Doing(job)(s, id).store.objs[id];
    assert forall k :: 0 <= k < |t.hpas| && k in LinkSet(job, s, id) ==> t.hpas[k] == Doing(job)(s, id).store.hpas[k];
    SameWorld(job, s, t, id);
  }

  lemma SameWorld(job: Job, s: Store, t: Store, id: Id)
    requires job.ReconcileJob? && id in s.objs && Proper(s.hpas) && OwnRecord(s.objs[id], Match(s.hpas, id))
    requires id in t.objs && t.objs[id] == Do(job, s, id).store.objs[id] && SameShape(s.hpas, t.hpas)
    requires forall k :: k in LinkSet(job, s, id) && k < |t.hpas| ==> t.hpas[k] == Do(job, s, id).store.hpas[k]
    ensures WorldOf(t, id) == DoAlone(job, s, id).world
  {
    DoProjects(job, s, id);
    DoIsLocal(job, s, s, id);
    SameIndex(s.hpas, t.hpas, id);
    SameIndex(s.hpas, Do(job, s, id).store.hpas, id);
    var k := MatchIndex(s.hpas, id);
    if k < |s.hpas| {
      assert k in LinkSet(job, s, id);
    }
  }
}
