/**
 Everything durable about all workloads and their HPAs, and what one job on one workload makes of it:
 the job reads the HPAs as they are and writes to whichever HPA it names.
 */
module Store {
  import opened Base
  import opened Surge
  import opened Inputs
  import opened Scaler
  import DM = DrainMachine
  import RM = RestartMachine

  datatype Kind = RolloutKind | DeploymentKind

  datatype Id = Id(kind: Kind, ns: string, name: string)

  function KindText(kind: Kind): string {
    if kind == RolloutKind then "Rollout" else "Deployment"
  }

  /** The workloads, and the HPAs in the order in which the API lists them. */
  datatype Store = Store(objs: map<Id, Obj>, hpas: seq<Listed>)

  /** HPAs have names, and no two in one namespace have the same. */
  predicate Proper(hpas: seq<Listed>) {
    && (forall k :: 0 <= k < |hpas| ==> hpas[k].hpa.name != "")
    && forall j, k :: 0 <= j < k < |hpas| ==> hpas[j].ns != hpas[k].ns || hpas[j].hpa.name != hpas[k].hpa.name
  }

  function MatchIndex(hpas: seq<Listed>, id: Id): nat {
    FirstFrom(hpas, id.ns, id.name, KindText(id.kind), 0)
  }

  /** What FindMatchingHPA answers for the workload. */
  function Match(hpas: seq<Listed>, id: Id): Option<Hpa> {
    if MatchIndex(hpas, id) < |hpas| then Some(hpas[MatchIndex(hpas, id)].hpa) else None
  }

  // ---------- Writes ----------

  predicate Names(e: Listed, ns: string, name: Value) {
    e.ns == ns && Text(e.hpa.name) == name
  }

  predicate Present(hpas: seq<Listed>, ns: string, name: Value) {
    exists k :: 0 <= k < |hpas| && Names(hpas[k], ns, name)
  }

  function WithMin(e: Listed, n: Int32): Listed {
    e.(hpa := e.hpa.(min := Some(n)))
  }

  function PatchMin(hpas: seq<Listed>, ns: string, name: Value, n: Int32): (r: seq<Listed>)
    ensures |r| == |hpas|
  {
    seq(|hpas|, k requires 0 <= k < |hpas| => if Names(hpas[k], ns, name) then WithMin(hpas[k], n) else hpas[k])
  }

  /** One write of a handler of workload id taking effect. */
  function LandIn(s: Store, id: Id, x: Write): Store {
    match x
    case SetWorkload(o) => s.(objs := s.objs[id := o])
    case SurgeHpa(name, n) => s.(hpas := PatchMin(s.hpas, id.ns, name, n))
    case RestoreHpa(name, n) => s.(hpas := PatchMin(s.hpas, id.ns, name, n))
  }

  predicate SucceedsIn(s: Store, id: Id, x: Write, f: Fate) {
    f == Fine && (x.SetWorkload? || Present(s.hpas, id.ns, x.name))
  }

  datatype Reply = Reply(store: Store, result: Result)

  /** A plan carried out on the store, as Execute does on a single workload. */
  function ExecuteIn(s: Store, id: Id, plan: Plan, fates: seq<Fate>): (r: Reply)
    ensures id in s.objs ==> r.store.objs.Keys == s.objs.Keys
    ensures |r.store.hpas| == |s.hpas|
    decreases |plan.steps|
  {
    if plan.steps == [] then Reply(s, plan.result)
    else
      var f := if fates == [] then Lost else fates[0];
      var s' := if f != Lost then LandIn(s, id, plan.steps[0].write) else s;
      if plan.steps[0].required && !SucceedsIn(s, id, plan.steps[0].write, f) then Reply(s', Failed)
      else ExecuteIn(s', id, Plan(plan.steps[1..], plan.result), if fates == [] then [] else fates[1..])
  }

  // ---------- Jobs ----------

  /** What one reconcile reads about a workload besides its HPA, and the fates of its writes. */
  datatype Env = Env(x: DM.DrainInputs, fates: seq<Fate>)

  /**
   What is done to each workload of a loop: a drain reconcile, a drain abort, or a look by one of the
   orphan scans.
   */
  datatype Job =
    | ReconcileJob(cfg: Config, node: string, env: Id -> Env)
    | AbortJob(fates: Id -> seq<Fate>)
    | OrphanJob(tainted: set<string>, fates: Id -> seq<Fate>)
    | RestartOrphanJob(ros: Id -> Rollout, fates: Id -> seq<Fate>)

  function Answer(r: Read<Option<Hpa>>, hpa: Option<Hpa>): Read<Option<Hpa>> {
    if r.Got? then Got(hpa) else ReadError
  }

  /** The inputs of a reconcile whose reads of the HPA, unless they fail, see this one. */
  function Seeing(x: DM.DrainInputs, hpa: Option<Hpa>): DM.DrainInputs {
    x.(hpaCheck := Answer(x.hpaCheck, hpa), hpa := Answer(x.hpa, hpa))
  }

  function PlanFor(job: Job, id: Id, o: Obj, hpa: Option<Hpa>): Plan {
    match job
    case ReconcileJob(cfg, node, env) => DM.DrainPlan(cfg, o, node, Seeing(env(id).x, hpa))
    case AbortJob(_) => DrainAbort(o)
    case OrphanJob(tainted, _) => DM.DrainOrphanPlan(o, tainted)
    case RestartOrphanJob(ros, _) => RM.RestartOrphanPlan(o, ros(id))
  }

  function FatesFor(job: Job, id: Id): seq<Fate> {
    match job
    case ReconcileJob(_, _, env) => env(id).fates
    case AbortJob(fates) => fates(id)
    case OrphanJob(_, fates) => fates(id)
    case RestartOrphanJob(_, fates) => fates(id)
  }

  /** The job on one workload. */
  function Do(job: Job, s: Store, id: Id): (r: Reply)
    requires id in s.objs
    ensures r.store.objs.Keys == s.objs.Keys && |r.store.hpas| == |s.hpas|
  {
    ExecuteIn(s, id, PlanFor(job, id, s.objs[id], Match(s.hpas, id)), FatesFor(job, id))
  }

  /** Something done to one workload of a store. */
  type Act = (Store, Id) -> Reply

  function Doing(job: Job): Act {
    (s: Store, id: Id) => if id in s.objs then Do(job, s, id) else Reply(s, Failed)
  }

  /** A reconcile of the loop reads the HPA that is first of its namespace to target the workload, or fails to. */
  lemma JobReads(job: Job, s: Store, id: Id)
    requires job.ReconcileJob? && id in s.objs
    ensures var x, hpa := job.env(id).x, Match(s.hpas, id);
            && PlanFor(job, id, s.objs[id], hpa) ==
               DM.DrainPlan(job.cfg, s.objs[id], job.node,
                            DM.DrainInputs(x.enabled, x.status, if x.hpaCheck.Got? then Got(hpa) else ReadError, x.pdb,
                                           if x.hpa.Got? then Got(hpa) else ReadError, x.pods, x.now))
            && FatesFor(job, id) == job.env(id).fates
    ensures Match(s.hpas, id).None? <==> forall k :: 0 <= k < |s.hpas| ==> !Owns(s.hpas[k], id)
    ensures Match(s.hpas, id).Some? ==>
              exists k :: 0 <= k < |s.hpas| && Match(s.hpas, id).value == s.hpas[k].hpa && Owns(s.hpas[k], id)
                          && forall j :: 0 <= j < k ==> !Owns(s.hpas[j], id)
  {
    var kind := KindText(id.kind);
    assert forall k :: 0 <= k < |s.hpas| ==> (Owns(s.hpas[k], id) <==> Targets(s.hpas[k], id.ns, id.name, kind));
    if Match(s.hpas, id).Some? {
      assert Owns(s.hpas[MatchIndex(s.hpas, id)], id);
    }
  }

  /** The HPA is of the workload's namespace and names it, with its kind, as its target. */
  predicate Owns(e: Listed, id: Id) {
    && e.ns == id.ns && e.target == id.name
    && e.kind == match id.kind case RolloutKind => "Rollout" case DeploymentKind => "Deployment"
  }

  /** A patch of an HPA sets the minimum of the one of that namespace and name, and changes nothing else. */
  lemma PatchMinIs(hpas: seq<Listed>, ns: string, name: Value, n: Int32, k: nat)
    requires k < |hpas|
    ensures var e := hpas[k];
            PatchMin(hpas, ns, name, n)[k] ==
            if e.ns == ns && Text(e.hpa.name) == name
            then Listed(e.ns, e.target, e.kind, Hpa(e.hpa.name, Some(n), e.hpa.max)) else e
  {
  }

  // ---------- What a job touches and depends on ----------

  /** The workload has the HPA on record, or a reconcile finds it as the workload's own. */
  predicate LinkedTo(job: Job, s: Store, id: Id, k: nat)
    requires id in s.objs && k < |s.hpas|
  {
    || Names(s.hpas[k], id.ns, s.objs[id].hpaName)
    || (job.ReconcileJob? && Match(s.hpas, id).Some? && Names(s.hpas[k], id.ns, Text(Match(s.hpas, id).value.name)))
  }

  /** The same HPAs up to their bounds. */
  predicate SameShape(hpas: seq<Listed>, hpas': seq<Listed>) {
    && |hpas| == |hpas'|
    && forall k :: 0 <= k < |hpas| ==>
        && hpas[k].ns == hpas'[k].ns && hpas[k].target == hpas'[k].target && hpas[k].kind == hpas'[k].kind
        && hpas[k].hpa.name == hpas'[k].hpa.name
  }

  /** Every HPA that a write of the plan could reach is among those numbered. */
  ghost predicate Reaches(hpas: seq<Listed>, ns: string, steps: seq<Step>, links: set<nat>) {
    forall p, k :: 0 <= p < |steps| && 0 <= k < |hpas| ==>
      !steps[p].write.SetWorkload? && Names(hpas[k], ns, steps[p].write.name) ==> k in links
  }

  /** The two stores look the same to a job on the workload. */
  ghost predicate Agree(s: Store, t: Store, id: Id, links: set<nat>) {
    && id in s.objs && id in t.objs && s.objs[id] == t.objs[id]
    && SameShape(s.hpas, t.hpas)
    && forall k :: k in links && k < |s.hpas| ==> s.hpas[k] == t.hpas[k]
  }

  /** Only the workload and the numbered HPAs have changed. */
  ghost predicate Local(s: Store, s': Store, id: Id, links: set<nat>) {
    && id in s'.objs && s'.objs == s.objs[id := s'.objs[id]]
    && SameShape(s.hpas, s'.hpas)
    && forall k :: 0 <= k < |s.hpas| && k !in links ==> s'.hpas[k] == s.hpas[k]
  }

  lemma LandIsLocal(s: Store, t: Store, id: Id, x: Step, links: set<nat>)
    requires Agree(s, t, id, links) && Reaches(s.hpas, id.ns, [x], links)
    ensures Local(s, LandIn(s, id, x.write), id, links)
    ensures Agree(LandIn(s, id, x.write), LandIn(t, id, x.write), id, links)
    ensures forall f :: SucceedsIn(s, id, x.write, f) == SucceedsIn(t, id, x.write, f)
  {
    assert [x][0] == x;
    if !x.write.SetWorkload? {
      assert forall k :: 0 <= k < |s.hpas| ==>
             Names(s.hpas[k], id.ns, x.write.name) == Names(t.hpas[k], id.ns, x.write.name);
    }
  }

  /** A plan changes and depends on nothing but its workload and the HPAs that it names. */
  lemma {:induction false} ExecuteIsLocal(s: Store, t: Store, id: Id, plan: Plan, fates: seq<Fate>, links: set<nat>)
    requires Agree(s, t, id, links) && Reaches(s.hpas, id.ns, plan.steps, links)
    ensures var r, q := ExecuteIn(s, id, plan, fates), ExecuteIn(t, id, plan, fates);
            r.result == q.result && Agree(r.store, q.store, id, links) && Local(s, r.store, id, links)
    decreases |plan.steps|
  {
    if plan.steps != [] {
      var x, f := plan.steps[0], if fates == [] then Lost else fates[0];
      assert Reaches(s.hpas, id.ns, [x], links) by {
        forall p | 0 <= p < |[x]| ensures [x][p] == plan.steps[p] {
        }
      }
      LandIsLocal(s, t, id, x, links);
      var s', t' := if f != Lost then LandIn(s, id, x.write) else s, if f != Lost then LandIn(t, id, x.write) else t;
      if !(x.required && !SucceedsIn(s, id, x.write, f)) {
        var rest := Plan(plan.steps[1..], plan.result);
        assert Reaches(s'.hpas, id.ns, rest.steps, links) by {
          forall p | 0 <= p < |rest.steps| ensures rest.steps[p] == plan.steps[p + 1] {
          }
          assert forall k, name :: 0 <= k < |s.hpas| ==>
                 Names(s'.hpas[k], id.ns, name) == Names(s.hpas[k], id.ns, name);
        }
        ExecuteIsLocal(s', t', id, rest, if fates == [] then [] else fates[1..], links);
      }
    }
  }

  /** The HPAs that a job on the workload can touch. */
  function LinkSet(job: Job, s: Store, id: Id): set<nat>
    requires id in s.objs
  {
    set k: nat | k < |s.hpas| && LinkedTo(job, s, id, k)
  }

  /** Every plan writes to the HPA on record or to the one that the reconcile found. */
  predicate WritesTo(steps: seq<Step>, recorded: Value, found: Option<Hpa>) {
    forall p :: 0 <= p < |steps| && !steps[p].write.SetWorkload? ==>
      (recorded != EMPTY && steps[p].write.name == recorded)
        || (found.Some? && steps[p].write.name == Text(found.value.name))
  }

  lemma DrainWritesTo(cfg: Config, o: Obj, node: string, x: DM.DrainInputs, hpa: Option<Hpa>)
    ensures WritesTo(DM.DrainPlan(cfg, o, node, Seeing(x, hpa)).steps, o.hpaName, hpa)
  {
    if o.drain == Ready {
      EvictionWritesTo(cfg, o, node, Seeing(x, hpa), hpa);
    }
  }

  lemma EvictionWritesTo(cfg: Config, o: Obj, node: string, x: DM.DrainInputs, hpa: Option<Hpa>)
    ensures WritesTo(DM.WaitEviction(cfg, o, node, x).steps, o.hpaName, hpa)
  {
  }

  lemma PlanReaches(job: Job, s: Store, id: Id)
    requires id in s.objs
    ensures Reaches(s.hpas, id.ns, PlanFor(job, id, s.objs[id], Match(s.hpas, id)).steps, LinkSet(job, s, id))
  {
    match job
    case ReconcileJob(cfg, node, env) => DrainWritesTo(cfg, s.objs[id], node, env(id).x, Match(s.hpas, id));
    case _ =>
  }

  /** First matches do not depend on the bounds of HPAs. */
  lemma SameIndex(hpas: seq<Listed>, hpas': seq<Listed>, id: Id)
    requires SameShape(hpas, hpas')
    ensures MatchIndex(hpas, id) == MatchIndex(hpas', id)
  {
    var i, j := MatchIndex(hpas, id), MatchIndex(hpas', id);
    assert i < |hpas| ==> Targets(hpas'[i], id.ns, id.name, KindText(id.kind));
    assert j < |hpas| ==> Targets(hpas[j], id.ns, id.name, KindText(id.kind));
  }

  /** A job reads and writes nothing but its own workload and the HPAs linked to it. */
  lemma DoIsLocal(job: Job, s: Store, t: Store, id: Id)
    requires id in s.objs && Agree(s, t, id, LinkSet(job, s, id))
    ensures var r, q := Do(job, s, id), Do(job, t, id);
            && r.result == q.result
            && Agree(r.store, q.store, id, LinkSet(job, s, id))
            && Local(s, r.store, id, LinkSet(job, s, id))
  {
    SameIndex(s.hpas, t.hpas, id);
    PlanReaches(job, s, id);
    var links := LinkSet(job, s, id);
    var o, k := s.objs[id], MatchIndex(s.hpas, id);
    if job.ReconcileJob? && k < |s.hpas| {
      assert k in links;
    }
    assert PlanFor(job, id, o, Match(s.hpas, id)) == PlanFor(job, id, o, Match(t.hpas, id));
    ExecuteIsLocal(s, t, id, PlanFor(job, id, o, Match(s.hpas, id)), FatesFor(job, id), links);
  }

  // ---------- A workload with an HPA to itself ----------

  /** The workload and the HPA that targets it, as the single-workload machines see them. */
  function WorldOf(s: Store, id: Id): World
    requires id in s.objs
  {
    World(s.objs[id], Match(s.hpas, id))
  }

  /** No other HPA than the one that targets the workload is on record there. */
  predicate OwnRecord(o: Obj, hpa: Option<Hpa>) {
    o.hpaName == EMPTY || (hpa.Some? && o.hpaName == Text(hpa.value.name))
  }

  lemma LandProjects(s: Store, id: Id, x: Write)
    requires id in s.objs && Proper(s.hpas)
    requires x.SetWorkload? || (Match(s.hpas, id).Some? && x.name == Text(Match(s.hpas, id).value.name))
    ensures var s' := LandIn(s, id, x);
            id in s'.objs && WorldOf(s', id) == Land(WorldOf(s, id), x) && SameShape(s.hpas, s'.hpas)
    ensures forall f :: SucceedsIn(s, id, x, f) == Succeeds(WorldOf(s, id), x, f)
  {
    SameIndex(s.hpas, LandIn(s, id, x).hpas, id);
    if !x.SetWorkload? {
      assert Names(s.hpas[MatchIndex(s.hpas, id)], id.ns, x.name);
    }
  }

  /** On such a workload the store and the single-workload model do the same. */
  lemma {:induction false} ExecuteProjects(s: Store, id: Id, plan: Plan, fates: seq<Fate>)
    requires id in s.objs && Proper(s.hpas)
    requires forall p :: 0 <= p < |plan.steps| && !plan.steps[p].write.SetWorkload? ==>
               Match(s.hpas, id).Some? && plan.steps[p].write.name == Text(Match(s.hpas, id).value.name)
    ensures var r, out := ExecuteIn(s, id, plan, fates), Execute(WorldOf(s, id), plan, fates);
            id in r.store.objs && r.result == out.result && WorldOf(r.store, id) == out.world
    decreases |plan.steps|
  {
    if plan.steps != [] {
      var x, f := plan.steps[0], if fates == [] then Lost else fates[0];
      LandProjects(s, id, x.write);
      var s' := if f != Lost then LandIn(s, id, x.write) else s;
      if !(x.required && !SucceedsIn(s, id, x.write, f)) {
        ExecuteProjects(s', id, Plan(plan.steps[1..], plan.result), if fates == [] then [] else fates[1..]);
      }
    }
  }

  /** The job done by the single-workload machine on the workload and its own HPA. */
  function DoAlone(job: Job, s: Store, id: Id): Outcome
    requires id in s.objs
  {
    Execute(WorldOf(s, id), PlanFor(job, id, s.objs[id], Match(s.hpas, id)), FatesFor(job, id))
  }

  lemma DoProjects(job: Job, s: Store, id: Id)
    requires id in s.objs && Proper(s.hpas) && OwnRecord(s.objs[id], Match(s.hpas, id))
    ensures var r, out := Do(job, s, id), DoAlone(job, s, id);
            id in r.store.objs && r.result == out.result && WorldOf(r.store, id) == out.world
  {
    var plan := PlanFor(job, id, s.objs[id], Match(s.hpas, id));
    assert forall p :: 0 <= p < |plan.steps| && !plan.steps[p].write.SetWorkload? ==>
        Match(s.hpas, id).Some? && plan.steps[p].write.name == Text(Match(s.hpas, id).value.name) by {
      if job.ReconcileJob? {
        DrainWritesTo(job.cfg, s.objs[id], job.node, job.env(id).x, Match(s.hpas, id));
      }
    }
    ExecuteProjects(s, id, plan, FatesFor(job, id));
  }
}
