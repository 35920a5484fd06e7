/** The handlers, called on copies of any age, produce stale runs; so what holds of those holds of the server. */
module EndToEnd {
  import opened Base
  import opened Surge
  import opened Joint
  import opened NoLeak
  import opened Client
  import opened Reconcilers
  import DM = DrainMachine
  import RM = RestartMachine

  /** The run so far, ending in what the server now holds. */
  ghost predicate History(cfg: Config, h: seq<World>, ms: seq<Landing>, resets: set<int>, stored: World) {
    StaleRun(cfg, h, ms) && ResetsWithin(ms, resets) && h[|h| - 1] == stored
  }

  /** A workload at one replica, with no operation on record and no HPA, reset by others to one replica only. */
  predicate NeverSurged(h: seq<World>, resets: set<int>) {
    h != [] && h[0].hpa.None? && h[0].obj.replicas == 1 && NoOwnedKeys(h[0].obj) && resets <= {1}
  }

  /** A plan decided on an earlier state and carried out now, under any fates, extends the run. */
  lemma CarriedOutExtends(cfg: Config, h: seq<World>, ms: seq<Landing>, resets: set<int>, a: Action, snap: nat,
                          before: World, fates: seq<Fate>, after: World, r: Result)
    returns (h': seq<World>, ms': seq<Landing>)
    requires History(cfg, h, ms, resets, before) && snap < |h| && HpaSeenIn(h, a)
    requires CarriedOut(before, PlanOf(cfg, h[snap].obj, a), fates, after, r)
    ensures History(cfg, h', ms', resets, after) && h <= h'
    ensures NeverSurged(h, resets) ==> Accounted(after.obj)
  {
    var plan := PlanOf(cfg, h[snap].obj, a);
    assert Plan(plan.steps[0..], plan.result) == plan;
    var picks := ExecuteLandsSome(before, plan, 0, fates);
    h', ms' := LandingsExtend(cfg, h, ms, a, snap, plan.steps, picks);
    ContinuesWithin(ms, ms', a, resets);
    if NeverSurged(h, resets) {
      NoLeakedSurge(cfg, h', ms', |h'| - 1);
    }
  }

  /**
   A drain reconcile given the workload as it was in any earlier state: the server's history stays a
   stale run, so a surge that it leaves behind is accounted for.
   */
  method DrainOnCopy(rec: NodeReconciler, wl: Workload, node: string, x: DM.DrainInputs,
                     ghost h: seq<World>, ghost ms: seq<Landing>, ghost resets: set<int>, ghost snap: nat)
    returns (r: Result, ghost h': seq<World>, ghost ms': seq<Landing>)
    requires History(rec.cfg, h, ms, resets, rec.api.Stored())
    requires snap < |h| && wl.Seen() == h[snap].obj && HpaSeenIn(h, DrainReconcile(node, x))
    modifies wl, rec.api
    ensures History(rec.cfg, h', ms', resets, rec.api.Stored()) && h <= h'
    ensures NeverSurged(h, resets) ==> Accounted(rec.api.Stored().obj)
  {
    ghost var before, fates, a := rec.api.Stored(), rec.api.fates, DrainReconcile(node, rec.OptedIn(wl, x));
    r := rec.ReconcileWorkload(wl, node, x);
    h', ms' := CarriedOutExtends(rec.cfg, h, ms, resets, a, snap, before, fates, rec.api.Stored(), r);
  }

  /** The same of a restart-surge reconcile. */
  method RestartOnCopy(rec: RolloutReconciler, wl: Workload, x: RM.RestartInputs,
                       ghost h: seq<World>, ghost ms: seq<Landing>, ghost resets: set<int>, ghost snap: nat)
    returns (r: Result, ghost h': seq<World>, ghost ms': seq<Landing>)
    requires History(rec.cfg, h, ms, resets, rec.api.Stored())
    requires snap < |h| && wl.Seen() == h[snap].obj && HpaSeenIn(h, RestartReconcile(x))
    modifies wl, rec.api
    ensures History(rec.cfg, h', ms', resets, rec.api.Stored()) && h <= h'
    ensures NeverSurged(h, resets) ==> Accounted(rec.api.Stored().obj)
  {
    ghost var before, fates, a := rec.api.Stored(), rec.api.fates, RestartReconcile(rec.OptedIn(wl, x));
    r := rec.ReconcileWorkload(wl, x);
    h', ms' := CarriedOutExtends(rec.cfg, h, ms, resets, a, snap, before, fates, rec.api.Stored(), r);
  }
}
