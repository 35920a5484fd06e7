/** Restart detection and the event filter in front of the restart machine. */
module RestartProperties {
  import opened Base
  import opened Surge
  import opened Inputs
  import opened RestartDetect
  import opened RM = RestartMachine

  /** Both scans look for an old pod, and their answers are opposite. */
  lemma {:induction false} ScansAreDual(pods: seq<Pod>, restartAt: int)
    ensures SomeOld(pods, restartAt) <==> exists p :: p in pods && IsOld(p, restartAt)
    ensures NoneOld(pods, restartAt) <==> !SomeOld(pods, restartAt)
  {
    if pods != [] {
      ScansAreDual(pods[1..], restartAt);
      assert forall p :: p in pods <==> p == pods[0] || p in pods[1..];
      if IsOld(pods[0], restartAt) {
        assert pods[0] in pods && SomeOld(pods, restartAt);
      } else {
        assert SomeOld(pods, restartAt) <==> SomeOld(pods[1..], restartAt);
      }
    }
  }

  /** A restart is stuck exactly when Argo has not completed it and the grace period is over. */
  lemma StuckIffIncompleteAndLate(ro: Rollout, pods: seq<Pod>, grace: int, now: int)
    requires 0 < grace <= MAX64
    ensures IsRestartStuck(ro, pods, grace, now) <==>
            !RestartCompleted(ro, pods) && now >= ro.restartAt.value + grace
  {
    if ro.restartAt.Some? {
      ScansAreDual(pods, ro.restartAt.value);
    }
  }

  /** With the pods as they are, a stuck restart stays stuck. */
  lemma StuckIsMonotone(ro: Rollout, pods: seq<Pod>, grace: int, now: int, later: int)
    requires now <= later && IsRestartStuck(ro, pods, grace, now)
    ensures IsRestartStuck(ro, pods, grace, later)
  {
  }

  /**
   In `ready`, with readable pods and a readable record, the machine scales down exactly when
   restartCompletedByArgo holds; the status fast path changes nothing but the need for the pods.
   */
  lemma FastPathAgrees(cfg: Config, o: Obj, x: RestartInputs)
    requires !RestoreInvalid(o)
    ensures x.pods.Got? ==> (RM.WaitForArgo(cfg, o, x).steps != [] <==> RestartCompleted(x.ro, x.pods.value))
    ensures x.pods.ReadError? ==> (RM.WaitForArgo(cfg, o, x).steps != [] <==> CaughtUp(x.ro))
  {
  }

  /**
   The event filter is sound: a Rollout it rejects is one that the full reconcile, whatever it reads,
   neither writes to nor asks to see again; it fails exactly if it gets to list the pods and cannot.
   */
  lemma RejectedMeansNothingToDo(cfg: Config, o: Obj, x: RestartInputs)
    requires !Relevant(o, x.enabled, x.ro)
    ensures RM.RestartPlan(cfg, o, x).steps == []
    ensures RM.RestartPlan(cfg, o, x).result ==
            if o.drain == Idle && x.enabled && o.replicas == 1 && x.pods.ReadError? then Failed else Requeue(0)
  {
  }

  /**
   On an idle workload at one replica the filter is exact: it accepts a Rollout if and only if some
   readable pods, budget, HPA and clock make the reconcile write or ask to see it again.
   */
  lemma FilterIsExact(cfg: Config, o: Obj, enabled: bool, ro: Rollout)
    requires o.restart == Idle && o.drain == Idle && o.replicas == 1 && cfg.grace > 0
    ensures Relevant(o, enabled, ro) <==> exists x :: OfRollout(x, enabled, ro) && RM.RestartPlan(cfg, o, x) != QUIET
  {
    if Relevant(o, enabled, ro) {
      var x := RestartInputs(enabled, ro, Got(false), Got(None), Got([]), 0);
      assert OfRollout(x, enabled, ro) && RM.RestartPlan(cfg, o, x) == Plan([], Requeue(cfg.grace));
    }
  }

  /** The reconcile reads this Rollout, and the list of its pods succeeds. */
  predicate OfRollout(x: RestartInputs, enabled: bool, ro: Rollout) {
    x.enabled == enabled && x.ro == ro && x.pods.Got?
  }
}
