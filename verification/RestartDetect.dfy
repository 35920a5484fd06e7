/** Restart detection for Argo Rollouts. */
module RestartDetect {
  import opened Base
  import opened Inputs

  /** status.restartedAt has caught up with a pending spec.restartAt. */
  predicate CaughtUp(ro: Rollout) {
    ro.restartAt.Some? && ro.restartedAt == ro.restartAt
  }

  /** The pod holds a restart up: it is not terminating and predates it. */
  predicate IsOld(p: Pod, restartAt: int) {
    !p.terminating && p.created < restartAt
  }

  /** The scan of isRestartStuck, which stops at the first old pod. */
  predicate SomeOld(pods: seq<Pod>, restartAt: int) {
    if pods == [] then false
    else if pods[0].terminating then SomeOld(pods[1..], restartAt)
    else pods[0].created < restartAt || SomeOld(pods[1..], restartAt)
  }

  /** The scan of restartCompletedByArgo, which gives up at the first old pod. */
  predicate NoneOld(pods: seq<Pod>, restartAt: int) {
    if pods == [] then true
    else if pods[0].terminating then NoneOld(pods[1..], restartAt)
    else !(pods[0].created < restartAt) && NoneOld(pods[1..], restartAt)
  }

  predicate IsRestartStuck(ro: Rollout, pods: seq<Pod>, grace: int, now: int) {
    && ro.restartAt.Some?
    && !(ro.restartedAt.Some? && ro.restartedAt == ro.restartAt)
    && !(now < ro.restartAt.value)
    && !(Clamp64(now - ro.restartAt.value) < grace)
    && SomeOld(pods, ro.restartAt.value)
  }

  predicate RestartCompleted(ro: Rollout, pods: seq<Pod>) {
    || ro.restartAt.None?
    || (ro.restartedAt.Some? && ro.restartedAt == ro.restartAt)
    || NoneOld(pods, ro.restartAt.value)
  }

  /** argoIdle in the restart-surge orphan scan. */
  predicate ArgoIdle(ro: Rollout) {
    ro.restartAt.None? || (ro.restartedAt.Some? && ro.restartedAt == ro.restartAt)
  }
}
