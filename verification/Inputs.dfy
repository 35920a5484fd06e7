/** What the handlers read besides the workload's own annotations: pods and workload status. */
module Inputs {
  import opened Base

  datatype Phase = Running | Succeeded | PodFailed | OtherPhase

  datatype Pod = Pod(node: string, ready: bool, terminating: bool, phase: Phase, created: int)

  /** FindReadyPodOnOtherNode over the pods that match the selector. */
  predicate ReadyElsewhere(pods: seq<Pod>, node: string) {
    exists p :: p in pods && p.node != node && p.ready && !p.terminating
  }

  /** FindPodOnNode over the pods that match the selector. */
  predicate LivePodOn(pods: seq<Pod>, node: string) {
    exists p :: p in pods && p.node == node && !p.terminating && p.phase != Succeeded && p.phase != PodFailed
  }

  function ReadyCount(pods: seq<Pod>): (n: nat)
    ensures n <= |pods|
  {
    if pods == [] then 0
    else ReadyCount(pods[..|pods| - 1]) +
         (var p := pods[|pods| - 1]; if !p.terminating && p.ready then 1 else 0)
  }

  /** A Rollout's phase, and the parts of its status and spec that concern restarts. */
  datatype RolloutPhase = Healthy | Progressing | OtherRolloutPhase

  datatype Rollout = Rollout(phase: RolloutPhase, message: string, restartAt: Option<int>, restartedAt: Option<int>)

  datatype Deployment = Deployment(
    newReplicaSetAvailable: bool,
    observedGeneration: int,
    generation: int,
    recreate: bool)

  datatype Status = RolloutStatus(ro: Rollout) | DeploymentStatus(d: Deployment)

  predicate IsStable(s: Status) {
    match s
    case RolloutStatus(ro) => ro.phase == Healthy
    case DeploymentStatus(d) => d.newReplicaSetAvailable || d.observedGeneration == d.generation
  }

  predicate CanSurge(s: Status) {
    s.DeploymentStatus? ==> !s.d.recreate
  }

  const RESTARTING := "rollout is restarting"

  predicate IsStableForRestart(ro: Rollout) {
    ro.phase == Healthy || (ro.phase == Progressing && ro.message == RESTARTING)
  }
}
