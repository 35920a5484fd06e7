/** The searches over pods, PodDisruptionBudgets and HPAs. */
module Scaler {
  import opened Base
  import opened Surge
  import opened Inputs

  // ---------- Pods ----------

  method FindReadyPodOnOtherNode(pods: seq<Pod>, drainNode: string) returns (found: bool)
    ensures found <==> ReadyElsewhere(pods, drainNode)
  {
    for i := 0 to |pods|
      invariant forall k :: 0 <= k < i ==> !(pods[k].node != drainNode && pods[k].ready && !pods[k].terminating)
    {
      if pods[i].node != drainNode && pods[i].ready && !pods[i].terminating {
        return true;
      }
    }
    return false;
  }

  method FindPodOnNode(pods: seq<Pod>, node: string) returns (found: bool)
    ensures found <==> LivePodOn(pods, node)
  {
    for i := 0 to |pods|
      invariant forall k :: 0 <= k < i ==>
        !(pods[k].node == node && !pods[k].terminating && pods[k].phase != Succeeded && pods[k].phase != PodFailed)
    {
      var p := pods[i];
      if p.node == node && !p.terminating && p.phase != Succeeded && p.phase != PodFailed {
        return true;
      }
    }
    return false;
  }

  /** The counting loop of handleRestartWaitReady. */
  method CountReady(pods: seq<Pod>) returns (readyCount: nat)
    ensures readyCount == ReadyCount(pods)
  {
    readyCount := 0;
    for i := 0 to |pods|
      invariant readyCount == ReadyCount(pods[..i])
    {
      assert pods[..i + 1][..i] == pods[..i];
      if !pods[i].terminating && pods[i].ready {
        readyCount := readyCount + 1;
      }
    }
    assert pods[..|pods|] == pods;
  }

  /**
   Two Ready pods that are not terminating are really two: the count reaches 2 exactly when there are
   two positions.
   */
  lemma {:induction false} TwoReady(pods: seq<Pod>)
    ensures ReadyCount(pods) >= 1 <==> exists i :: 0 <= i < |pods| && Counts(pods[i])
    ensures ReadyCount(pods) >= 2 <==> exists i, j :: 0 <= i < j < |pods| && Counts(pods[i]) && Counts(pods[j])
  {
    if pods != [] {
      var n := |pods| - 1;
      var front := pods[..n];
      TwoReady(front);
      assert forall i :: 0 <= i < n ==> front[i] == pods[i];
      if Counts(pods[n]) {
        if i :| 0 <= i < n && Counts(front[i]) {
          assert Counts(pods[i]) && Counts(pods[n]);
        }
      }
      if ReadyCount(front) >= 2 {
        var i, j :| 0 <= i < j < n && Counts(front[i]) && Counts(front[j]);
        assert Counts(pods[i]) && Counts(pods[j]);
      }
      if ReadyCount(front) >= 1 {
        var i :| 0 <= i < n && Counts(front[i]);
        assert Counts(pods[i]);
      }
    }
  }

  predicate Counts(p: Pod) { !p.terminating && p.ready }

  // ---------- Label selectors ----------

  type Labels = map<string, string>

  /** Values are a list, since the comparison renders them in sorted order but with repetitions. */
  datatype Requirement =
    | Equals(key: string, value: string)
    | In(key: string, values: multiset<string>)
    | NotIn(key: string, values: multiset<string>)
    | Exists(key: string)
    | DoesNotExist(key: string)

  predicate Satisfies(l: Labels, r: Requirement) {
    match r
    case Equals(k, v) => k in l && l[k] == v
    case In(k, vs) => k in l && l[k] in vs
    case NotIn(k, vs) => k in l ==> l[k] !in vs
    case Exists(k) => k in l
    case DoesNotExist(k) => k !in l
  }

  /** What the operators mean, each by the others. */
  lemma RequirementLaws(l: Labels, k: string, v: string, vs: multiset<string>)
    ensures Satisfies(l, Equals(k, v)) <==> k in l && l[k] == v
    ensures Satisfies(l, In(k, vs)) <==> exists u :: u in vs && Satisfies(l, Equals(k, u))
    ensures Satisfies(l, NotIn(k, vs)) <==> !Satisfies(l, In(k, vs))
    ensures Satisfies(l, Exists(k)) <==> exists u :: Satisfies(l, Equals(k, u))
    ensures Satisfies(l, DoesNotExist(k)) <==> !Satisfies(l, Exists(k))
  {
    if k in l {
      assert Satisfies(l, Equals(k, l[k]));
    }
  }

  /** labels.Nothing(), which a nil or malformed LabelSelector becomes, or a list of requirements. */
  datatype Selector = Nothing | Where(reqs: seq<Requirement>)

  predicate Matches(s: Selector, l: Labels) {
    s.Where? && forall i :: 0 <= i < |s.reqs| ==> Satisfies(l, s.reqs[i])
  }

  /** A selector selects what satisfies all its requirements; Nothing selects nothing. */
  lemma SelectorLaws(l: Labels, reqs: seq<Requirement>, r: Requirement)
    ensures !Matches(Nothing, l) && Matches(Where([]), l)
    ensures Matches(Where(reqs + [r]), l) <==> Matches(Where(reqs), l) && Satisfies(l, r)
  {
    var more := reqs + [r];
    assert more[|reqs|] == r && forall i :: 0 <= i < |reqs| ==> more[i] == reqs[i];
  }

  function Requirements(s: Selector): seq<Requirement> {
    if s.Where? then s.reqs else []
  }

  method RequirementsMatch(pdbReqs: seq<Requirement>, workloadReqs: seq<Requirement>) returns (b: bool)
    ensures b <==> pdbReqs != [] && forall r :: r in pdbReqs ==> r in workloadReqs
  {
    if |pdbReqs| == 0 {
      return false;
    }
    for i := 0 to |pdbReqs|
      invariant forall k :: 0 <= k < i ==> pdbReqs[k] in workloadReqs
    {
      var found := false;
      for j := 0 to |workloadReqs|
        invariant !found && forall k :: 0 <= k < j ==> workloadReqs[k] != pdbReqs[i]
      {
        if pdbReqs[i] == workloadReqs[j] {
          found := true;
          break;
        }
      }
      if !found {
        assert pdbReqs[i] in pdbReqs && pdbReqs[i] !in workloadReqs;
        return false;
      }
    }
    return true;
  }

  /** A budget covers a workload when it selects every pod that the workload selects. */
  ghost predicate Covers(pdb: Selector, workload: Selector) {
    forall l: Labels :: Matches(workload, l) ==> Matches(pdb, l)
  }

  predicate Accepts(pdb: Selector, workload: Selector) {
    Requirements(pdb) != [] && forall r :: r in Requirements(pdb) ==> r in Requirements(workload)
  }

  /** Soundness: a budget that is accepted covers all the workload's pods. */
  lemma AcceptedCovers(pdb: Selector, workload: Selector)
    requires Accepts(pdb, workload)
    ensures Covers(pdb, workload) && workload.Where?
  {
    forall l: Labels | Matches(workload, l) ensures Matches(pdb, l) {
      forall i | 0 <= i < |pdb.reqs| ensures Satisfies(l, pdb.reqs[i]) {
        assert pdb.reqs[i] in pdb.reqs;
      }
    }
    assert pdb.reqs[0] in pdb.reqs;
  }

  /**
   The converse fails. A budget for app in (a, b) covers a workload for app=a, and one for app in (a)
   selects the same pods as the workload; neither is accepted.
   */
  lemma CoveringIsNotEnough()
    ensures var wl := Where([Equals("app", "a")]);
            var wide, same := Where([In("app", multiset{"a", "b"})]), Where([In("app", multiset{"a"})]);
            && Covers(wide, wl) && !Accepts(wide, wl)
            && Covers(same, wl) && Covers(wl, same) && !Accepts(same, wl)
  {
    var e, p, q := Equals("app", "a"), In("app", multiset{"a", "b"}), In("app", multiset{"a"});
    var wl, wide, same := Where([e]), Where([p]), Where([q]);
    forall l: Labels ensures (Matches(wl, l) <==> Matches(same, l)) && (Matches(wl, l) ==> Matches(wide, l)) {
      if Matches(wl, l) {
        assert Satisfies(l, wl.reqs[0]);
      }
      if Matches(same, l) {
        assert Satisfies(l, same.reqs[0]);
      }
    }
    assert p in wide.reqs && q in same.reqs;
  }

  /** Some budget is accepted. Budgets without a selector, or with one that does not parse, are None. */
  predicate Budgeted(pdbs: seq<Option<Selector>>, workload: Selector) {
    exists i :: 0 <= i < |pdbs| && pdbs[i].Some? && Accepts(pdbs[i].value, workload)
  }

  method FindMatchingPDB(pdbs: seq<Option<Selector>>, workload: Selector) returns (found: bool)
    ensures found <==> Budgeted(pdbs, workload)
    ensures found ==> exists i :: 0 <= i < |pdbs| && pdbs[i].Some? && Covers(pdbs[i].value, workload)
    ensures workload.Nothing? ==> !found
  {
    for i := 0 to |pdbs|
      invariant forall k :: 0 <= k < i ==> !(pdbs[k].Some? && Accepts(pdbs[k].value, workload))
    {
      if pdbs[i].Some? {
        var b := RequirementsMatch(Requirements(pdbs[i].value), Requirements(workload));
        if b {
          AcceptedCovers(pdbs[i].value, workload);
          return true;
        }
      }
    }
    if workload.Nothing? {
      forall i | 0 <= i < |pdbs| && pdbs[i].Some? ensures !Accepts(pdbs[i].value, workload) {
      }
    }
    return false;
  }

  // ---------- HPAs ----------

  /** An HPA as the API lists it: its namespace, its scaleTargetRef and its bounds. */
  datatype Listed = Listed(ns: string, target: string, kind: string, hpa: Hpa)

  predicate Targets(e: Listed, ns: string, name: string, kind: string) {
    e.ns == ns && e.target == name && e.kind == kind
  }

  /** The position, from i on, of the first HPA of the namespace that targets the workload. */
  function FirstFrom(hpas: seq<Listed>, ns: string, name: string, kind: string, i: nat): (k: nat)
    requires i <= |hpas|
    ensures i <= k <= |hpas|
    ensures k < |hpas| ==> Targets(hpas[k], ns, name, kind)
    ensures forall j :: i <= j < k ==> !Targets(hpas[j], ns, name, kind)
    decreases |hpas| - i
  {
    if i == |hpas| || Targets(hpas[i], ns, name, kind) then i else FirstFrom(hpas, ns, name, kind, i + 1)
  }

  /** The first HPA in the namespace that targets the workload. */
  method FindMatchingHPA(hpas: seq<Listed>, ns: string, name: string, kind: string) returns (r: Option<Hpa>)
    ensures var k := FirstFrom(hpas, ns, name, kind, 0); r == if k < |hpas| then Some(hpas[k].hpa) else None
    ensures r.None? <==> forall i :: 0 <= i < |hpas| ==> !Targets(hpas[i], ns, name, kind)
  {
    for i := 0 to |hpas|
      invariant forall k :: 0 <= k < i ==> !Targets(hpas[k], ns, name, kind)
    {
      if hpas[i].ns == ns && hpas[i].target == name && hpas[i].kind == kind {
        return Some(hpas[i].hpa);
      }
    }
    return None;
  }
}
