/** The in-memory workload that the handlers change, and the API server that they patch. */
module Client {
  import opened Base
  import opened Surge
  import opened Annotations
  import opened MergePatch

  ghost function Without(a: Notes, keys: seq<Key>): Notes {
    a - (set k | k in keys)
  }

  lemma ViewCleared(replicas: Option<Int32>, a: Notes)
    ensures View(replicas, Without(a, OWNED)) == ClearAll(View(replicas, a))
  {
  }

  lemma ViewRestartCleared(replicas: Option<Int32>, a: Notes)
    ensures View(replicas, Without(a, RESTART_FULL)) == ClearRestart(View(replicas, a))
  {
  }

  lemma ViewRestartExclusiveCleared(replicas: Option<Int32>, a: Notes)
    ensures View(replicas, Without(a, RESTART_EXCLUSIVE)) == ClearRestartExclusive(View(replicas, a))
  {
  }

  /** A handler's copy of a Deployment or Rollout: spec.replicas and the annotations. */
  class Workload {
    var replicas: Option<Int32>
    var annotations: Notes

    constructor (replicas: Option<Int32>, annotations: Notes)
      ensures this.replicas == replicas && this.annotations == annotations
    {
      this.replicas, this.annotations := replicas, annotations;
    }

    /** The workload as the machines read it. */
    ghost function Seen(): Obj
      reads this
    {
      View(replicas, annotations)
    }

    function GetReplicas(): (n: Int32)
      reads this
      ensures n == Seen().replicas
    {
      if replicas.Some? then replicas.value else 1
    }

    method SetReplicas(n: Int32)
      modifies this`replicas
      ensures replicas == Some(n) && Seen() == old(Seen()).(replicas := n)
    {
      replicas := Some(n);
    }

    /** Sets drain-state. */
    method SetDrainState(s: State)
      requires s != Unknown
      modifies this`annotations
      ensures Seen() == old(Seen()).(drain := s)
    {
      annotations := annotations[DrainStateKey := Text(StateText(s))];
      StateRoundTrip(s);
    }

    /** Sets restart-surge-state. */
    method SetRestartState(s: State)
      requires s != Unknown
      modifies this`annotations
      ensures Seen() == old(Seen()).(restart := s)
    {
      annotations := annotations[RestartStateKey := Text(StateText(s))];
      StateRoundTrip(s);
    }

    method Delete(keys: seq<Key>)
      modifies this`annotations
      ensures annotations == Without(old(annotations), keys)
    {
      for i := 0 to |keys|
        invariant annotations == Without(old(annotations), keys[..i])
      {
        annotations := annotations - {keys[i]};
        assert keys[..i + 1] == keys[..i] + [keys[i]];
      }
      assert keys[..|keys|] == keys;
    }

    method ClearDrainAnnotations()
      modifies this`annotations
      ensures annotations == Without(old(annotations), OWNED) && Seen() == ClearAll(old(Seen()))
    {
      Delete(OWNED);
      ViewCleared(replicas, old(annotations));
    }

    method ClearRestartSurgeAnnotations()
      modifies this`annotations
      ensures annotations == Without(old(annotations), RESTART_FULL) && Seen() == ClearRestart(old(Seen()))
    {
      Delete(RESTART_FULL);
      ViewRestartCleared(replicas, old(annotations));
    }

    method ClearRestartSurgeExclusiveAnnotations()
      modifies this`annotations
      ensures annotations == Without(old(annotations), RESTART_EXCLUSIVE)
              && Seen() == ClearRestartExclusive(old(Seen()))
    {
      Delete(RESTART_EXCLUSIVE);
      ViewRestartExclusiveCleared(replicas, old(annotations));
    }
  }

  /** The server: the workload's document, its HPA, and the fates of the writes to come. */
  class Api {
    var doc: Json
    var hpa: Option<Hpa>
    var fates: seq<Fate>

    constructor (doc: Json, hpa: Option<Hpa>, fates: seq<Fate>)
      ensures this.doc == doc && this.hpa == hpa && this.fates == fates
    {
      this.doc, this.hpa, this.fates := doc, hpa, fates;
    }

    ghost function Stored(): World
      reads this
    {
      World(DocView(doc), hpa)
    }

    function Fate(): Fate
      reads this
    {
      if fates == [] then Lost else fates[0]
    }

    /** wl.Patch: the merge patch of the in-memory replicas and annotations. */
    method PatchWorkload(wl: Workload) returns (ok: bool)
      modifies this
      ensures ok == Succeeds(old(Stored()), SetWorkload(wl.Seen()), old(Fate()))
      ensures doc == if old(Fate()) == Lost then old(doc)
                     else Apply(old(doc), PatchDocument(wl.replicas, AnnotationPatch(wl.annotations)))
      ensures Stored() == if old(Fate()) == Lost then old(Stored()) else Land(old(Stored()), SetWorkload(wl.Seen()))
      ensures fates == if old(fates) == [] then [] else old(fates)[1..]
    {
      var fate := Fate();
      var patch := BuildPatch(wl.replicas, wl.annotations);
      if fate != Lost {
        PatchMakesView(doc, wl.replicas, wl.annotations);
        doc := Apply(doc, patch);
      }
      fates := if fates == [] then [] else fates[1..];
      ok := fate == Fine;
    }

    /** PatchHPAMinReplicas. */
    method PatchHpa(name: Value, min: Int32) returns (ok: bool)
      modifies this
      ensures ok == (old(Fate()) == Fine && HasHpa(old(Stored()), name))
      ensures doc == old(doc)
      ensures Stored() == if old(Fate()) == Lost then old(Stored()) else SetMin(old(Stored()), name, min)
      ensures fates == if old(fates) == [] then [] else old(fates)[1..]
    {
      var fate := Fate();
      var found := hpa.Some? && Text(hpa.value.name) == name;
      if fate != Lost && found {
        hpa := Some(hpa.value.(min := Some(min)));
      }
      fates := if fates == [] then [] else fates[1..];
      ok := fate == Fine && found;
    }
  }
}
