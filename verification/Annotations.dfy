/** The owned annotations, their text, and how both machines decode them. */
module Annotations {
  import opened Base
  import opened Surge
  import opened Decimal

  /** An annotation key: one of the eight the controller owns, or any other. */
  datatype Key =
    | DrainStateKey
    | OriginalReplicasKey
    | DrainNodeKey
    | DrainStartKey
    | HpaNameKey
    | HpaMinKey
    | RestartStateKey
    | RestartStartKey
    | Other(name: string)

  /** drainAnnotationKeys: everything the controller owns. */
  const OWNED: seq<Key> := [DrainStateKey, OriginalReplicasKey, DrainNodeKey, DrainStartKey,
                            HpaNameKey, HpaMinKey, RestartStateKey, RestartStartKey]

  /** restartSurgeFullKeys: what a completed or aborted restart-surge clears. */
  const RESTART_FULL: seq<Key> := [RestartStateKey, RestartStartKey, OriginalReplicasKey, HpaNameKey, HpaMinKey]

  /** restartSurgeExclusiveKeys: what a yield clears. */
  const RESTART_EXCLUSIVE: seq<Key> := [RestartStateKey, RestartStartKey]

  type Notes = map<Key, Value>

  function Lookup(a: Notes, k: Key): Value {
    if k in a then a[k] else EMPTY
  }

  function StateText(s: State): string
    requires s != Unknown
  {
    match s
    case Idle => ""
    case Pending => "pending"
    case ScaledUp => "scaled-up"
    case Ready => "ready"
    case Draining => "draining"
    case Done => "done"
  }

  function ParseState(v: Value): State {
    if v == Text("") then Idle
    else if v == Text("pending") then Pending
    else if v == Text("scaled-up") then ScaledUp
    else if v == Text("ready") then Ready
    else if v == Text("draining") then Draining
    else if v == Text("done") then Done
    else Unknown
  }

  /** Every state the controller writes is read back as that state. */
  lemma StateRoundTrip(s: State)
    requires s != Unknown
    ensures ParseState(Text(StateText(s))) == s
  {
  }

  function ParseInt(v: Value): Option<int> {
    if v.Text? then Atoi(v.s) else None
  }

  /** getOriginalReplicas, whose int32 conversion drops the high bits. */
  function OriginalReplicas(a: Notes): Option<Int32> {
    var n := ParseInt(Lookup(a, OriginalReplicasKey));
    if n.Some? then Some(Wrap32(n.value)) else None
  }

  /** parseRFC3339Annotation. */
  function ParseStart(v: Value): Option<int> {
    if v.Stamp? then Some(v.at) else None
  }

  /** The workload as both machines read it. */
  function View(replicas: Option<Int32>, a: Notes): Obj {
    Obj(if replicas.Some? then replicas.value else 1,
        ParseState(Lookup(a, DrainStateKey)),
        OriginalReplicas(a),
        Lookup(a, DrainNodeKey),
        ParseStart(Lookup(a, DrainStartKey)),
        Lookup(a, HpaNameKey),
        ParseInt(Lookup(a, HpaMinKey)),
        ParseState(Lookup(a, RestartStateKey)),
        ParseStart(Lookup(a, RestartStartKey)))
  }

  /** Which annotations make which state, and that any other text makes an unknown one. */
  lemma StatesRead(a: Notes, k: Key)
    ensures var s := ParseState(Lookup(a, k));
            && (s == Idle <==> k !in a || a[k] == Text(""))
            && (s == Pending <==> k in a && a[k] == Text("pending"))
            && (s == ScaledUp <==> k in a && a[k] == Text("scaled-up"))
            && (s == Ready <==> k in a && a[k] == Text("ready"))
            && (s == Draining <==> k in a && a[k] == Text("draining"))
            && (s == Done <==> k in a && a[k] == Text("done"))
  {
    assert "pending"[0] == 'p' && "scaled-up"[0] == 's' && "ready"[0] == 'r' && |"draining"| == 8 && |"done"| == 4;
  }

  /** What the machines read of a workload, annotation by annotation. */
  lemma ViewRead(replicas: Option<Int32>, a: Notes)
    ensures var o := View(replicas, a);
            && o.replicas == (if replicas.Some? then replicas.value else 1)
            && o.drain == ParseState(Lookup(a, DrainStateKey))
            && o.restart == ParseState(Lookup(a, RestartStateKey))
            && o.node == (if DrainNodeKey in a then a[DrainNodeKey] else Text(""))
            && o.hpaName == (if HpaNameKey in a then a[HpaNameKey] else Text(""))
            && (forall t :: o.start == Some(t) <==> DrainStartKey in a && a[DrainStartKey] == Stamp(t))
            && (forall t :: o.restartStart == Some(t) <==> RestartStartKey in a && a[RestartStartKey] == Stamp(t))
            && (forall n: Int32 :: OriginalReplicasKey in a && a[OriginalReplicasKey] == Text(Itoa(n)) ==>
              o.original == Some(n))
            && (OriginalReplicasKey !in a || a[OriginalReplicasKey] == Text("") ==> o.original.None?)
            && (OriginalReplicasKey in a && a[OriginalReplicasKey].Stamp? ==> o.original.None?)
            && (forall n :: MIN64 <= n <= MAX64 && HpaMinKey in a && a[HpaMinKey] == Text(Itoa(n)) ==>
              o.hpaMin == Some(n))
            && (HpaMinKey !in a || a[HpaMinKey] == Text("") ==> o.hpaMin.None?)
  {
    forall n | MIN64 <= n <= MAX64 ensures Atoi(Itoa(n)) == Some(n) {
      AtoiItoa(n);
    }
  }

  /** A replica count written with strconv.Itoa is read back by getOriginalReplicas. */
  lemma OriginalReplicasRoundTrip(a: Notes, n: Int32)
    ensures OriginalReplicas(a[OriginalReplicasKey := Text(Itoa(n))]) == Some(n)
  {
    AtoiItoa(n);
  }
}
