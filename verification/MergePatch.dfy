/** JSON merge patch, section 2 of RFC 7396, and the patch document of patchReplicasAndAnnotations. */
module MergePatch {
  import opened Base
  import opened Surge
  import opened Annotations

  /** A JSON value. Member names are annotation keys or any other text. */
  datatype Json = Null | Number(n: int) | Str(v: Value) | Object(members: map<Key, Json>)

  function Members(j: Json): map<Key, Json> {
    if j.Object? then j.members else map[]
  }

  /** A member, or null when there is none. */
  function Member(j: Json, k: Key): Json {
    if k in Members(j) then Members(j)[k] else Null
  }

  /** The MergePatch procedure of section 2 of RFC 7396. */
  function Apply(target: Json, patch: Json): Json
    decreases patch
  {
    if patch.Object? then
      Object(map k | k in Members(target).Keys + patch.members.Keys && !(k in patch.members && patch.members[k].Null?)
                 :: if k in patch.members then Apply(Member(target, k), patch.members[k]) else Members(target)[k])
    else patch
  }

  // ---------- A workload as a document ----------

  const SPEC := Other("spec")
  const REPLICAS := Other("replicas")
  const METADATA := Other("metadata")
  const ANNOTATIONS := Other("annotations")

  lemma NamesDiffer()
    ensures SPEC != METADATA
  {
  }

  function DocReplicas(doc: Json): Option<Int32> {
    var n := Member(Member(doc, SPEC), REPLICAS);
    if n.Number? && MIN32 <= n.n <= MAX32 then Some(n.n) else None
  }

  function DocAnnotations(doc: Json): Json {
    Member(Member(doc, METADATA), ANNOTATIONS)
  }

  function DocNotes(doc: Json): Notes {
    var m := Members(DocAnnotations(doc));
    map k | k in m && m[k].Str? :: m[k].v
  }

  /** The workload that a server document stands for. */
  function DocView(doc: Json): Obj {
    View(DocReplicas(doc), DocNotes(doc))
  }

  /** The annotations part: what is in the map is set, and owned keys that are not are deleted. */
  function AnnotationPatch(a: Notes): map<Key, Json> {
    map k | k in a.Keys + (set o | o in OWNED) :: if k in a then Str(a[k]) else Null
  }

  function PatchDocument(replicas: Option<Int32>, annotations: map<Key, Json>): Json {
    var n := if replicas.Some? then Number(replicas.value) else Null;
    Object(map[SPEC := Object(map[REPLICAS := n]), METADATA := Object(map[ANNOTATIONS := Object(annotations)])])
  }

  /** patchReplicasAndAnnotations, up to sending the document. */
  method BuildPatch(replicas: Option<Int32>, a: Notes) returns (patch: Json)
    ensures patch == PatchDocument(replicas, AnnotationPatch(a))
  {
    var annoPatch: map<Key, Json> := map[];
    var todo := a.Keys;
    while todo != {}
      invariant todo <= a.Keys
      invariant annoPatch == map k | k in a.Keys - todo :: Str(a[k])
      decreases todo
    {
      var k :| k in todo;
      annoPatch := annoPatch[k := Str(a[k])];
      todo := todo - {k};
    }
    for i := 0 to |OWNED|
      invariant annoPatch == map k | k in a.Keys + (set o | o in OWNED[..i]) :: if k in a then Str(a[k]) else Null
    {
      assert OWNED[..i + 1] == OWNED[..i] + [OWNED[i]];
      if OWNED[i] !in a {
        annoPatch := annoPatch[OWNED[i] := Null];
      }
    }
    assert OWNED[..|OWNED|] == OWNED;
    patch := PatchDocument(replicas, annoPatch);
  }

  /** A patch object that holds one member replaces that member and no other. */
  lemma ApplyOne(target: Json, k: Key, sub: Json)
    ensures var t' := Apply(target, Object(map[k := sub]));
            && Member(t', k) == (if sub.Null? then Null else Apply(Member(target, k), sub))
            && forall j :: j != k ==> Member(t', j) == Member(target, j)
  {
  }

  lemma ApplyTwo(target: Json, k1: Key, sub1: Json, k2: Key, sub2: Json)
    requires k1 != k2 && sub1.Object? && sub2.Object?
    ensures var t' := Apply(target, Object(map[k1 := sub1, k2 := sub2]));
            && Member(t', k1) == Apply(Member(target, k1), sub1)
            && Member(t', k2) == Apply(Member(target, k2), sub2)
            && forall j :: j != k1 && j != k2 ==> Member(t', j) == Member(target, j)
  {
  }

  /**
   The patch is correct on every server document: the replicas become the given ones, the owned
   annotations exactly the given ones, foreign annotations the given ones where given and what they
   were where not, and nothing else in the document changes.
   */
  lemma PatchIsExact(doc: Json, replicas: Option<Int32>, a: Notes)
    ensures var doc' := Apply(doc, PatchDocument(replicas, AnnotationPatch(a)));
            && DocReplicas(doc') == replicas
            && DocNotes(doc') == (DocNotes(doc) - (set o | o in OWNED)) + a
            && (forall k :: k != SPEC && k != METADATA ==> Member(doc', k) == Member(doc, k))
            && (forall k :: k != REPLICAS ==> Member(Member(doc', SPEC), k) == Member(Member(doc, SPEC), k))
            && (forall k :: k != ANNOTATIONS ==> Member(Member(doc', METADATA), k) == Member(Member(doc, METADATA), k))
  {
    NamesDiffer();
    var n := if replicas.Some? then Number(replicas.value) else Null;
    var notes := Object(AnnotationPatch(a));
    ApplyTwo(doc, SPEC, Object(map[REPLICAS := n]), METADATA, Object(map[ANNOTATIONS := notes]));
    ApplyOne(Member(doc, SPEC), REPLICAS, n);
    ApplyOne(Member(doc, METADATA), ANNOTATIONS, notes);
    AnnotationsAfter(DocAnnotations(doc), a);
  }

  /** The annotations object, patched. */
  lemma AnnotationsAfter(target: Json, a: Notes)
    ensures var m, m' := Members(target), Members(Apply(target, Object(AnnotationPatch(a))));
            (map k | k in m' && m'[k].Str? :: m'[k].v) ==
            (map k | k in m && m[k].Str? :: m[k].v) - (set o | o in OWNED) + a
  {
  }

  /** What the machines read depends on the owned annotations only. */
  lemma ViewOfOwned(replicas: Option<Int32>, a: Notes, b: Notes)
    requires forall k | k in OWNED :: Lookup(a, k) == Lookup(b, k)
    ensures View(replicas, a) == View(replicas, b)
  {
  }

  /** What the machines read after the patch is what they had in memory, whatever the server held. */
  lemma PatchMakesView(doc: Json, replicas: Option<Int32>, a: Notes)
    ensures DocView(Apply(doc, PatchDocument(replicas, AnnotationPatch(a)))) == View(replicas, a)
  {
    PatchIsExact(doc, replicas, a);
    ViewOfOwned(replicas, DocNotes(doc) - (set o | o in OWNED) + a, a);
  }

  /** A snapshot that knows every foreign annotation of the server preserves them all. */
  lemma FreshPatchKeepsForeign(doc: Json, replicas: Option<Int32>, a: Notes)
    requires forall k :: k in DocNotes(doc) && k !in OWNED ==> k in a && a[k] == DocNotes(doc)[k]
    ensures DocNotes(Apply(doc, PatchDocument(replicas, AnnotationPatch(a)))) == a
  {
    PatchIsExact(doc, replicas, a);
  }
}
