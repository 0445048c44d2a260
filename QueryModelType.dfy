/**
 * The annotation kinds a persistent class can carry, and the detection of a
 * class's kind from its annotations: the first annotation, in declaration
 * order, whose type name is one of the kinds' annotation names decides.
 */
module QueryModelType {
  import opened Wrappers
  import opened Collections

  datatype QueryModelType = ENTITY | EMBEDDABLE | SUPERCLASS
  {
    /** The qualified name of the annotation class that marks the kind (`associatedAnnotation`). */
    function AssociatedAnnotation(): string
    {
      match this
      case ENTITY => "jakarta.persistence.Entity"
      case EMBEDDABLE => "jakarta.persistence.Embeddable"
      case SUPERCLASS => "jakarta.persistence.MappedSuperclass"
    }
  }

  /** `QueryModelType.entries`, in declaration order. */
  const Entries: seq<QueryModelType> := [ENTITY, EMBEDDABLE, SUPERCLASS]

  /**
   * The first of `kinds`, in order, whose annotation name the annotation's
   * type name equals (`isEqualTo`); none when no kind matches.
   */
  function FirstMarked(kinds: seq<QueryModelType>, annotation: string): (r: Option<QueryModelType>)
    ensures r.Some? ==> r.value in kinds && r.value.AssociatedAnnotation() == annotation
    ensures r.None? ==> forall i :: 0 <= i < |kinds| ==> kinds[i].AssociatedAnnotation() != annotation
  {
    if |kinds| == 0 then None
    else if kinds[0].AssociatedAnnotation() == annotation then Some(kinds[0])
    else FirstMarked(kinds[1..], annotation)
  }

  /** The kind one annotation marks, trying the entries in declaration order. */
  function KindOf(annotation: string): Option<QueryModelType>
  {
    FirstMarked(Entries, annotation)
  }

  /** Every kind is an entry. */
  lemma EntriesComplete(k: QueryModelType)
    ensures k in Entries
  {
  }

  /** The three annotation names are pairwise distinct. */
  lemma AssociatedAnnotationsDistinct(k1: QueryModelType, k2: QueryModelType)
    ensures k1 != k2 ==> k1.AssociatedAnnotation() != k2.AssociatedAnnotation()
  {
  }

  /**
   * An annotation marks a kind exactly when its name is that kind's
   * annotation name; the order in which kinds are tried therefore does not
   * decide which one is found.
   */
  lemma KindOfExact(annotation: string, k: QueryModelType)
    ensures KindOf(annotation) == Some(k) <==> annotation == k.AssociatedAnnotation()
  {
    if annotation == k.AssociatedAnnotation() {
      assert k == Entries[if k == ENTITY then 0 else if k == EMBEDDABLE then 1 else 2];
      var r := KindOf(annotation);
      AssociatedAnnotationsDistinct(k, r.value);
    }
  }

  /**
   * The kind `autodetect` promises: that of the first annotation, in
   * annotation order, that marks any kind; none when no annotation does.
   */
  function FirstDetected(annotations: seq<string>): (r: Option<QueryModelType>)
    ensures r.None? <==> forall i :: 0 <= i < |annotations| ==> KindOf(annotations[i]).None?
    ensures r.Some? ==> exists i :: (0 <= i < |annotations| && KindOf(annotations[i]) == r
                                     && forall j :: 0 <= j < i ==> KindOf(annotations[j]).None?)
  {
    if |annotations| == 0 then None
    else if KindOf(annotations[0]).Some? then KindOf(annotations[0])
    else
      var r := FirstDetected(annotations[1..]);
      assert forall i :: 1 <= i < |annotations| ==> annotations[i] == annotations[1..][i - 1];
      r
  }

  /**
   * Nothing is detected exactly when no annotation's type name equals any
   * kind's annotation name; a detected kind is named by some annotation.
   */
  lemma FirstDetectedExact(annotations: seq<string>)
    ensures FirstDetected(annotations).None? <==>
      forall i, k: QueryModelType :: 0 <= i < |annotations| ==> annotations[i] != k.AssociatedAnnotation()
    ensures FirstDetected(annotations).Some? ==>
      exists i :: 0 <= i < |annotations| && annotations[i] == FirstDetected(annotations).value.AssociatedAnnotation()
  {
    forall i, k: QueryModelType | 0 <= i < |annotations| && annotations[i] == k.AssociatedAnnotation()
      ensures KindOf(annotations[i]).Some?
    {
      KindOfExact(annotations[i], k);
    }
  }

  /** A list that starts with a marking annotation detects that annotation's kind. */
  lemma FirstDetectedHead(a: string, rest: seq<string>)
    requires KindOf(a).Some?
    ensures FirstDetected([a] + rest) == KindOf(a)
  {
    assert ([a] + rest)[0] == a;
  }

  /** An annotation that marks no kind can be dropped from the front of the list. */
  lemma FirstDetectedSkip(a: string, rest: seq<string>)
    requires KindOf(a).None?
    ensures FirstDetected([a] + rest) == FirstDetected(rest)
  {
    assert ([a] + rest)[0] == a;
    assert ([a] + rest)[1..] == rest;
  }

  /**
   * `autodetect`: for each annotation in order, try every kind in entry
   * order, and return the first kind matched; none when the loops finish.
   */
  method Autodetect(annotations: seq<string>) returns (r: Option<QueryModelType>)
    ensures r == FirstDetected(annotations)
  {
    for i := 0 to |annotations|
      invariant FirstDetected(annotations[i..]) == FirstDetected(annotations)
    {
      var a := annotations[i];
      assert annotations[i..] == [a] + annotations[i + 1..];
      for k := 0 to |Entries|
        invariant FirstMarked(Entries[k..], a) == KindOf(a)
      {
        assert Entries[k..] == [Entries[k]] + Entries[k + 1..];
        if a == Entries[k].AssociatedAnnotation() {
          FirstDetectedHead(a, annotations[i + 1..]);
          return Some(Entries[k]);
        }
      }
      FirstDetectedSkip(a, annotations[i + 1..]);
    }
    return None;
  }
}
