/**
 * The graph builder: one skeleton model per declaration, then every
 * superclass link, then every model's classified properties. Each pass
 * runs over the complete model list the previous pass produced, and any
 * error aborts the whole build.
 */
module QueryModelExtractor {
  import opened Wrappers
  import opened Names
  import opened Collections
  import opened Declarations
  import opened Errors
  import opened QueryModel
  import opened TypeExtractor

  /** The processor options that shape generated names. */
  datatype KspSettings = KspSettings(prefix: string, suffix: string, packageSuffix: string)

  /** A declaration to process together with the kind its annotation selected. */
  datatype ModelDeclaration = ModelDeclaration(classDeclaration: ClassDeclaration, modelType: ModelType)

  // ----- pass 1: skeletons -----

  /** The generated class: package plus suffix, prefix plus simple name plus suffix. */
  function GeneratedClassName(settings: KspSettings, c: ClassName): (r: ClassName)
    ensures r.packageName == c.packageName + settings.packageSuffix
    ensures r.simpleName == settings.prefix + c.simpleName + settings.suffix
    ensures |r.packageName| == |c.packageName| + |settings.packageSuffix|
    ensures r.packageName[..|c.packageName|] == c.packageName
    ensures |r.simpleName| == |settings.prefix| + |c.simpleName| + |settings.suffix|
    ensures r.simpleName[|settings.prefix|..|settings.prefix| + |c.simpleName|] == c.simpleName
  {
    ClassName(c.packageName + settings.packageSuffix, settings.prefix + c.simpleName + settings.suffix)
  }

  /** Under fixed settings, distinct source classes get distinct generated classes. */
  lemma GeneratedClassNameInjective(settings: KspSettings, c1: ClassName, c2: ClassName)
    requires GeneratedClassName(settings, c1) == GeneratedClassName(settings, c2)
    ensures c1 == c2
  {
    var g := GeneratedClassName(settings, c1);
    assert |c1.packageName| == |c2.packageName|;
    assert c1.packageName == g.packageName[..|c1.packageName|] == c2.packageName;
    assert |c1.simpleName| == |c2.simpleName|;
    var lo := |settings.prefix|;
    assert c1.simpleName == g.simpleName[lo..lo + |c1.simpleName|] == c2.simpleName;
  }

  /** Holds when a parameter's bounds do not resolve: more than one, or a single one that is not a class. */
  predicate Unresolved(tp: TypeParameter)
  {
    |tp.bounds| > 1 || (|tp.bounds| == 1 && tp.bounds[0].OtherDecl?)
  }

  /** How a parameter whose bounds do not resolve fails. */
  function BoundError(tp: TypeParameter, declaration: ClassName): Error
    requires Unresolved(tp)
  {
    if |tp.bounds| > 1 then MultipleBounds(declaration) else ClassNameUnavailable(tp.bounds[0].qualifiedName)
  }

  /**
   * The type-parameter map: no bound reads as `Any`, one bound as its class.
   * The first parameter whose bounds do not resolve fails: more than one
   * bound names the declaration, and a single bound that is not a class
   * (a type parameter, say) fails as `toClassName` does.
   */
  function ResolveBounds(tps: seq<TypeParameter>, declaration: ClassName): (r: Result<seq<ClassName>, Error>)
    ensures r.Success? <==> forall i :: 0 <= i < |tps| ==> !Unresolved(tps[i])
    ensures r.Success? ==> |r.value| == |tps|
    ensures r.Success? ==> forall i :: 0 <= i < |tps| ==>
      r.value[i] == if tps[i].bounds == [] then AnyClass else tps[i].bounds[0].className
    ensures r.Failure? ==>
      var k := FirstIndex(tps, Unresolved); k < |tps| && r.error == BoundError(tps[k], declaration)
  {
    if tps == [] then Success([])
    else if Unresolved(tps[0]) then Failure(BoundError(tps[0], declaration))
    else
      var first := if tps[0].bounds == [] then AnyClass else tps[0].bounds[0].className;
      var tail := ResolveBounds(tps[1..], declaration);
      assert forall i :: 1 <= i < |tps| ==> tps[i] == tps[1..][i - 1];
      if tail.Failure? then Failure(tail.error) else Success([first] + tail.value)
  }

  /** The skeleton pass fails at the first declaration whose bounds do not resolve. */
  predicate BoundsFail(d: ModelDeclaration)
  {
    ResolveBounds(d.classDeclaration.typeParameters, d.classDeclaration.className).Failure?
  }

  /** The error the skeleton pass reports, if any. */
  function SkeletonError(decls: seq<ModelDeclaration>): (r: Option<Error>)
    ensures r.None? <==> forall i :: 0 <= i < |decls| ==> !BoundsFail(decls[i])
    ensures r.Some? ==>
      exists i :: (0 <= i < |decls| && BoundsFail(decls[i]) &&
                   r.value == ResolveBounds(decls[i].classDeclaration.typeParameters, decls[i].classDeclaration.className).error &&
                   forall j :: 0 <= j < i ==> !BoundsFail(decls[j]))
  {
    var k := FirstIndex(decls, BoundsFail);
    if k < |decls| then
      Some(ResolveBounds(decls[k].classDeclaration.typeParameters, decls[k].classDeclaration.className).error)
    else None
  }

  /**
   * `m` is the skeleton of `d`: the source class, the generated name, the
   * resolved bounds and their number, and the kind, with no superclass and
   * no properties yet.
   */
  ghost predicate IsSkeleton(settings: KspSettings, d: ModelDeclaration, m: QueryModel)
    reads m
  {
    var cd := d.classDeclaration;
    && m.originalClassName == cd.className
    && m.className == GeneratedClassName(settings, cd.className)
    && ResolveBounds(cd.typeParameters, cd.className) == Success(m.typeParameters)
    && m.typeParameterCount == |cd.typeParameters|
    && m.modelType == d.modelType
    && m.superclass == null
    && m.properties == []
  }

  /** `associateWith { ... }` followed by `values.toList()`: one fresh skeleton per declaration, in order. */
  method BuildSkeletons(settings: KspSettings, decls: seq<ModelDeclaration>) returns (r: Result<seq<QueryModel>, Error>)
    ensures r.Failure? <==> SkeletonError(decls).Some?
    ensures r.Failure? ==> r.error == SkeletonError(decls).value
    ensures r.Success? ==> |r.value| == |decls|
    ensures r.Success? ==> forall i :: 0 <= i < |decls| ==> fresh(r.value[i]) && IsSkeleton(settings, decls[i], r.value[i])
    ensures r.Success? ==> forall i, j :: 0 <= i < j < |decls| ==> r.value[i] != r.value[j]
  {
    var models: seq<QueryModel> := [];
    for i := 0 to |decls|
      invariant |models| == i
      invariant forall j :: 0 <= j < i ==> !BoundsFail(decls[j])
      invariant forall j :: 0 <= j < i ==> fresh(models[j]) && IsSkeleton(settings, decls[j], models[j])
      invariant forall j, l :: 0 <= j < l < i ==> models[j] != models[l]
    {
      var cd := decls[i].classDeclaration;
      var bounds := ResolveBounds(cd.typeParameters, cd.className);
      if bounds.Failure? {
        assert FirstIndex(decls, BoundsFail) == i;
        return Failure(bounds.error);
      }
      assert !BoundsFail(decls[i]);
      var m := new QueryModel(cd.className, bounds.value, GeneratedClassName(settings, cd.className), decls[i].modelType);
      models := models + [m];
    }
    assert FirstIndex(decls, BoundsFail) == |decls|;
    r := Success(models);
  }

  // ----- pass 2: superclass links -----

  /** A supertype that counts as the superclass: a CLASS-kind declaration other than `Any`. */
  predicate IsSuperclassCandidate(d: TypeDecl)
  {
    d.ClassDecl? && d.classKind == CLASS && d.className != AnyClass
  }

  /** The first superclass candidate among the supertypes, in order; none when there is none. */
  function Superclass(superTypes: seq<TypeDecl>): (r: Option<ClassName>)
    ensures r.None? <==> forall i :: 0 <= i < |superTypes| ==> !IsSuperclassCandidate(superTypes[i])
    ensures r.Some? ==>
      exists i :: (0 <= i < |superTypes| && IsSuperclassCandidate(superTypes[i]) && superTypes[i].className == r.value &&
                   forall j :: 0 <= j < i ==> !IsSuperclassCandidate(superTypes[j]))
  {
    var k := FirstIndex(superTypes, IsSuperclassCandidate);
    if k < |superTypes| then Some(superTypes[k].className) else None
  }

  /** `superclassOrNull`: the loop over the supertypes, returning at the first candidate. */
  method SuperclassOrNull(superTypes: seq<TypeDecl>) returns (r: Option<ClassName>)
    ensures r == Superclass(superTypes)
  {
    for i := 0 to |superTypes|
      invariant forall j :: 0 <= j < i ==> !IsSuperclassCandidate(superTypes[j])
    {
      var d := superTypes[i];
      if d.ClassDecl? {
        var superClassName := d.className;
        if d.classKind == CLASS && superClassName != AnyClass {
          assert FirstIndex(superTypes, IsSuperclassCandidate) == i;
          return Some(superClassName);
        }
      }
    }
    assert FirstIndex(superTypes, IsSuperclassCandidate) == |superTypes|;
    return None;
  }

  /**
   * The outcome of linking one declaration: no superclass, the unique model
   * of its superclass, or an error naming the declaration and the superclass.
   */
  function Link(d: ModelDeclaration, models: seq<QueryModel>): (r: Result<Option<QueryModel>, Error>)
    ensures r == Success(None) <==> Superclass(d.classDeclaration.superTypes).None?
    ensures r.Failure? ==> r.error == SuperclassNotProcessed(d.classDeclaration.className,
                                                             Superclass(d.classDeclaration.superTypes).value)
    ensures r.Failure? ==> var sup := Superclass(d.classDeclaration.superTypes).value;
      (forall k :: 0 <= k < |models| ==> models[k].originalClassName != sup) || TwoSatisfy(models, HasOriginal(sup))
    ensures r.Success? && r.value.Some? ==> var sup := Superclass(d.classDeclaration.superTypes).value;
      r.value.value in models && r.value.value.originalClassName == sup &&
      forall k :: 0 <= k < |models| && models[k].originalClassName == sup ==> models[k] == r.value.value
  {
    match Superclass(d.classDeclaration.superTypes)
    case None => Success(None)
    case Some(sup) =>
      match FindModel(models, sup)
      case None => Failure(SuperclassNotProcessed(d.classDeclaration.className, sup))
      case Some(m) => Success(Some(m))
  }

  /** A model's superclass after its declaration is linked, given the link it had before. */
  function Linked(link: Result<Option<QueryModel>, Error>, current: QueryModel?): QueryModel?
  {
    match link
    case Success(Some(m)) => m
    case _ => current
  }

  /** The link outcome of every declaration, in order. */
  function Links(decls: seq<ModelDeclaration>, models: seq<QueryModel>): (r: seq<Result<Option<QueryModel>, Error>>)
    ensures |r| == |decls|
  {
    if decls == [] then [] else [Link(decls[0], models)] + Links(decls[1..], models)
  }

  lemma {:induction false} LinksAt(decls: seq<ModelDeclaration>, models: seq<QueryModel>, i: nat)
    requires i < |decls|
    ensures Links(decls, models)[i] == Link(decls[i], models)
  {
    if i > 0 {
      LinksAt(decls[1..], models, i - 1);
    }
  }

  /** The error the linking pass reports: that of the first declaration whose superclass is not a unique model. */
  function LinkError(decls: seq<ModelDeclaration>, models: seq<QueryModel>): Option<Error>
  {
    var links := Links(decls, models);
    var k := FirstFailure(links);
    if k < |links| then Some(links[k].error) else None
  }

  /** The linking pass fails exactly when some declaration's link fails, and then with the first such error. */
  lemma LinkErrorIsFirst(decls: seq<ModelDeclaration>, models: seq<QueryModel>)
    ensures LinkError(decls, models).None? <==> forall i :: 0 <= i < |decls| ==> Link(decls[i], models).Success?
    ensures LinkError(decls, models).Some? ==>
      exists i :: (0 <= i < |decls| && Link(decls[i], models) == Failure(LinkError(decls, models).value) &&
                   forall j :: 0 <= j < i ==> Link(decls[j], models).Success?)
  {
    forall i | 0 <= i < |decls| {
      LinksAt(decls, models, i);
    }
  }

  /** When the linking pass reports no error, every declaration's link succeeded. */
  lemma LinkedAll(decls: seq<ModelDeclaration>, models: seq<QueryModel>)
    requires LinkError(decls, models).None?
    ensures FirstFailure(Links(decls, models)) == |decls|
    ensures forall i :: 0 <= i < |decls| ==> Link(decls[i], models).Success? && Links(decls, models)[i] == Link(decls[i], models)
  {
    forall i | 0 <= i < |decls|
      ensures Link(decls[i], models).Success? && Links(decls, models)[i] == Link(decls[i], models)
    {
      LinksAt(decls, models, i);
    }
  }

  /**
   * The linking pass. Up to the first failing declaration, each model with
   * a superclass points at the unique model of that class; the others, and
   * every property list, are left as they were.
   */
  method LinkSuperclasses(decls: seq<ModelDeclaration>, models: seq<QueryModel>) returns (r: Option<Error>)
    requires |models| == |decls|
    requires forall i, j :: 0 <= i < j < |models| ==> models[i] != models[j]
    modifies models`superclass
    ensures r == LinkError(decls, models)
    ensures var links := Links(decls, models); var k := FirstFailure(links);
      forall i :: 0 <= i < |models| ==>
        models[i].superclass == if i < k then Linked(links[i], old(models[i].superclass)) else old(models[i].superclass)
    ensures forall i :: 0 <= i < |models| ==> models[i].properties == old(models[i].properties)
  {
    ghost var links := Links(decls, models);
    for i := 0 to |decls|
      invariant FirstFailure(links) >= i
      invariant forall j :: 0 <= j < i ==> models[j].superclass == Linked(links[j], old(models[j].superclass))
      invariant forall j :: i <= j < |models| ==> models[j].superclass == old(models[j].superclass)
    {
      var e := LinkOne(decls, models, i, models[i]);
      FirstFailureStep(links, i);
      if e.Some? {
        return e;
      }
    }
    r := None;
  }

  /** One step of the linking pass: look declaration `i`'s superclass up and link its model to it. */
  method LinkOne(decls: seq<ModelDeclaration>, models: seq<QueryModel>, i: nat, m: QueryModel) returns (r: Option<Error>)
    requires i < |decls| == |models| && m == models[i]
    modifies m`superclass
    ensures var link := Links(decls, models)[i];
      r == if link.Failure? then Some(link.error) else None
    ensures m.superclass == Linked(Links(decls, models)[i], old(m.superclass))
  {
    LinksAt(decls, models, i);
    var cd := decls[i].classDeclaration;
    var superclass := SuperclassOrNull(cd.superTypes);
    r := None;
    if superclass.Some? {
      var found := FindModel(models, superclass.value);
      if found.None? {
        return Some(SuperclassNotProcessed(cd.className, superclass.value));
      }
      m.SetSuperclass(found.value);
    }
  }

  /** The link a declaration gets does not depend on the order of the models. */
  lemma LinkPermutation(d: ModelDeclaration, ms1: seq<QueryModel>, ms2: seq<QueryModel>)
    requires multiset(ms1) == multiset(ms2)
    ensures Link(d, ms1) == Link(d, ms2)
  {
    var sup := Superclass(d.classDeclaration.superTypes);
    if sup.Some? {
      FindModelPermutation(ms1, ms2, sup.value);
    }
  }

  // ----- pass 3: properties -----

  /** `isTransient`: some annotation of the property is `@Transient`. */
  function IsTransient(p: PropertyDecl): (r: bool)
    ensures r <==> exists i :: 0 <= i < |p.annotations| && p.annotations[i] == TransientClass
  {
    TransientClass in p.annotations
  }

  /** `isGetterTransient`: the property has a getter and some annotation of the getter is `@Transient`. */
  function IsGetterTransient(p: PropertyDecl): (r: bool)
    ensures p.getterAnnotations.None? ==> !r
    ensures p.getterAnnotations.Some? ==>
      (r <==> exists i :: 0 <= i < |p.getterAnnotations.value| && p.getterAnnotations.value[i] == TransientClass)
  {
    p.getterAnnotations.Some? && TransientClass in p.getterAnnotations.value
  }

  /** The three filters of the resolution pass. */
  predicate IsPersistent(p: PropertyDecl)
  {
    !IsTransient(p) && !IsGetterTransient(p) && p.hasBackingField
  }

  /** The declared properties that pass the filters, in declaration order. */
  function PersistentProperties(ps: seq<PropertyDecl>): (r: seq<PropertyDecl>)
    ensures forall k :: 0 <= k < |r| ==> r[k] in ps && IsPersistent(r[k])
    ensures forall k :: 0 <= k < |ps| && IsPersistent(ps[k]) ==> ps[k] in r
  {
    Filter(ps, IsPersistent)
  }

  /** Persistence is decided per property, so the filtered list keeps the declaration order. */
  lemma PersistentPropertiesAppend(a: seq<PropertyDecl>, b: seq<PropertyDecl>)
    ensures PersistentProperties(a + b) == PersistentProperties(a) + PersistentProperties(b)
  {
    FilterAppend(a, b, IsPersistent);
  }

  /** One property: its simple name and its classified type, errors naming its qualified name. */
  function ExtractProperty(p: PropertyDecl, models: seq<QueryModel>): (r: Result<QProperty, Error>)
    ensures r.Success? ==> r.value.name == p.simpleName
    ensures r.Success? ==> r.value.propertyType.OriginalTypeName() == SourceTypeName(p.propertyType)
    ensures r.Success? ==> NoUnknown(r.value.propertyType) && TargetsIn(r.value.propertyType, models)
    ensures r.Failure? ==> IsExtractError(r.error, p.qualifiedName)
  {
    match Extract(p.propertyType, models, p.qualifiedName)
    case Failure(e) => Failure(e)
    case Success(t) => Success(QProperty(p.simpleName, t))
  }

  /** The `map` over the filtered properties: every one classified, in order, failing at the first that fails. */
  function ResolveFields(ps: seq<PropertyDecl>, models: seq<QueryModel>): (r: Result<seq<QProperty>, Error>)
    ensures r.Success? <==> forall i :: 0 <= i < |ps| ==> ExtractProperty(ps[i], models).Success?
    ensures r.Success? ==> |r.value| == |ps|
    ensures r.Success? ==> forall i :: 0 <= i < |ps| ==> r.value[i] == ExtractProperty(ps[i], models).value
    ensures r.Failure? ==>
      exists i :: (0 <= i < |ps| && ExtractProperty(ps[i], models) == Failure(r.error) &&
                   forall j :: 0 <= j < i ==> ExtractProperty(ps[j], models).Success?)
  {
    if ps == [] then Success([])
    else
      match ExtractProperty(ps[0], models)
      case Failure(e) => Failure(e)
      case Success(q) =>
        var tail := ResolveFields(ps[1..], models);
        TailOutcomes(ps, models);
        if tail.Failure? then Failure(tail.error) else Success([q] + tail.value)
  }

  /** Property `i + 1` of a list is property `i` of its tail. */
  lemma TailOutcomes(ps: seq<PropertyDecl>, models: seq<QueryModel>)
    requires ps != []
    ensures forall i :: 1 <= i < |ps| ==> ExtractProperty(ps[i], models) == ExtractProperty(ps[1..][i - 1], models)
  {
    forall i | 1 <= i < |ps|
      ensures ExtractProperty(ps[i], models) == ExtractProperty(ps[1..][i - 1], models)
    {
      assert ps[1..][i - 1] == ps[i];
    }
  }

  /** What the resolution pass appends to a declaration's model. */
  function ModelProperties(d: ModelDeclaration, models: seq<QueryModel>): Result<seq<QProperty>, Error>
  {
    ResolveFields(PersistentProperties(d.classDeclaration.declaredProperties), models)
  }

  /**
   * The properties classified before the first one that fails: the lazy
   * `map` hands each classified property to `addAll` before the next one is
   * classified, so these are already in the list when the failing property
   * throws. When none fails, all of them.
   */
  function Classified(ps: seq<PropertyDecl>, models: seq<QueryModel>): seq<QProperty>
  {
    if ps == [] then []
    else
      match ExtractProperty(ps[0], models)
      case Failure(_) => []
      case Success(q) => [q] + Classified(ps[1..], models)
  }

  /** Each classified property is its declaration's, and the first one left out fails. */
  lemma {:induction false} ClassifiedPrefix(ps: seq<PropertyDecl>, models: seq<QueryModel>)
    ensures |Classified(ps, models)| <= |ps|
    ensures forall i :: 0 <= i < |Classified(ps, models)| ==> ExtractProperty(ps[i], models) == Success(Classified(ps, models)[i])
    ensures |Classified(ps, models)| < |ps| ==> ExtractProperty(ps[|Classified(ps, models)|], models).Failure?
  {
    if ps != [] && ExtractProperty(ps[0], models).Success? {
      ClassifiedPrefix(ps[1..], models);
      TailOutcomes(ps, models);
    }
  }

  /** The error the classification of `ps` reports, if any. */
  function FieldsError(ps: seq<PropertyDecl>, models: seq<QueryModel>): Option<Error>
  {
    var outcome := ResolveFields(ps, models);
    if outcome.Failure? then Some(outcome.error) else None
  }

  /** When the classification succeeds, the classified prefix is all of its result. */
  lemma {:induction false} ClassifiedAll(ps: seq<PropertyDecl>, models: seq<QueryModel>)
    requires ResolveFields(ps, models).Success?
    ensures Classified(ps, models) == ResolveFields(ps, models).value
  {
    if ps != [] {
      ClassifiedAll(ps[1..], models);
    }
  }

  /**
   * When the classification fails, the classified prefix is a strict prefix,
   * stopped by the property whose error the classification reports.
   */
  lemma {:induction false} ClassifiedStopped(ps: seq<PropertyDecl>, models: seq<QueryModel>)
    requires ResolveFields(ps, models).Failure?
    ensures |Classified(ps, models)| < |ps|
    ensures ExtractProperty(ps[|Classified(ps, models)|], models) == Failure(ResolveFields(ps, models).error)
  {
    if ExtractProperty(ps[0], models).Success? {
      ClassifiedStopped(ps[1..], models);
      TailOutcomes(ps, models);
    }
  }

  /** The classification outcome of each property, in order. */
  function Outcomes(ps: seq<PropertyDecl>, models: seq<QueryModel>): seq<Result<QProperty, Error>>
  {
    if ps == [] then [] else [ExtractProperty(ps[0], models)] + Outcomes(ps[1..], models)
  }

  /**
   * Taking the outcomes one at a time up to the first failure gives the
   * classified prefix, and that failure is the one the classification reports.
   */
  lemma {:induction false} OutcomesClassified(ps: seq<PropertyDecl>, models: seq<QueryModel>)
    ensures SuccessPrefix(Outcomes(ps, models)) == Classified(ps, models)
    ensures FirstError(Outcomes(ps, models)) == FieldsError(ps, models)
  {
    if ps != [] {
      var rs := Outcomes(ps, models);
      assert rs[1..] == Outcomes(ps[1..], models);
      if rs[0].Success? {
        OutcomesClassified(ps[1..], models);
      }
    }
  }

  /** What the resolution pass appends to a declaration's model, up to its first failing property. */
  function AddedProperties(d: ModelDeclaration, models: seq<QueryModel>): seq<QProperty>
  {
    Classified(PersistentProperties(d.classDeclaration.declaredProperties), models)
  }

  /** The resolution outcome of every declaration, in order. */
  function AllModelProperties(decls: seq<ModelDeclaration>, models: seq<QueryModel>): (r: seq<Result<seq<QProperty>, Error>>)
    ensures |r| == |decls|
  {
    if decls == [] then [] else [ModelProperties(decls[0], models)] + AllModelProperties(decls[1..], models)
  }

  lemma {:induction false} AllModelPropertiesAt(decls: seq<ModelDeclaration>, models: seq<QueryModel>, i: nat)
    requires i < |decls|
    ensures AllModelProperties(decls, models)[i] == ModelProperties(decls[i], models)
  {
    if i > 0 {
      AllModelPropertiesAt(decls[1..], models, i - 1);
    }
  }

  /** The error the resolution pass reports: that of the first declaration with a failing property. */
  function ResolveError(decls: seq<ModelDeclaration>, models: seq<QueryModel>): Option<Error>
  {
    var outcomes := AllModelProperties(decls, models);
    var k := FirstFailure(outcomes);
    if k < |outcomes| then Some(outcomes[k].error) else None
  }

  /** When the resolution pass reports no error, every declaration's properties classified. */
  lemma ResolvedAll(decls: seq<ModelDeclaration>, models: seq<QueryModel>)
    requires ResolveError(decls, models).None?
    ensures FirstFailure(AllModelProperties(decls, models)) == |decls|
    ensures forall i :: 0 <= i < |decls| ==>
      ModelProperties(decls[i], models).Success? && AllModelProperties(decls, models)[i] == ModelProperties(decls[i], models)
  {
    forall i | 0 <= i < |decls|
      ensures ModelProperties(decls[i], models).Success? && AllModelProperties(decls, models)[i] == ModelProperties(decls[i], models)
    {
      AllModelPropertiesAt(decls, models, i);
    }
  }

  /** The resolution pass fails exactly when some declaration has a failing property, and then with the first such error. */
  lemma ResolveErrorIsFirst(decls: seq<ModelDeclaration>, models: seq<QueryModel>)
    ensures ResolveError(decls, models).None? <==> forall i :: 0 <= i < |decls| ==> ModelProperties(decls[i], models).Success?
    ensures ResolveError(decls, models).Some? ==>
      exists i :: (0 <= i < |decls| && ModelProperties(decls[i], models) == Failure(ResolveError(decls, models).value) &&
                   forall j :: 0 <= j < i ==> ModelProperties(decls[j], models).Success?)
  {
    var outcomes := AllModelProperties(decls, models);
    forall i | 0 <= i < |decls|
      ensures outcomes[i] == ModelProperties(decls[i], models)
    {
      AllModelPropertiesAt(decls, models, i);
    }
    var k := FirstFailure(outcomes);
    if k < |outcomes| {
      assert ModelProperties(decls[k], models) == Failure(ResolveError(decls, models).value);
    }
  }

  /** A model's property list after the pass: extended by the outcome's properties on success. */
  function Appended(outcome: Result<seq<QProperty>, Error>, current: seq<QProperty>): seq<QProperty>
  {
    if outcome.Success? then current + outcome.value else current
  }

  /**
   * The resolution pass. Each model before the first failing declaration's
   * is extended by all of its own classified persistent properties; the
   * failing declaration's model by the properties classified before its
   * first failing property. Later models and all superclass links are left
   * as they were.
   */
  method ResolveProperties(decls: seq<ModelDeclaration>, models: seq<QueryModel>) returns (r: Option<Error>)
    requires |models| == |decls|
    requires forall i, j :: 0 <= i < j < |models| ==> models[i] != models[j]
    modifies models`properties
    ensures r == ResolveError(decls, models)
    ensures var outcomes := AllModelProperties(decls, models); var k := FirstFailure(outcomes);
      forall i :: 0 <= i < |models| && i != k ==>
        models[i].properties == if i < k then Appended(outcomes[i], old(models[i].properties)) else old(models[i].properties)
    ensures var k := FirstFailure(AllModelProperties(decls, models));
      k < |models| ==> models[k].properties == old(models[k].properties) + AddedProperties(decls[k], models)
    ensures forall i :: 0 <= i < |models| ==> models[i].superclass == old(models[i].superclass)
  {
    ghost var outcomes := AllModelProperties(decls, models);
    for i := 0 to |decls|
      invariant FirstFailure(outcomes) >= i
      invariant forall j :: 0 <= j < i ==> models[j].properties == Appended(outcomes[j], old(models[j].properties))
      invariant forall j :: i <= j < |models| ==> models[j].properties == old(models[j].properties)
    {
      var e := ResolveOne(decls, models, i, models[i]);
      FirstFailureStep(outcomes, i);
      if e.Some? {
        return e;
      }
    }
    r := None;
  }

  /**
   * One step of the resolution pass: classify declaration `i`'s persistent
   * properties one at a time, appending each to its model, and stop at the
   * first that fails.
   */
  method ResolveOne(decls: seq<ModelDeclaration>, models: seq<QueryModel>, i: nat, m: QueryModel) returns (r: Option<Error>)
    requires i < |decls| == |models| && m == models[i]
    modifies m`properties
    ensures var outcome := AllModelProperties(decls, models)[i];
      r == if outcome.Failure? then Some(outcome.error) else None
    ensures m.properties == old(m.properties) + AddedProperties(decls[i], models)
    ensures r.None? ==> m.properties == Appended(AllModelProperties(decls, models)[i], old(m.properties))
  {
    AllModelPropertiesAt(decls, models, i);
    var ps := PersistentProperties(decls[i].classDeclaration.declaredProperties);
    OutcomesClassified(ps, models);
    if ResolveFields(ps, models).Success? {
      ClassifiedAll(ps, models);
    }
    r := AppendSuccesses(Outcomes(ps, models), m);
  }

  /**
   * `model.properties.addAll(...)` over the lazy classification: the outcomes
   * are taken in turn, each success appended, until the first failure, whose
   * error is reported. Classification reads none of the property lists, so
   * taking its outcomes in advance appends the same properties.
   */
  method AppendSuccesses(outcomes: seq<Result<QProperty, Error>>, m: QueryModel) returns (r: Option<Error>)
    modifies m`properties
    ensures r == FirstError(outcomes)
    ensures m.properties == old(m.properties) + SuccessPrefix(outcomes)
  {
    for j := 0 to |outcomes|
      invariant j <= FirstFailure(outcomes)
      invariant m.properties == old(m.properties) + SuccessPrefix(outcomes)[..j]
    {
      if outcomes[j].Failure? {
        SuccessPrefixStop(outcomes, j);
        return Some(outcomes[j].error);
      }
      SuccessPrefixNext(outcomes, j);
      m.AddAll([outcomes[j].value]);
    }
    assert SuccessPrefix(outcomes)[..|outcomes|] == SuccessPrefix(outcomes);
    r := None;
  }

  /** The classified properties do not depend on the order of the models. */
  lemma {:induction false} ResolveFieldsPermutation(ps: seq<PropertyDecl>, ms1: seq<QueryModel>, ms2: seq<QueryModel>)
    requires multiset(ms1) == multiset(ms2)
    ensures ResolveFields(ps, ms1) == ResolveFields(ps, ms2)
  {
    if ps != [] {
      ExtractPermutation(ps[0].propertyType, ms1, ms2, ps[0].qualifiedName);
      ResolveFieldsPermutation(ps[1..], ms1, ms2);
    }
  }

  // ----- the whole build -----

  /**
   * `process`: the three passes in order. On success every model is fresh,
   * there is one per declaration in declaration order, every superclass is
   * linked and every model holds exactly its own persistent properties. The
   * ghost `models` names the skeleton list the later passes ran over.
   */
  method Process(settings: KspSettings, decls: seq<ModelDeclaration>)
    returns (r: Result<seq<QueryModel>, Error>, ghost models: seq<QueryModel>)
    ensures SkeletonError(decls).Some? ==> r == Failure(SkeletonError(decls).value)
    ensures SkeletonError(decls).None? ==> |models| == |decls|
    ensures SkeletonError(decls).None? && LinkError(decls, models).Some? ==>
      r == Failure(LinkError(decls, models).value)
    ensures SkeletonError(decls).None? && LinkError(decls, models).None? ==>
      r == (if ResolveError(decls, models).Some? then Failure(ResolveError(decls, models).value) else Success(models))
    ensures r.Success? ==> r.value == models && |models| == |decls|
    ensures r.Success? ==> forall i, j :: 0 <= i < j < |models| ==> models[i] != models[j]
    ensures r.Success? ==> forall i :: 0 <= i < |decls| ==>
      var cd := decls[i].classDeclaration;
      && fresh(models[i])
      && models[i].originalClassName == cd.className
      && models[i].className == GeneratedClassName(settings, cd.className)
      && models[i].typeParameters == ResolveBounds(cd.typeParameters, cd.className).value
      && models[i].typeParameterCount == |cd.typeParameters|
      && models[i].modelType == decls[i].modelType
      && Link(decls[i], models).Success?
      && models[i].superclass == Linked(Link(decls[i], models), null)
      && ModelProperties(decls[i], models).Success?
      && models[i].properties == ModelProperties(decls[i], models).value
  {
    var skeletons := BuildSkeletons(settings, decls);
    if skeletons.Failure? {
      return Failure(skeletons.error), [];
    }
    var built := skeletons.value;
    models := built;
    var linkError := LinkSuperclasses(decls, built);
    if linkError.Some? {
      return Failure(linkError.value), models;
    }
    var resolveError := ResolveProperties(decls, built);
    if resolveError.Some? {
      return Failure(resolveError.value), models;
    }
    LinkedAll(decls, built);
    ResolvedAll(decls, built);
    r := Success(built);
  }
}
