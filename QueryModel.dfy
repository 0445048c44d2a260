/**
 * The resolved model of one persistent class, and the closed union of the
 * property types it holds. The two live in one module because an object
 * reference property points back at a model.
 */
module QueryModel {
  import opened Wrappers
  import opened Names
  import opened Collections
  import opened SimpleTypes

  /** `QueryModel.Type`. */
  datatype ModelType = ENTITY | EMBEDDABLE | SUPERCLASS

  /**
   * `QPropertyType`. `Unknown` is rendered but never produced by the
   * classifier, which fails instead.
   */
  datatype QPropertyType =
    | ListCollection(innerType: QPropertyType)
    | SetCollection(innerType: QPropertyType)
    | MapCollection(keyType: QPropertyType, valueType: QPropertyType)
    | Simple(simpleType: SimpleType)
    | EnumReference(enumClassName: ClassName)
    | ObjectReference(target: QueryModel)
    | Unknown(rawClassName: ClassName)
  {
    /** The value type the property holds (`originalClassName`, also read as `originalTypeName`). */
    function OriginalTypeName(): (r: TypeName)
      ensures r.Parameterized? <==> IsContainer(this)
      ensures r.Plain? <==> !IsContainer(this)
      ensures r.Parameterized? ==>
        r.rawType.packageName == CollectionsPackage && |r.typeArguments| == (if MapCollection? then 2 else 1)
    {
      match this
      case ListCollection(inner) => Parameterized(ListClass, [inner.OriginalTypeName()])
      case SetCollection(inner) => Parameterized(SetClass, [inner.OriginalTypeName()])
      case MapCollection(k, v) => Parameterized(MapClass, [k.OriginalTypeName(), v.OriginalTypeName()])
      case Simple(st) => Plain(st.ValueClassName())
      case EnumReference(e) => Plain(e)
      case ObjectReference(t) => Plain(t.originalClassName)
      case Unknown(raw) => Plain(raw)
    }

    /** The raw path class (`pathClassName`). */
    function PathClassName(): (r: ClassName)
      ensures ListCollection? ==> r == ListPathClass
      ensures SetCollection? ==> r == SetPathClass
      ensures MapCollection? ==> r == MapPathClass
      ensures Simple? ==> r == simpleType.PathClassName()
      ensures EnumReference? ==> r == EnumPathClass
      ensures ObjectReference? ==> r == target.className
      ensures Unknown? ==> r == SimplePathClass
      ensures !ObjectReference? ==> r.packageName == DslPackage
    {
      match this
      case ListCollection(_) => ListPathClass
      case SetCollection(_) => SetPathClass
      case MapCollection(_, _) => MapPathClass
      case Simple(st) => st.PathClassName()
      case EnumReference(_) => EnumPathClass
      case ObjectReference(t) => t.className
      case Unknown(_) => SimplePathClass
    }

    /** The full path type (`pathTypeName`); a map's key contributes only its value type. */
    function PathTypeName(): (r: TypeName)
      ensures r == Plain(PathClassName()) || (r.Parameterized? && r.rawType == PathClassName())
      ensures match this
        case Simple(st) => r == st.PathTypeName()
        case EnumReference(e) => r == Parameterized(EnumPathClass, [Plain(e)])
        case ObjectReference(t) => r == Plain(t.className)
        case Unknown(raw) => r == Parameterized(SimplePathClass, [Plain(raw)])
        case _ => IsContainer(this)
    {
      match this
      case ListCollection(inner) => Parameterized(ListPathClass, [inner.OriginalTypeName(), inner.PathTypeName()])
      case SetCollection(inner) => Parameterized(SetPathClass, [inner.OriginalTypeName(), inner.PathTypeName()])
      case MapCollection(k, v) =>
        Parameterized(MapPathClass, [k.OriginalTypeName(), v.OriginalTypeName(), v.PathTypeName()])
      case Simple(st) => st.PathTypeName()
      case EnumReference(e) => Parameterized(EnumPathClass, [Plain(e)])
      case ObjectReference(t) => Plain(t.className)
      case Unknown(raw) => Parameterized(SimplePathClass, [Plain(raw)])
    }
  }

  /**
   * The value type of each variant: a container is its read-only collection
   * class over its parts' value types, key before value; every other variant
   * is its own class, bare.
   */
  lemma OriginalTypeNames(t: QPropertyType)
    ensures match t
      case ListCollection(inner) => t.OriginalTypeName() == Parameterized(ListClass, [inner.OriginalTypeName()])
      case SetCollection(inner) => t.OriginalTypeName() == Parameterized(SetClass, [inner.OriginalTypeName()])
      case MapCollection(k, v) => t.OriginalTypeName() == Parameterized(MapClass, [k.OriginalTypeName(), v.OriginalTypeName()])
      case Simple(st) => t.OriginalTypeName() == Plain(st.ValueClassName())
      case EnumReference(e) => t.OriginalTypeName() == Plain(e)
      case ObjectReference(m) => t.OriginalTypeName() == Plain(m.originalClassName)
      case Unknown(raw) => t.OriginalTypeName() == Plain(raw)
  {
  }

  /** `QProperty`: a declared field name and its classified type. */
  datatype QProperty = QProperty(name: string, propertyType: QPropertyType)

  predicate IsContainer(t: QPropertyType)
  {
    t.ListCollection? || t.SetCollection? || t.MapCollection?
  }

  /** The part of a container whose path the container's path is built over: the element, or a map's value. */
  function ElementPart(t: QPropertyType): QPropertyType
    requires IsContainer(t)
  {
    if t.MapCollection? then t.valueType else t.innerType
  }

  /**
   * A container's path type takes the arguments of its value type in the
   * same order and then the element's path type: a map's key contributes its
   * value type only.
   */
  lemma PathTypeShape(t: QPropertyType)
    ensures IsContainer(t) ==>
      && t.OriginalTypeName().Parameterized?
      && t.PathTypeName() ==
           Parameterized(t.PathClassName(), t.OriginalTypeName().typeArguments + [ElementPart(t).PathTypeName()])
  {
  }

  /** Holds when no `Unknown` occurs anywhere inside `t`. */
  predicate NoUnknown(t: QPropertyType)
  {
    match t
    case ListCollection(inner) => NoUnknown(inner)
    case SetCollection(inner) => NoUnknown(inner)
    case MapCollection(k, v) => NoUnknown(k) && NoUnknown(v)
    case Unknown(_) => false
    case _ => true
  }

  /** Holds when every model `t` refers to is one of `models`. */
  predicate TargetsIn(t: QPropertyType, models: seq<QueryModel>)
  {
    match t
    case ListCollection(inner) => TargetsIn(inner, models)
    case SetCollection(inner) => TargetsIn(inner, models)
    case MapCollection(k, v) => TargetsIn(k, models) && TargetsIn(v, models)
    case ObjectReference(target) => target in models
    case _ => true
  }

  function HasOriginal(c: ClassName): QueryModel -> bool
  {
    (m: QueryModel) => m.originalClassName == c
  }

  /**
   * `models.singleOrNull { it.originalClassName == c }`: the unique model for
   * a source class; none when no model or several models have that class.
   */
  function FindModel(models: seq<QueryModel>, c: ClassName): (r: Option<QueryModel>)
    ensures r.Some? ==> r.value in models && r.value.originalClassName == c
    ensures r.Some? ==> forall k :: 0 <= k < |models| && models[k].originalClassName == c ==> models[k] == r.value
    ensures r.None? ==> (forall k :: 0 <= k < |models| ==> models[k].originalClassName != c) ||
                        TwoSatisfy(models, HasOriginal(c))
  {
    SingleOrNull(models, HasOriginal(c))
  }

  /** The lookup of a model does not depend on the order of the models. */
  lemma FindModelPermutation(ms1: seq<QueryModel>, ms2: seq<QueryModel>, c: ClassName)
    requires multiset(ms1) == multiset(ms2)
    ensures FindModel(ms1, c) == FindModel(ms2, c)
  {
    SingleOrNullPermutation(ms1, ms2, HasOriginal(c));
  }

  /**
   * One model per declaration. Its identity, generated name, kind and generic
   * arity are fixed at construction; the superclass link and the property
   * list are filled in later by the builder.
   */
  class QueryModel {
    const originalClassName: ClassName
    /** The resolved bound of each type parameter. */
    const typeParameters: seq<ClassName>
    const typeParameterCount: nat
    const className: ClassName
    const modelType: ModelType
    var superclass: QueryModel?
    var properties: seq<QProperty>

    constructor (originalClassName: ClassName, typeParameters: seq<ClassName>, className: ClassName, modelType: ModelType)
      ensures this.originalClassName == originalClassName && this.className == className
      ensures this.typeParameters == typeParameters && typeParameterCount == |typeParameters|
      ensures this.modelType == modelType
      ensures superclass == null && properties == []
    {
      this.originalClassName := originalClassName;
      this.typeParameters := typeParameters;
      this.typeParameterCount := |typeParameters|;
      this.className := className;
      this.modelType := modelType;
      superclass := null;
      properties := [];
    }

    /** `superclass = ...`, the linking pass's one write. */
    method SetSuperclass(m: QueryModel)
      modifies this`superclass
      ensures superclass == m
    {
      superclass := m;
    }

    /** `properties.addAll(...)`, the list's one writer: it only appends. */
    method AddAll(ps: seq<QProperty>)
      modifies this`properties
      ensures properties == old(properties) + ps
      ensures old(properties) <= properties
    {
      properties := properties + ps;
    }
  }
}
