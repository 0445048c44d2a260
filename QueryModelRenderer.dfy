/**
 * The renderer: one resolved model becomes the description of one generated
 * query class: its supertype, the interfaces it implements, the nested
 * `Interface`, the `_super` member, one member per property, the primary
 * constructor, the secondary constructors (three, and a fourth from a
 * superclass when the model has one), and the companion instance. Code
 * fragments the generator hands to the code writer as text are kept as
 * structured tags.
 */
module QueryModelRenderer {
  import opened Wrappers
  import opened Collections
  import opened Names
  import opened Naming
  import opened SimpleTypes
  import opened QueryModel

  const InterfaceName := "Interface"
  const SuperName := "_super"

  /** How a path member is initialised. */
  datatype Construction =
    /** `createList("name", Element::class.java, ElementPath::class.java, null)` */
    | CreateList(listName: string, elementType: TypeName, elementPath: ClassName)
    /** `createSet("name", Element::class.java, ElementPath::class.java, null)` */
    | CreateSet(setName: string, elementType: TypeName, elementPath: ClassName)
    /** `createMap("name", Key::class.java, Value::class.java, ValuePath::class.java)` */
    | CreateMap(mapName: string, keyType: TypeName, valueType: TypeName, valuePath: ClassName)
    /** `createEnum("name", Enum::class.java)` */
    | CreateEnum(enumName: string, enumClass: ClassName)
    /** `createSimple("name", Value::class.java)` */
    | CreateSimple(simpleName: string, valueType: TypeName)
    /** `by lazy { Target(forProperty("name")) }` */
    | LazyForProperty(target: ClassName, propertyName: string)
    /** `by lazy { Super(this) }` */
    | LazyOfThis(superClass: ClassName)

  /** One member of the generated class or of its `Interface`. */
  datatype PropertyDesc =
    /** A simple-type member, whose shape its table entry decides. */
    | SimpleProperty(name: string, simpleType: SimpleType, forInterface: bool)
    /** A member of the given path type with its construction. */
    | PathProperty(name: string, typeName: TypeName, forInterface: bool, construction: Construction)
    /** The `_super` member: typed as the superclass's generated class, lazily built from `this`. */
    | SuperProperty(superType: ClassName, superConstruction: Construction)
  {
    function Name(): string
    {
      match this
      case SimpleProperty(n, _, _) => n
      case PathProperty(n, _, _, _) => n
      case SuperProperty(_, _) => SuperName
    }
  }

  /** A constructor parameter's type. */
  datatype ParamType =
    /** `Class<out T>` */
    | ClassOfOut(classSource: TypeName)
    /** `Path<out T>` */
    | PathOfOut(pathSource: TypeName)
    /** `PathMetadata` */
    | Metadata
    /** `String` */
    | Text
    /** A generated query class. */
    | Generated(generated: ClassName)

  /** An argument a constructor passes on. */
  datatype Argument =
    /** A parameter or a member of one, by name: `type`, `path.metadata`. */
    | Ref(expression: string)
    /** `Source::class.java` */
    | ClassLiteral(literalOf: ClassName)
    /** `PathMetadataFactory.forVariable(variable)` */
    | ForVariable(variableName: string)
    /** `Super(type,metadata)` */
    | SuperOf(superClass: ClassName)

  datatype Param = Param(paramName: string, paramType: ParamType, defaultValue: Option<Argument>)

  /** `callSuperConstructor(...)` or `callThisConstructor(...)`. */
  datatype Delegation = SuperCall(superArgs: seq<Argument>) | ThisCall(thisArgs: seq<Argument>)

  datatype ConstructorDesc = ConstructorDesc(isPrivate: bool, params: seq<Param>, delegation: Delegation)

  /** An implemented interface, possibly delegated to a member (`by _super`). */
  datatype SuperInterface = SuperInterface(interfaceName: ClassName, delegate: Option<string>)

  datatype InterfaceDesc = InterfaceDesc(interfaceSimpleName: string, members: seq<PropertyDesc>, superInterfaceNames: seq<ClassName>)

  /** `@JvmField val name = Q("name")` in the companion object. */
  datatype CompanionDesc = CompanionDesc(instanceName: string, instanceType: ClassName, constructed: ClassName,
                                         argument: string, jvmField: bool)

  datatype ClassDesc = ClassDesc(
    name: ClassName,
    supertype: TypeName,
    primary: ConstructorDesc,
    superInterfaces: seq<SuperInterface>,
    nested: InterfaceDesc,
    properties: seq<PropertyDesc>,
    constructors: seq<ConstructorDesc>,
    companion: CompanionDesc)

  // ----- property members -----

  /**
   * `renderProperty`: one construction form per property variant; every
   * path member is typed with its property's path type.
   */
  function RenderProperty(p: QProperty, forInterface: bool): (r: PropertyDesc)
    ensures r.Name() == p.name && !r.SuperProperty?
    ensures p.propertyType.Simple? <==> r.SimpleProperty?
    ensures r.SimpleProperty? ==> r.simpleType == p.propertyType.simpleType && r.forInterface == forInterface
    ensures r.PathProperty? ==> r.typeName == p.propertyType.PathTypeName() && r.forInterface == forInterface
    ensures p.propertyType.ListCollection? ==> var inner := p.propertyType.innerType;
      r.construction == CreateList(p.name, inner.OriginalTypeName(), inner.PathClassName())
    ensures p.propertyType.SetCollection? ==> var inner := p.propertyType.innerType;
      r.construction == CreateSet(p.name, inner.OriginalTypeName(), inner.PathClassName())
    ensures p.propertyType.MapCollection? ==> var k, v := p.propertyType.keyType, p.propertyType.valueType;
      r.construction == CreateMap(p.name, k.OriginalTypeName(), v.OriginalTypeName(), v.PathClassName())
    ensures p.propertyType.EnumReference? ==> r.construction == CreateEnum(p.name, p.propertyType.enumClassName)
    ensures p.propertyType.Unknown? ==> r.construction == CreateSimple(p.name, Plain(p.propertyType.rawClassName))
    ensures p.propertyType.ObjectReference? ==> r.construction == LazyForProperty(p.propertyType.target.className, p.name)
  {
    var name := p.name;
    match p.propertyType
    case Simple(st) => SimpleProperty(name, st, forInterface)
    case EnumReference(e) => PathProperty(name, Parameterized(EnumPathClass, [Plain(e)]), forInterface, CreateEnum(name, e))
    case ObjectReference(target) =>
      PathProperty(name, Plain(target.className), forInterface, LazyForProperty(target.className, name))
    case Unknown(raw) => PathProperty(name, Parameterized(SimplePathClass, [Plain(raw)]), forInterface, CreateSimple(name, Plain(raw)))
    case ListCollection(inner) =>
      PathProperty(name, Parameterized(ListPathClass, [inner.OriginalTypeName(), inner.PathTypeName()]), forInterface,
                   CreateList(name, inner.OriginalTypeName(), inner.PathClassName()))
    case MapCollection(k, v) =>
      PathProperty(name, Parameterized(MapPathClass, [k.OriginalTypeName(), v.OriginalTypeName(), v.PathTypeName()]), forInterface,
                   CreateMap(name, k.OriginalTypeName(), v.OriginalTypeName(), v.PathClassName()))
    case SetCollection(inner) =>
      PathProperty(name, Parameterized(SetPathClass, [inner.OriginalTypeName(), inner.PathTypeName()]), forInterface,
                   CreateSet(name, inner.OriginalTypeName(), inner.PathClassName()))
  }

  /** `properties.map(::renderProperty)`: the members in property order. */
  function RenderProperties(ps: seq<QProperty>): (r: seq<PropertyDesc>)
    ensures |r| == |ps|
    ensures forall i :: 0 <= i < |ps| ==> r[i] == RenderProperty(ps[i], false)
  {
    if ps == [] then [] else [RenderProperty(ps[0], false)] + RenderProperties(ps[1..])
  }

  /** Each rendered member carries the name of the property it renders. */
  lemma RenderedNames(ps: seq<QProperty>)
    ensures forall i :: 0 <= i < |ps| ==> RenderProperties(ps)[i].Name() == ps[i].name
  {
    forall i | 0 <= i < |ps| ensures RenderProperties(ps)[i].Name() == ps[i].name {
      assert RenderProperties(ps)[i] == RenderProperty(ps[i], false);
    }
  }

  // ----- the builder steps -----

  /** `T`: the original class applied to one star per type parameter. */
  function Source(m: QueryModel): TypeName
  {
    StarProjected(m.originalClassName, m.typeParameterCount)
  }

  /**
   * `setEntitySuperclass`: `EntityPathBase<T>` for entities and mapped
   * superclasses, `BeanPath<T>` for embeddables.
   */
  function Supertype(m: QueryModel): (r: TypeName)
    ensures r == Parameterized(if m.modelType == EMBEDDABLE then BeanPathClass else EntityPathBaseClass,
                               [StarProjected(m.originalClassName, m.typeParameterCount)])
  {
    match m.modelType
    case ENTITY | SUPERCLASS => Parameterized(EntityPathBaseClass, [Source(m)])
    case EMBEDDABLE => Parameterized(BeanPathClass, [Source(m)])
  }

  /** The nested `Interface` of a generated class, as the generator names it from outside. */
  function InterfaceOf(generated: ClassName, packageName: string): ClassName
  {
    ClassName(packageName, Canonical(generated) + "." + InterfaceName)
  }

  /** `primaryConstructor`: private `(type, metadata)`, plus `_super` when there is a superclass. */
  function PrimaryConstructor(m: QueryModel): (r: ConstructorDesc)
    reads m
    ensures r.isPrivate && r.delegation == SuperCall([Ref("type"), Ref("metadata")])
    ensures |r.params| == if m.superclass == null then 2 else 3
    ensures r.params[..2] == [Param("type", ClassOfOut(Source(m)), None), Param("metadata", Metadata, None)]
    ensures m.superclass != null ==>
      r.params[2] == Param(SuperName, Generated(m.superclass.className), Some(SuperOf(m.superclass.className)))
  {
    var base := [Param("type", ClassOfOut(Source(m)), None), Param("metadata", Metadata, None)];
    ConstructorDesc(true,
      if m.superclass == null then base
      else base + [Param(SuperName, Generated(m.superclass.className), Some(SuperOf(m.superclass.className)))],
      SuperCall([Ref("type"), Ref("metadata")]))
  }

  /** `addEntitySuperInterfaces`. */
  function SuperInterfaces(m: QueryModel): seq<SuperInterface>
    reads m
  {
    var own := SuperInterface(InterfaceOf(m.className, ""), None);
    if m.superclass == null then [own]
    else [own, SuperInterface(InterfaceOf(m.superclass.className, m.superclass.className.packageName), Some(SuperName))]
  }

  /** `addEntityInterface`. */
  function EntityInterface(m: QueryModel): InterfaceDesc
    reads m
  {
    InterfaceDesc(InterfaceName, RenderProperties(m.properties),
      if m.superclass == null then []
      else [InterfaceOf(m.superclass.className, m.superclass.className.packageName)])
  }

  /**
   * `addSuperProperty` followed by `addProperties`: `_super` first when
   * there is a superclass, then one member per property, in property order,
   * with the property's name.
   */
  function Members(m: QueryModel): (r: seq<PropertyDesc>)
    reads m
    ensures var off := if m.superclass == null then 0 else 1;
      && |r| == off + |m.properties|
      && r[off..] == RenderProperties(m.properties)
      && (m.superclass != null ==> r[0] == SuperProperty(m.superclass.className, LazyOfThis(m.superclass.className)))
      && forall i :: 0 <= i < |m.properties| ==> r[off + i].Name() == m.properties[i].name
  {
    var props := RenderProperties(m.properties);
    RenderedNames(m.properties);
    var prefix := if m.superclass == null then [] else [SuperProperty(m.superclass.className, LazyOfThis(m.superclass.className))];
    assert (prefix + props)[|prefix|..] == props;
    prefix + props
  }

  /**
   * `constructorForTypeMetadata`, as written: emitted whatever the
   * superclass; it passes `(type, metadata)` on, adding `Super(type,metadata)`
   * when there is a superclass.
   */
  function TypeMetadataConstructor(m: QueryModel): (r: ConstructorDesc)
    reads m
    ensures r.isPrivate && Signature(r) == [ClassOfOut(Source(m)), Metadata]
    ensures r.delegation.ThisCall? && |r.delegation.thisArgs| == (if m.superclass == null then 2 else 3)
    ensures r.delegation.thisArgs[..2] == [Ref("type"), Ref("metadata")]
    ensures m.superclass != null ==> r.delegation.thisArgs[2] == SuperOf(m.superclass.className)
  {
    ConstructorDesc(true, [Param("type", ClassOfOut(Source(m)), None), Param("metadata", Metadata, None)],
      ThisCall([Ref("type"), Ref("metadata")]
               + if m.superclass == null then [] else [SuperOf(m.superclass.className)]))
  }

  /** `constructorForPath`, `constructorForMetadata` and `constructorForVariable`. */
  function PublicConstructors(m: QueryModel): seq<ConstructorDesc>
  {
    [ ConstructorDesc(false, [Param("path", PathOfOut(Source(m)), None)], ThisCall([Ref("path.type"), Ref("path.metadata")])),
      ConstructorDesc(false, [Param("metadata", Metadata, None)], ThisCall([ClassLiteral(m.originalClassName), Ref("metadata")])),
      ConstructorDesc(false, [Param("variable", Text, None)], ThisCall([ClassLiteral(m.originalClassName), ForVariable("variable")])) ]
  }

  /** The secondary constructors as the source emits them. */
  function ConstructorsAsWritten(m: QueryModel): seq<ConstructorDesc>
    reads m
  {
    [TypeMetadataConstructor(m)] + PublicConstructors(m)
  }

  /**
   * The secondary constructors, corrected: without a superclass the
   * `(type, metadata)` constructor would repeat the primary constructor's
   * signature, so it is left out and the others reach the primary directly.
   */
  function Constructors(m: QueryModel): seq<ConstructorDesc>
    reads m
  {
    if m.superclass == null then PublicConstructors(m) else ConstructorsAsWritten(m)
  }

  /**
   * `addInitializerCompanionObject`: one `@JvmField` instance of the
   * generated class, named after the original simple name in camel case and
   * created with that name.
   */
  function Companion(m: QueryModel): (c: CompanionDesc)
    requires |m.originalClassName.simpleName| > 0
    ensures var s := m.originalClassName.simpleName;
      && c.instanceName == ToCamelCase(s)
      && |c.instanceName| == |s| && c.instanceName[1..] == s[1..] && c.instanceName[0] == LowerChar(s[0])
      && c.instanceType == m.className && c.constructed == m.className
      && c.argument == c.instanceName && c.jvmField
  {
    var name := ToCamelCase(m.originalClassName.simpleName);
    CompanionDesc(name, m.className, m.className, name, true)
  }

  /**
   * `render` with the corrected constructor step. The class is the model's
   * generated class, its companion instance has that type, and its members
   * end with those of its nested `Interface`.
   */
  function Rendered(m: QueryModel): (r: ClassDesc)
    requires |m.originalClassName.simpleName| > 0
    reads m
    ensures r.name == m.className && r.companion.instanceType == r.name
    ensures |r.properties| >= |m.properties| && r.nested.members == r.properties[|r.properties| - |m.properties|..]
  {
    ClassDesc(m.className, Supertype(m), PrimaryConstructor(m), SuperInterfaces(m), EntityInterface(m),
              Members(m), Constructors(m), Companion(m))
  }

  /**
   * `render` exactly as written: the `(type, metadata)` constructor and then
   * the three public ones; everything else as in the corrected rendering.
   */
  function RenderedAsWritten(m: QueryModel): (r: ClassDesc)
    requires |m.originalClassName.simpleName| > 0
    reads m
    ensures r.constructors == [TypeMetadataConstructor(m)] + PublicConstructors(m)
    ensures r.(constructors := Rendered(m).constructors) == Rendered(m)
  {
    Rendered(m).(constructors := ConstructorsAsWritten(m))
  }

  // ----- the builder -----

  /**
   * `render`, with the corrected constructor step: the steps run in source
   * order on a growing description; the interface and the class receive
   * their members one property at a time.
   */
  method Render(m: QueryModel) returns (r: ClassDesc)
    requires |m.originalClassName.simpleName| > 0
    ensures r == Rendered(m)
  {
    var interfaceMembers := AddEach([], m.properties);
    var members: seq<PropertyDesc> := [];
    if m.superclass != null {
      members := [SuperProperty(m.superclass.className, LazyOfThis(m.superclass.className))];
    }
    members := AddEach(members, m.properties);
    assert members == Members(m);
    var nested := InterfaceDesc(InterfaceName, interfaceMembers,
      if m.superclass == null then [] else [InterfaceOf(m.superclass.className, m.superclass.className.packageName)]);
    var constructors := PublicConstructors(m);
    if m.superclass != null {
      constructors := [TypeMetadataConstructor(m)] + constructors;
    }
    assert nested == EntityInterface(m) && constructors == Constructors(m);
    r := ClassDesc(m.className, Supertype(m), PrimaryConstructor(m), SuperInterfaces(m), nested,
                   members, constructors, Companion(m));
  }

  /** `forEach { addProperty(renderProperty(it)) }`: every property's member appended, in order. */
  method AddEach(members: seq<PropertyDesc>, ps: seq<QProperty>) returns (r: seq<PropertyDesc>)
    ensures r == members + RenderProperties(ps)
  {
    r := members;
    for i := 0 to |ps|
      invariant r == members + RenderProperties(ps[..i])
    {
      r := r + [RenderProperty(ps[i], false)];
      RenderPropertiesSnoc(ps, i);
    }
    assert ps[..|ps|] == ps;
  }

  lemma RenderPropertiesSnoc(ps: seq<QProperty>, i: nat)
    requires i < |ps|
    ensures RenderProperties(ps[..i + 1]) == RenderProperties(ps[..i]) + [RenderProperty(ps[i], false)]
  {
    var a := RenderProperties(ps[..i + 1]);
    var b := RenderProperties(ps[..i]) + [RenderProperty(ps[i], false)];
    assert |a| == |b|;
    forall k | 0 <= k < |a| ensures a[k] == b[k] {
      assert ps[..i + 1][k] == ps[k];
      if k < i {
        assert ps[..i][k] == ps[k];
      }
    }
  }

  // ----- what the rendered description promises -----

  /** The parameter types of a constructor, which decide overload resolution. */
  function Signature(c: ConstructorDesc): (r: seq<ParamType>)
    ensures |r| == |c.params|
  {
    seq(|c.params|, i requires 0 <= i < |c.params| => c.params[i].paramType)
  }

  /** The primary constructor followed by the secondary ones. */
  function AllConstructors(d: ClassDesc): seq<ConstructorDesc>
  {
    [d.primary] + d.constructors
  }

  /**
   * The class implements its own `Interface`, and the superclass's
   * `Interface` delegated to `_super` exactly when there is a superclass.
   */
  lemma SuperInterfacesRule(m: QueryModel)
    requires |m.originalClassName.simpleName| > 0
    ensures var d := Rendered(m);
      && 1 <= |d.superInterfaces| <= 2
      && d.superInterfaces[0] == SuperInterface(ClassName("", Canonical(m.className) + ".Interface"), None)
      && (|d.superInterfaces| == 2 <==> m.superclass != null)
      && (m.superclass != null ==>
            d.superInterfaces[1] ==
              SuperInterface(InterfaceOf(m.superclass.className, m.superclass.className.packageName), Some("_super")))
  {
  }

  /**
   * The nested `Interface` has one member per property, in order, the same
   * members as the class has after `_super`, and extends the superclass's
   * `Interface` exactly when there is a superclass.
   */
  lemma InterfaceRule(m: QueryModel)
    requires |m.originalClassName.simpleName| > 0
    ensures var d := Rendered(m);
      && d.nested.interfaceSimpleName == "Interface"
      && |d.nested.members| == |m.properties|
      && (forall i :: 0 <= i < |m.properties| ==> d.nested.members[i].Name() == m.properties[i].name)
      && d.nested.members == d.properties[|d.properties| - |m.properties|..]
      && (d.nested.superInterfaceNames == [] <==> m.superclass == null)
      && (m.superclass != null ==> d.nested.superInterfaceNames == [d.superInterfaces[1].interfaceName])
  {
    var d := Rendered(m);
    var off := if m.superclass == null then 0 else 1;
    assert d.properties[off..] == RenderProperties(m.properties);
  }

  /**
   * A `_super` member exists exactly when there is a superclass; it comes
   * first, is typed with the superclass's generated class and is built
   * lazily from `this`.
   */
  lemma SuperMemberRule(m: QueryModel)
    requires |m.originalClassName.simpleName| > 0
    ensures var d := Rendered(m);
      && ((exists i :: 0 <= i < |d.properties| && d.properties[i].SuperProperty?) <==> m.superclass != null)
      && (m.superclass != null ==>
            d.properties[0] == SuperProperty(m.superclass.className, LazyOfThis(m.superclass.className)))
      && (forall i :: 0 < i < |d.properties| ==> !d.properties[i].SuperProperty?)
  {
    assert Rendered(m).properties == Members(m);
    MembersSuper(m);
  }

  lemma MembersSuper(m: QueryModel)
    ensures var ms := Members(m);
      && ((exists i :: 0 <= i < |ms| && ms[i].SuperProperty?) <==> m.superclass != null)
      && (forall i :: 0 < i < |ms| ==> !ms[i].SuperProperty?)
  {
    var ms := Members(m);
    var off := if m.superclass == null then 0 else 1;
    var rest := RenderProperties(m.properties);
    assert ms[off..] == rest;
    forall i | off <= i < |ms|
      ensures !ms[i].SuperProperty?
    {
      assert ms[i] == rest[i - off];
    }
    if m.superclass != null {
      assert ms[0].SuperProperty?;
    }
  }

  /**
   * The path, metadata and variable constructors are public and pass two
   * arguments on: `(path.type, path.metadata)`, `(Source::class.java,
   * metadata)` and `(Source::class.java, forVariable(variable))`. The
   * private `(type, metadata)` constructor, present with a superclass, adds
   * `Super(type, metadata)` and so matches the primary constructor's three
   * parameters; the primary constructor calls the supertype with
   * `(type, metadata)`.
   */
  lemma ConstructorsRule(m: QueryModel)
    requires |m.originalClassName.simpleName| > 0
    ensures var d := Rendered(m);
      var off := if m.superclass == null then 0 else 1;
      && |d.constructors| == off + 3
      && d.primary.isPrivate && d.primary.delegation == SuperCall([Ref("type"), Ref("metadata")])
      && |d.primary.params| == 2 + off
      && d.constructors[off].params == [Param("path", PathOfOut(Source(m)), None)]
      && d.constructors[off].delegation == ThisCall([Ref("path.type"), Ref("path.metadata")])
      && d.constructors[off + 1].params == [Param("metadata", Metadata, None)]
      && d.constructors[off + 1].delegation == ThisCall([ClassLiteral(m.originalClassName), Ref("metadata")])
      && d.constructors[off + 2].params == [Param("variable", Text, None)]
      && d.constructors[off + 2].delegation == ThisCall([ClassLiteral(m.originalClassName), ForVariable("variable")])
      && (forall i :: off <= i < |d.constructors| ==> !d.constructors[i].isPrivate)
      && (m.superclass != null ==>
            && d.constructors[0].isPrivate
            && Signature(d.constructors[0]) == [ClassOfOut(Source(m)), Metadata]
            && d.constructors[0].delegation ==
                 ThisCall([Ref("type"), Ref("metadata"), SuperOf(m.superclass.className)])
            && Signature(d.primary) == [ClassOfOut(Source(m)), Metadata, Generated(m.superclass.className)]
            && d.primary.params[2].defaultValue == Some(SuperOf(m.superclass.className)))
  {
    assert Rendered(m).primary == PrimaryConstructor(m) && Rendered(m).constructors == Constructors(m);
  }

  /**
   * No two constructors of the rendered class share a signature, and
   * exactly one, a private one, takes `(type, metadata)`: the one the
   * public constructors delegate to.
   */
  lemma SignaturesDistinct(m: QueryModel)
    requires |m.originalClassName.simpleName| > 0
    ensures var all := AllConstructors(Rendered(m));
      && (forall i, j :: 0 <= i < j < |all| ==> Signature(all[i]) != Signature(all[j]))
      && (exists k :: 0 <= k < |all| && Signature(all[k]) == [ClassOfOut(Source(m)), Metadata] && all[k].isPrivate)
  {
    assert AllConstructors(Rendered(m)) == [PrimaryConstructor(m)] + Constructors(m);
    ConstructorListDistinct(m);
  }

  /** The corrected constructor list, primary first, in signature terms. */
  lemma ConstructorListDistinct(m: QueryModel)
    ensures var all := [PrimaryConstructor(m)] + Constructors(m);
      && (forall i, j :: 0 <= i < j < |all| ==> Signature(all[i]) != Signature(all[j]))
      && (exists k :: 0 <= k < |all| && Signature(all[k]) == [ClassOfOut(Source(m)), Metadata] && all[k].isPrivate)
  {
    var all := [PrimaryConstructor(m)] + Constructors(m);
    var t := ClassOfOut(Source(m));
    PublicSignatures(m);
    if m.superclass == null {
      assert all == [PrimaryConstructor(m)] + PublicConstructors(m);
      assert Signature(all[0]) == [t, Metadata];
      assert Signature(all[1]) == [PathOfOut(Source(m))];
      assert Signature(all[2]) == [Metadata];
      assert Signature(all[3]) == [Text];
    } else {
      assert all == [PrimaryConstructor(m), TypeMetadataConstructor(m)] + PublicConstructors(m);
      assert Signature(all[0]) == [t, Metadata, Generated(m.superclass.className)];
      assert Signature(all[1]) == [t, Metadata];
      assert Signature(all[2]) == [PathOfOut(Source(m))];
      assert Signature(all[3]) == [Metadata];
      assert Signature(all[4]) == [Text];
    }
  }

  /** The public constructors take a path, a metadata and a variable name. */
  lemma PublicSignatures(m: QueryModel)
    ensures var pub := PublicConstructors(m);
      && |pub| == 3 && (forall i :: 0 <= i < 3 ==> !pub[i].isPrivate)
      && Signature(pub[0]) == [PathOfOut(Source(m))]
      && Signature(pub[1]) == [Metadata]
      && Signature(pub[2]) == [Text]
  {
  }

  /**
   * As written, a class without a superclass gets a private `(type,
   * metadata)` constructor with the primary constructor's signature, which
   * moreover delegates to that same signature.
   */
  lemma AsWrittenDuplicatesPrimary(m: QueryModel)
    requires |m.originalClassName.simpleName| > 0
    requires m.superclass == null
    ensures var all := AllConstructors(RenderedAsWritten(m));
      && Signature(all[0]) == Signature(all[1]) == [ClassOfOut(Source(m)), Metadata]
      && all[1].delegation == ThisCall([Ref("type"), Ref("metadata")])
  {
  }

  /** The two renderings differ only where the source emits the duplicate constructor. */
  lemma AsWrittenAgreesWithSuperclass(m: QueryModel)
    requires |m.originalClassName.simpleName| > 0
    ensures m.superclass != null ==> RenderedAsWritten(m) == Rendered(m)
    ensures m.superclass == null ==> RenderedAsWritten(m).constructors == [TypeMetadataConstructor(m)] + Rendered(m).constructors
  {
  }
}
