/**
 * The recursive classifier of a property's resolved type: a simple value
 * type first, then a list, set or map container (recursing into its type
 * arguments, rejecting arrays), then an enum or model reference, and
 * otherwise an error naming the property.
 */
module TypeExtractor {
  import opened Wrappers
  import opened Names
  import opened SimpleTypes
  import opened Declarations
  import opened Errors
  import opened QueryModel

  predicate IsSetName(c: ClassName) { c == SetClass || c == MutableSetClass }
  predicate IsListName(c: ClassName) { c == ListClass || c == MutableListClass }
  predicate IsMapName(c: ClassName) { c == MapClass || c == MutableMapClass }

  /** `arguments.single().type!!`: none unless there is exactly one argument and it is not a star. */
  function SingleArgument(t: TypeTerm): (r: Option<TypeTerm>)
    ensures r.Some? ==> |t.arguments| == 1 && t.arguments[0] == Argument(r.value)
    ensures r.None? ==> |t.arguments| != 1 || t.arguments[0].StarProjection?
  {
    if |t.arguments| == 1 && t.arguments[0].Argument? then Some(t.arguments[0].term) else None
  }

  /** `arguments[i].type!!`: none when the index is out of range or the argument is a star. */
  function ArgumentAt(t: TypeTerm, i: nat): (r: Option<TypeTerm>)
    ensures r.Some? <==> i < |t.arguments| && t.arguments[i].Argument?
    ensures r.Some? ==> t.arguments[i] == Argument(r.value)
  {
    if i < |t.arguments| && t.arguments[i].Argument? then Some(t.arguments[i].term) else None
  }

  /**
   * The source type as the generated code names its value type: the
   * mutable collection interfaces read as their read-only counterparts.
   */
  function SourceTypeName(t: TypeTerm): TypeName
  {
    match t.declaration
    case OtherDecl(_) => Star
    case ClassDecl(c, _) =>
      if (IsSetName(c) || IsListName(c)) && |t.arguments| == 1 && t.arguments[0].Argument? then
        Parameterized(if IsSetName(c) then SetClass else ListClass, [SourceTypeName(t.arguments[0].term)])
      else if IsMapName(c) && |t.arguments| >= 2 && t.arguments[0].Argument? && t.arguments[1].Argument? then
        Parameterized(MapClass, [SourceTypeName(t.arguments[0].term), SourceTypeName(t.arguments[1].term)])
      else Plain(c)
  }

  /** No simple value class is an array or collection class. */
  lemma SimpleIsNotContainer(st: SimpleType)
    ensures var c := st.ValueClassName(); c != ArrayClass && !IsSetName(c) && !IsListName(c) && !IsMapName(c)
  {
  }

  /** True of the errors `throwError` raises for property `prop`, and of the errors Kotlin's own calls raise. */
  predicate IsExtractError(e: Error, prop: string)
  {
    (e.Processing? && e.property == prop) || e.ClassNameUnavailable? || e.MalformedTypeArguments?
  }

  /**
   * `extract`: the first of simple type, collection type and reference type
   * that yields a result wins; when none does, the type is not recognised.
   */
  function Extract(t: TypeTerm, models: seq<QueryModel>, prop: string): (r: Result<QPropertyType, Error>)
    decreases t, 2
    ensures r.Success? ==> NoUnknown(r.value) && TargetsIn(r.value, models)
    ensures r.Success? ==> r.value.OriginalTypeName() == SourceTypeName(t)
    ensures r.Failure? ==> IsExtractError(r.error, prop)
  {
    if t.declaration.OtherDecl? then Failure(ClassNameUnavailable(t.declaration.qualifiedName))
    else
      var c := t.declaration.className;
      var simple := Lookup(c);
      if simple.Some? then
        SimpleIsNotContainer(simple.value);
        Success(Simple(simple.value))
      else
        var collection := CollectionType(c, t, models, prop);
        if collection.Failure? then Failure(collection.error)
        else if collection.value.Some? then Success(collection.value.value)
        else
          var reference := ReferenceType(c, t.declaration.classKind, models);
          if reference.Some? then Success(reference.value)
          else Failure(Processing(prop, TypeNotRecognised))
  }

  /** `collectionType`: arrays are rejected; sets, lists and maps recurse into their arguments. */
  function CollectionType(c: ClassName, t: TypeTerm, models: seq<QueryModel>, prop: string)
    : (r: Result<Option<QPropertyType>, Error>)
    requires t.declaration.ClassDecl? && t.declaration.className == c
    decreases t, 1
    ensures r.Success? && r.value.Some? ==> NoUnknown(r.value.value) && TargetsIn(r.value.value, models)
    ensures r.Success? && r.value.Some? ==> r.value.value.OriginalTypeName() == SourceTypeName(t)
    ensures r == Success(None) <==> !(c == ArrayClass || IsSetName(c) || IsListName(c) || IsMapName(c))
    ensures c == ArrayClass ==> r == Failure(Processing(prop, ArrayNotSupported))
    ensures r.Failure? ==> IsExtractError(r.error, prop)
  {
    if c == ArrayClass then Failure(Processing(prop, ArrayNotSupported))
    else if IsSetName(c) || IsListName(c) then ElementCollection(c, t, models, prop)
    else if IsMapName(c) then MapType(c, t, models, prop)
    else Success(None)
  }

  /** The set and list branch: classify the single type argument. */
  function ElementCollection(c: ClassName, t: TypeTerm, models: seq<QueryModel>, prop: string)
    : (r: Result<Option<QPropertyType>, Error>)
    requires t.declaration.ClassDecl? && t.declaration.className == c && (IsSetName(c) || IsListName(c))
    decreases t, 0
    ensures r.Success? ==> r.value.Some? && NoUnknown(r.value.value) && TargetsIn(r.value.value, models)
    ensures r.Success? ==> r.value.value.OriginalTypeName() == SourceTypeName(t)
    ensures r.Failure? ==> IsExtractError(r.error, prop)
  {
    var arg := SingleArgument(t);
    if arg.None? then Failure(MalformedTypeArguments(c))
    else
      var inner := Extract(arg.value, models, prop);
      if inner.Failure? then Failure(inner.error)
      else Success(Some(if IsSetName(c) then SetCollection(inner.value) else ListCollection(inner.value)))
  }

  /** The map branch: classify argument 0, then argument 1. */
  function MapType(c: ClassName, t: TypeTerm, models: seq<QueryModel>, prop: string)
    : (r: Result<Option<QPropertyType>, Error>)
    requires t.declaration.ClassDecl? && t.declaration.className == c && IsMapName(c)
    decreases t, 0
    ensures r.Success? ==> r.value.Some? && NoUnknown(r.value.value) && TargetsIn(r.value.value, models)
    ensures r.Success? ==> r.value.value.OriginalTypeName() == SourceTypeName(t)
    ensures r.Failure? ==> IsExtractError(r.error, prop)
  {
    var keyArg := ArgumentAt(t, 0);
    if keyArg.None? then Failure(MalformedTypeArguments(c))
    else
      var key := Extract(keyArg.value, models, prop);
      if key.Failure? then Failure(key.error)
      else
        var valueArg := ArgumentAt(t, 1);
        if valueArg.None? then Failure(MalformedTypeArguments(c))
        else
          var value := Extract(valueArg.value, models, prop);
          if value.Failure? then Failure(value.error)
          else Success(Some(MapCollection(key.value, value.value)))
  }

  /** `referenceType`: enums become enum references, classes and interfaces the unique model of that class. */
  function ReferenceType(c: ClassName, kind: ClassKind, models: seq<QueryModel>): (r: Option<QPropertyType>)
    ensures r.Some? ==> NoUnknown(r.value) && TargetsIn(r.value, models)
    ensures r.Some? ==> r.value.OriginalTypeName() == Plain(c)
    ensures kind == ENUM_CLASS ==> r == Some(EnumReference(c))
    ensures (kind == CLASS || kind == INTERFACE) ==>
      (r.Some? <==> FindModel(models, c).Some?) && (r.Some? ==> r.value == ObjectReference(FindModel(models, c).value))
    ensures !(kind == ENUM_CLASS || kind == CLASS || kind == INTERFACE) ==> r.None?
  {
    if kind == ENUM_CLASS then Some(EnumReference(c))
    else if kind == CLASS || kind == INTERFACE then
      match FindModel(models, c)
      case None => None
      case Some(target) => Some(ObjectReference(target))
    else None
  }

  /**
   * The classification does not depend on the order of the models: it only
   * looks a model up by its original class name.
   */
  lemma {:induction false} ExtractPermutation(t: TypeTerm, ms1: seq<QueryModel>, ms2: seq<QueryModel>, prop: string)
    requires multiset(ms1) == multiset(ms2)
    ensures Extract(t, ms1, prop) == Extract(t, ms2, prop)
    decreases t, 2
  {
    if t.declaration.ClassDecl? {
      var c := t.declaration.className;
      if Lookup(c).Some? {
        SimpleTypeFirst(t, ms1, prop, Lookup(c).value);
        SimpleTypeFirst(t, ms2, prop, Lookup(c).value);
      } else {
        CollectionTypePermutation(c, t, ms1, ms2, prop);
        FindModelPermutation(ms1, ms2, c);
        assert ReferenceType(c, t.declaration.classKind, ms1) == ReferenceType(c, t.declaration.classKind, ms2);
        ExtractByParts(t, ms1, prop);
        ExtractByParts(t, ms2, prop);
      }
    }
  }

  /** `extract` of a class that is not a simple type, in terms of its collection and reference parts. */
  lemma ExtractByParts(t: TypeTerm, models: seq<QueryModel>, prop: string)
    requires t.declaration.ClassDecl? && Lookup(t.declaration.className).None?
    ensures var c := t.declaration.className;
      var collection := CollectionType(c, t, models, prop);
      var reference := ReferenceType(c, t.declaration.classKind, models);
      Extract(t, models, prop) ==
        if collection.Failure? then Failure(collection.error)
        else if collection.value.Some? then Success(collection.value.value)
        else if reference.Some? then Success(reference.value)
        else Failure(Processing(prop, TypeNotRecognised))
  {
  }

  lemma {:induction false} CollectionTypePermutation(c: ClassName, t: TypeTerm, ms1: seq<QueryModel>, ms2: seq<QueryModel>, prop: string)
    requires t.declaration.ClassDecl? && t.declaration.className == c
    requires multiset(ms1) == multiset(ms2)
    ensures CollectionType(c, t, ms1, prop) == CollectionType(c, t, ms2, prop)
    decreases t, 1
  {
    if c == ArrayClass {
    } else if IsSetName(c) || IsListName(c) {
      if SingleArgument(t).Some? {
        ExtractPermutation(SingleArgument(t).value, ms1, ms2, prop);
      }
    } else if IsMapName(c) {
      if ArgumentAt(t, 0).Some? {
        ExtractPermutation(ArgumentAt(t, 0).value, ms1, ms2, prop);
      }
      if ArgumentAt(t, 1).Some? {
        ExtractPermutation(ArgumentAt(t, 1).value, ms1, ms2, prop);
      }
    }
  }

  /** An array fails with the "use List or Set" error, whatever its element type. */
  lemma ArrayAlwaysFails(t: TypeTerm, models: seq<QueryModel>, prop: string, kind: ClassKind)
    requires t.declaration == ClassDecl(ArrayClass, kind)
    ensures Extract(t, models, prop) == Failure(Processing(prop, ArrayNotSupported))
  {
    if Lookup(ArrayClass).Some? {
      SimpleIsNotContainer(Lookup(ArrayClass).value);
    }
  }

  /** A simple value class is classified as Simple before any other rule is tried, whatever its class kind. */
  lemma SimpleTypeFirst(t: TypeTerm, models: seq<QueryModel>, prop: string, st: SimpleType)
    requires t.declaration.ClassDecl? && t.declaration.className == st.ValueClassName()
    ensures Extract(t, models, prop) == Success(Simple(st))
  {
  }

  /** A set or list classifies its single type argument and fails when that fails or is missing. */
  lemma ElementShape(t: TypeTerm, models: seq<QueryModel>, prop: string)
    requires t.declaration.ClassDecl?
    requires IsSetName(t.declaration.className) || IsListName(t.declaration.className)
    ensures SingleArgument(t).None? ==> Extract(t, models, prop) == Failure(MalformedTypeArguments(t.declaration.className))
    ensures SingleArgument(t).Some? ==>
        var inner := Extract(SingleArgument(t).value, models, prop);
        Extract(t, models, prop) ==
          if inner.Failure? then Failure(inner.error)
          else if IsSetName(t.declaration.className) then Success(SetCollection(inner.value))
          else Success(ListCollection(inner.value))
  {
    var c := t.declaration.className;
    ContainerNotSimple(c);
    ExtractCollection(t, models, prop);
    ElementDispatch(c, t, models, prop);
  }

  /**
   * A map classifies argument 0 and then argument 1: a missing or star
   * argument fails as malformed when it is reached, and the first failing
   * classification is the map's failure.
   */
  lemma MapShape(t: TypeTerm, models: seq<QueryModel>, prop: string)
    requires t.declaration.ClassDecl? && IsMapName(t.declaration.className)
    ensures var c := t.declaration.className;
      ArgumentAt(t, 0).None? ==> Extract(t, models, prop) == Failure(MalformedTypeArguments(c))
    ensures var c := t.declaration.className;
      ArgumentAt(t, 0).Some? ==>
        var key := Extract(ArgumentAt(t, 0).value, models, prop);
        Extract(t, models, prop) ==
          if key.Failure? then Failure(key.error)
          else if ArgumentAt(t, 1).None? then Failure(MalformedTypeArguments(c))
          else
            var value := Extract(ArgumentAt(t, 1).value, models, prop);
            if value.Failure? then Failure(value.error)
            else Success(MapCollection(key.value, value.value))
  {
    var c := t.declaration.className;
    ContainerNotSimple(c);
    ExtractCollection(t, models, prop);
    MapDispatch(c, t, models, prop);
  }

  /** No array or collection class is a simple value class. */
  lemma ContainerNotSimple(c: ClassName)
    requires c == ArrayClass || IsSetName(c) || IsListName(c) || IsMapName(c)
    ensures Lookup(c).None?
  {
    if Lookup(c).Some? {
      SimpleIsNotContainer(Lookup(c).value);
    }
  }

  /** A class that is not a simple value class is next tried as a collection. */
  lemma ExtractCollection(t: TypeTerm, models: seq<QueryModel>, prop: string)
    requires t.declaration.ClassDecl? && Lookup(t.declaration.className).None?
    ensures var col := CollectionType(t.declaration.className, t, models, prop);
      (col.Failure? ==> Extract(t, models, prop) == Failure(col.error)) &&
      (col.Success? && col.value.Some? ==> Extract(t, models, prop) == Success(col.value.value))
  {
  }

  /** The set and list names are not the array name, so `collectionType` reaches its element branch. */
  lemma ElementDispatch(c: ClassName, t: TypeTerm, models: seq<QueryModel>, prop: string)
    requires t.declaration.ClassDecl? && t.declaration.className == c && (IsSetName(c) || IsListName(c))
    ensures CollectionType(c, t, models, prop) == ElementCollection(c, t, models, prop)
  {
  }

  /** The map names are none of the array, set and list names, so `collectionType` reaches its map branch. */
  lemma MapDispatch(c: ClassName, t: TypeTerm, models: seq<QueryModel>, prop: string)
    requires t.declaration.ClassDecl? && t.declaration.className == c && IsMapName(c)
    ensures CollectionType(c, t, models, prop) == MapType(c, t, models, prop)
  {
  }

  /**
   * A class that is neither a simple value type nor a container is an enum
   * reference, a reference to the unique model of that class, or an error
   * naming the property.
   */
  lemma ReferenceRules(t: TypeTerm, models: seq<QueryModel>, prop: string)
    requires t.declaration.ClassDecl?
    requires var c := t.declaration.className;
      Lookup(c).None? && c != ArrayClass && !IsSetName(c) && !IsListName(c) && !IsMapName(c)
    ensures var c, kind := t.declaration.className, t.declaration.classKind;
      Extract(t, models, prop) ==
        if kind == ENUM_CLASS then Success(EnumReference(c))
        else if (kind == CLASS || kind == INTERFACE) && FindModel(models, c).Some? then
          Success(ObjectReference(FindModel(models, c).value))
        else Failure(Processing(prop, TypeNotRecognised))
  {
  }
}
