/**
 * Class and type names as the generator builds them: a class name is a package
 * and a simple name; a type name is a plain class, a class applied to type
 * arguments, or the star projection.
 */
module Names {

  datatype ClassName = ClassName(packageName: string, simpleName: string)

  datatype TypeName =
    | Plain(className: ClassName)
    | Parameterized(rawType: ClassName, typeArguments: seq<TypeName>)
    | Star

  /** The canonical, dotted spelling of a class name (its `toString`). */
  function Canonical(c: ClassName): string
  {
    if c.packageName == "" then c.simpleName else c.packageName + "." + c.simpleName
  }

  /** A class applied to `n` star projections; the bare class when `n` is 0. */
  function StarProjected(c: ClassName, n: nat): (t: TypeName)
    ensures n == 0 ==> t == Plain(c)
    ensures n > 0 ==> t.Parameterized? && t.rawType == c && |t.typeArguments| == n
    ensures n > 0 ==> forall i :: 0 <= i < n ==> t.typeArguments[i] == Star
  {
    if n == 0 then Plain(c) else Parameterized(c, seq(n, _ => Star))
  }

  const KotlinPackage := "kotlin"
  const CollectionsPackage := "kotlin.collections"
  const DslPackage := "com.querydsl.core.types.dsl"

  const AnyClass := ClassName(KotlinPackage, "Any")
  const ArrayClass := ClassName(KotlinPackage, "Array")
  const ListClass := ClassName(CollectionsPackage, "List")
  const MutableListClass := ClassName(CollectionsPackage, "MutableList")
  const SetClass := ClassName(CollectionsPackage, "Set")
  const MutableSetClass := ClassName(CollectionsPackage, "MutableSet")
  const MapClass := ClassName(CollectionsPackage, "Map")
  const MutableMapClass := ClassName(CollectionsPackage, "MutableMap")

  const ListPathClass := ClassName(DslPackage, "ListPath")
  const SetPathClass := ClassName(DslPackage, "SetPath")
  const MapPathClass := ClassName(DslPackage, "MapPath")
  const EnumPathClass := ClassName(DslPackage, "EnumPath")
  const SimplePathClass := ClassName(DslPackage, "SimplePath")
  const EntityPathBaseClass := ClassName(DslPackage, "EntityPathBase")
  const BeanPathClass := ClassName(DslPackage, "BeanPath")

  const TransientClass := ClassName("jakarta.persistence", "Transient")
}
