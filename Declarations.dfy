/**
 * The facts the compiler front end supplies about each declaration, already
 * resolved: class kinds, type terms with their arguments, type-parameter
 * bounds, supertypes and declared properties with their annotations.
 */
module Declarations {
  import opened Wrappers
  import opened Names

  datatype ClassKind = INTERFACE | CLASS | ENUM_CLASS | ENUM_ENTRY | OBJECT | ANNOTATION_CLASS

  /** What a resolved type's declaration is: a class-like declaration, or something else (a type parameter, say). */
  datatype TypeDecl =
    | ClassDecl(className: ClassName, classKind: ClassKind)
    | OtherDecl(qualifiedName: string)

  /** A resolved type together with its type arguments. */
  datatype TypeTerm = TypeTerm(declaration: TypeDecl, arguments: seq<TypeArgument>)

  /** A type argument: a star projection has no type. */
  datatype TypeArgument = StarProjection | Argument(term: TypeTerm)

  /** A type parameter's declared bounds, each the declaration of its resolved type. */
  datatype TypeParameter = TypeParameter(bounds: seq<TypeDecl>)

  /**
   * A declared property: the annotations on the property and on its getter
   * (None when it has no getter), whether it has a backing field, and its type.
   */
  datatype PropertyDecl = PropertyDecl(
    simpleName: string,
    qualifiedName: string,
    annotations: seq<ClassName>,
    getterAnnotations: Option<seq<ClassName>>,
    hasBackingField: bool,
    propertyType: TypeTerm)

  datatype ClassDeclaration = ClassDeclaration(
    className: ClassName,
    typeParameters: seq<TypeParameter>,
    superTypes: seq<TypeDecl>,
    declaredProperties: seq<PropertyDecl>)
}
