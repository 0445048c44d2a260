/** The build errors. Every one aborts the whole build. */
module Errors {
  import opened Names

  /** What `throwError` reports after "Error processing <property>". */
  datatype Reason = ArrayNotSupported | TypeNotRecognised

  datatype Error =
    /** A type parameter with more than one bound, naming the declaration. */
    | MultipleBounds(declaration: ClassName)
    /** A superclass that is not one unique processed model, naming the declaration. */
    | SuperclassNotProcessed(declaration: ClassName, superclass: ClassName)
    /** A field type the classifier rejects, naming the property. */
    | Processing(property: string, reason: Reason)
    /** `toClassName` applied to a type whose declaration is not a class. */
    | ClassNameUnavailable(qualifiedName: string)
    /** A collection type without the type arguments its shape needs (`single()`, `!!` or an index fails). */
    | MalformedTypeArguments(collection: ClassName)
}
