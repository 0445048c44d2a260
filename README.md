# querydsl-ksp core, modelled in Dafny

This project models the code generator at the heart of querydsl-ksp. It is a Kotlin symbol processor that turns classes annotated with `@Entity`, `@Embeddable` or `@MappedSuperclass` into QueryDSL query classes (`QUser`, and so on). The model includes:

- **Annotation detection.** The kind of a class is decided by its first annotation that matches one of the three annotation names (module `QueryModelType`).
- **The graph builder** (`QueryModelExtractor.Process`). It works in three passes over a list of declarations:
  1. One fresh skeleton model per declaration. Generated names use the processor settings, and type-parameter bounds are resolved. More than one bound, or a single bound that is not a class, is an error.
  2. Each model is linked to the unique model of its superclass.
  3. Each model receives its own persistent properties, classified in declaration order.
- **The recursive type classifier** (`TypeExtractor.Extract`). It tries the simple-type table first. Next come the list, set and map containers; these recurse into type arguments, and arrays are rejected. Then enum and model references. Anything else is an error naming the property.
- **The property-type union** (`QueryModel.QPropertyType`). It carries the derived value type, path class and path type.
- **The simple-type table** (`SimpleTypes`) and **the case helpers** (`Naming`).
- **The renderer** (`QueryModelRenderer`). It turns one resolved model into an abstract description of the generated class. The description covers the supertype, the implemented interfaces, the nested `Interface`, `_super`, one member per property, the primary and secondary constructors, and the companion instance.

`QueryModel` is a class whose identity fields are constants. The builder's passes update its `superclass` and `properties` fields in place. The loops of the source are methods with loop invariants:

- the skeleton pass;
- both `forEach` passes;
- `superclassOrNull`;
- `autodetect`;
- the renderer's `forEach`.

Each method is proved against a specification function; the properties the source promises are lemmas about those functions.

Source facts the compiler front end supplies are given pre-resolved as datatypes (module `Declarations`):

- the class name of a type;
- its class kind;
- its type arguments;
- the bounds of each type parameter;
- the supertypes;
- the declared properties with their annotations and backing-field flag.

Failures are the values of `Errors.Error`, not exceptions. The build stops at the first one.

## Model

| member | source | states |
|---|---|---|
| Names.StarProjected | src/iceblizz6/querydsl/ksp/QueryModelRenderer.kt:31-36 | with no type parameters the bare class, otherwise the class applied to exactly that many star projections |
| Naming.ToPascalCase | src/iceblizz6/querydsl/ksp/Naming.kt:4-6 | on a non-empty string: same length, first character upper-cased (ASCII), the rest unchanged |
| Naming.ToCamelCase | src/iceblizz6/querydsl/ksp/Naming.kt:8-10 | on a non-empty string: same length, first character lower-cased (ASCII), the rest unchanged |
| Naming.CaseHelpersIdempotent | src/iceblizz6/querydsl/ksp/Naming.kt:4-10 | applying either helper twice gives the same result as applying it once |
| Naming.CaseHelpersInverse | src/iceblizz6/querydsl/ksp/Naming.kt:4-10 | camel case undoes Pascal case on a name starting with a non-upper-case letter, and conversely |
| SimpleTypes.EntriesComplete | src/iceblizz6/querydsl/ksp/SimpleType.kt:17-102 | the table has sixteen entries; every entry occurs exactly once |
| SimpleTypes.SimpleType.ValueClassName | src/iceblizz6/querydsl/ksp/SimpleType.kt:17-101 | no value class is an array or lies in the collections package, so no simple type can be mistaken for a container |
| SimpleTypes.SimpleType.PathClassName | src/iceblizz6/querydsl/ksp/SimpleType.kt:17-101 | every path class lies in QueryDSL's `com.querydsl.core.types.dsl` package |
| SimpleTypes.SimpleType.PathTypeName | src/iceblizz6/querydsl/ksp/SimpleType.kt:17-101 | each entry's path type as its table row writes it. It is the path class, applied to the value class exactly for the entries whose path class takes a type argument |
| SimpleTypes.ValueClassNamesDistinct | src/iceblizz6/querydsl/ksp/SimpleType.kt:22-101 | distinct entries have distinct value classes and disjoint detected-name sets |
| SimpleTypes.NumericEntries | src/iceblizz6/querydsl/ksp/SimpleType.kt:37-71 | SHORT to BIG_DECIMAL map to `NumberPath`, with path type `NumberPath<value class>` |
| SimpleTypes.UnparameterizedEntries | src/iceblizz6/querydsl/ksp/SimpleType.kt:27-76 | the path type is the bare path class exactly for STRING (`StringPath`) and BOOLEAN (`BooleanPath`) |
| SimpleTypes.TemporalEntries | src/iceblizz6/querydsl/ksp/SimpleType.kt:77-96 | LOCAL_DATE maps to `DatePath`, ZONED_DATE_TIME and LOCAL_DATE_TIME to `DateTimePath`, LOCAL_TIME to `TimePath` |
| SimpleTypes.ParameterizedEntries | src/iceblizz6/querydsl/ksp/SimpleType.kt:22-101 | every other entry's path type is its path class applied to its value class |
| SimpleTypes.Lookup | src/iceblizz6/querydsl/ksp/TypeExtractor.kt:20-28 | a class finds entry `e` exactly when it is `e`'s value class |
| SimpleTypes.LookupIsSingleOrNull | src/iceblizz6/querydsl/ksp/TypeExtractor.kt:22 | scanning the table in order gives the same result as `singleOrNull` over the detecting entries |
| QueryModel.PathTypeShape | src/iceblizz6/querydsl/ksp/QPropertyType.kt:18-56 | a container's path type repeats its value type's arguments in order, then adds the element's path type; a map's key adds only its value type |
| QueryModel.QPropertyType.OriginalTypeName | src/iceblizz6/querydsl/ksp/QPropertyType.kt:16-95 | the value type is parameterized exactly for containers: List or Set of one argument, Map of two, all from `kotlin.collections`; every other variant's value type is a bare class |
| QueryModel.OriginalTypeNames | src/iceblizz6/querydsl/ksp/QPropertyType.kt:21-88 | each variant's value type: `List` or `Set` over the element's value type, `Map` over the key's and then the value's, the entry's value class for Simple, the enum class, the target's source class, and the raw class for unknown |
| QueryModel.QPropertyType.PathClassName | src/iceblizz6/querydsl/ksp/QPropertyType.kt:15-95 | list, set, map, enum and unknown give `ListPath`, `SetPath`, `MapPath`, `EnumPath` and `SimplePath`; Simple gives its entry's path class; a model reference gives the target's generated class. Every path class except a model reference's lies in QueryDSL's `dsl` package |
| QueryModel.QPropertyType.PathTypeName | src/iceblizz6/querydsl/ksp/QPropertyType.kt:14-95 | Simple gives its entry's path type; enum gives `EnumPath<enum class>`; a model reference gives its generated class, bare; unknown gives `SimplePath<raw class>`; the rest are containers (their arguments are in `PathTypeShape`). Every path type is its own path class, bare or applied to type arguments |
| QueryModel.FindModel | src/iceblizz6/querydsl/ksp/TypeExtractor.kt:57 | a found model is in the list, has the class, and is the only model with it; none means no model has the class or two do |
| QueryModel.FindModelPermutation | src/iceblizz6/querydsl/ksp/QueryModelExtractor.kt:47 | the lookup gives the same result on any reordering of the models |
| QueryModel.QueryModel.constructor | src/iceblizz6/querydsl/ksp/QueryModel.kt:6-13 | identity fields as given, `typeParameterCount` is the number of type parameters, no superclass, no properties |
| QueryModel.QueryModel.SetSuperclass | src/iceblizz6/querydsl/ksp/QueryModelExtractor.kt:51 | sets the superclass and changes nothing else |
| QueryModel.QueryModel.AddAll | src/iceblizz6/querydsl/ksp/QueryModel.kt:13 | the property list becomes the old list followed by the new properties; nothing else changes |
| TypeExtractor.SingleArgument | src/iceblizz6/querydsl/ksp/TypeExtractor.kt:34 | a type results exactly when there is one argument and it is not a star |
| TypeExtractor.ArgumentAt | src/iceblizz6/querydsl/ksp/TypeExtractor.kt:42-43 | a type results exactly when the index is in range and the argument there is not a star |
| TypeExtractor.Extract | src/iceblizz6/querydsl/ksp/TypeExtractor.kt:13-18 | a result has no `Unknown` anywhere and refers only to given models. Its value type is the field's source type as `SourceTypeName` normalises it: `MutableList`, `MutableSet` and `MutableMap` read as `List`, `Set` and `Map`, and the type arguments of a referenced class are dropped. Every failure names the property or is a failing Kotlin call |
| TypeExtractor.CollectionType | src/iceblizz6/querydsl/ksp/TypeExtractor.kt:30-48 | gives no result exactly for classes other than arrays, sets, lists and maps; an array fails with the array error naming the property |
| TypeExtractor.ReferenceType | src/iceblizz6/querydsl/ksp/TypeExtractor.kt:50-69 | an enum gives its enum reference; a class or interface gives the unique model of that class, if any; any other kind gives nothing |
| TypeExtractor.SimpleTypeFirst | src/iceblizz6/querydsl/ksp/TypeExtractor.kt:13-28 | a simple value class is classified as Simple, whatever its kind and arguments |
| TypeExtractor.ArrayAlwaysFails | src/iceblizz6/querydsl/ksp/TypeExtractor.kt:32 | an array fails with the array error naming the property, whatever its element type |
| TypeExtractor.ElementShape | src/iceblizz6/querydsl/ksp/TypeExtractor.kt:33-40 | set and list types: a missing single argument fails; otherwise they fail with the element's failure or wrap the element's result in Set/ListCollection |
| TypeExtractor.MapShape | src/iceblizz6/querydsl/ksp/TypeExtractor.kt:41-45 | a map classifies argument 0 and then argument 1. A missing or star argument fails as malformed when it is reached, the first failing classification is the map's failure, and otherwise the result is MapCollection(key, value) |
| TypeExtractor.ReferenceRules | src/iceblizz6/querydsl/ksp/TypeExtractor.kt:14-17 | a class that is neither simple nor a container gives an enum reference, or the unique model of a class/interface, or otherwise the not-recognised error naming the property |
| TypeExtractor.ExtractPermutation | src/iceblizz6/querydsl/ksp/TypeExtractor.kt:57 | classification gives the same result on any reordering of the models |
| QueryModelExtractor.GeneratedClassName | src/iceblizz6/querydsl/ksp/QueryModelExtractor.kt:35-38 | package = original package + package suffix; simple name = prefix + original simple name + suffix |
| QueryModelExtractor.GeneratedClassNameInjective | src/iceblizz6/querydsl/ksp/QueryModelExtractor.kt:35-38 | under fixed settings, distinct original classes get distinct generated classes |
| QueryModelExtractor.ResolveBounds | src/iceblizz6/querydsl/ksp/QueryModelExtractor.kt:22-31 | succeeds exactly when every parameter has no bound or a single bound that is a class. No bound gives `Any` and one bound gives its class. Otherwise it fails at the first parameter that does not resolve: several bounds fail naming the declaration, and a single bound that is not a class (a type parameter, say) fails with `ClassNameUnavailable` |
| QueryModelExtractor.SkeletonError | src/iceblizz6/querydsl/ksp/QueryModelExtractor.kt:20-31 | no error exactly when every declaration's bounds resolve; otherwise the error is the bounds error of the first declaration, in list order, whose bounds fail |
| QueryModelExtractor.BuildSkeletons | src/iceblizz6/querydsl/ksp/QueryModelExtractor.kt:20-42 | fails exactly on the skeleton error. Otherwise there is one fresh, distinct model per declaration, in order, with its names, bounds, type-parameter count and kind, no superclass and no properties |
| QueryModelExtractor.Superclass | src/iceblizz6/querydsl/ksp/QueryModelExtractor.kt:83-95 | none exactly when no supertype is a CLASS-kind declaration other than `Any`; otherwise the first one |
| QueryModelExtractor.SuperclassOrNull | src/iceblizz6/querydsl/ksp/QueryModelExtractor.kt:83-95 | the loop with early return computes `Superclass` |
| QueryModelExtractor.Link | src/iceblizz6/querydsl/ksp/QueryModelExtractor.kt:44-53 | no superclass gives no link. Otherwise: the unique model with the superclass as its original class, or an error naming the declaration and the superclass when no model or two models match |
| QueryModelExtractor.LinkErrorIsFirst | src/iceblizz6/querydsl/ksp/QueryModelExtractor.kt:43-54 | the linking pass has no error exactly when every link succeeds; otherwise the error is that of the first failing declaration |
| QueryModelExtractor.LinkSuperclasses | src/iceblizz6/querydsl/ksp/QueryModelExtractor.kt:43-54 | returns the link error. Before the first failure, each model's superclass is its link; the rest and every property list are unchanged |
| QueryModelExtractor.LinkOne | src/iceblizz6/querydsl/ksp/QueryModelExtractor.kt:44-53 | one declaration's link is written to its model, or is returned as the error |
| QueryModelExtractor.LinkPermutation | src/iceblizz6/querydsl/ksp/QueryModelExtractor.kt:47 | a declaration's link is the same on any reordering of the models |
| QueryModelExtractor.IsTransient | src/iceblizz6/querydsl/ksp/QueryModelExtractor.kt:73-75 | true exactly when some annotation of the property is `jakarta.persistence.Transient` |
| QueryModelExtractor.IsGetterTransient | src/iceblizz6/querydsl/ksp/QueryModelExtractor.kt:77-81 | false without a getter; with one, true exactly when some annotation of the getter is `jakarta.persistence.Transient` |
| QueryModelExtractor.PersistentProperties | src/iceblizz6/querydsl/ksp/QueryModelExtractor.kt:58-61 | exactly the declared properties that are not transient, have no transient getter and have a backing field |
| QueryModelExtractor.PersistentPropertiesAppend | src/iceblizz6/querydsl/ksp/QueryModelExtractor.kt:58-61 | filtering keeps declaration order: it distributes over concatenation |
| QueryModelExtractor.ExtractProperty | src/iceblizz6/querydsl/ksp/QueryModelExtractor.kt:62-67 | the property keeps its simple name and its source type as its value type; errors name the property's qualified name |
| QueryModelExtractor.ResolveFields | src/iceblizz6/querydsl/ksp/QueryModelExtractor.kt:62-67 | succeeds exactly when every property classifies, with the results in order; otherwise it fails with the first property's failure |
| QueryModelExtractor.ResolveErrorIsFirst | src/iceblizz6/querydsl/ksp/QueryModelExtractor.kt:55-69 | the resolution pass has no error exactly when every declaration's properties classify; otherwise the error is that of the first failing declaration |
| QueryModelExtractor.ResolveProperties | src/iceblizz6/querydsl/ksp/QueryModelExtractor.kt:55-69 | returns the resolution error. Each model before the first failing declaration's gains all of its own classified properties. The failing declaration's model gains the properties classified before its first failing property. Later models and every superclass are unchanged |
| QueryModelExtractor.ResolveOne | src/iceblizz6/querydsl/ksp/QueryModelExtractor.kt:56-68 | returns the declaration's classification error, if any. Its model gains the properties classified before the first failing one, and all of them when none fails |
| QueryModelExtractor.AppendSuccesses | src/iceblizz6/querydsl/ksp/QueryModelExtractor.kt:62-68 | the list gains the successful outcomes before the first failure, in order, and that failure's error is returned |
| QueryModelExtractor.ClassifiedPrefix | src/iceblizz6/querydsl/ksp/QueryModelExtractor.kt:62-67 | the classified prefix holds the leading properties' classifications in order, and the first property it leaves out fails |
| QueryModelExtractor.ClassifiedAll | src/iceblizz6/querydsl/ksp/QueryModelExtractor.kt:62-68 | when every property classifies, the classified prefix is the whole classified list |
| QueryModelExtractor.ClassifiedStopped | src/iceblizz6/querydsl/ksp/QueryModelExtractor.kt:62-68 | when the classification fails, the prefix is strict and stops at a property whose error is the one reported |
| QueryModelExtractor.OutcomesClassified | src/iceblizz6/querydsl/ksp/QueryModelExtractor.kt:62-68 | taking the outcomes in turn up to the first failure gives the classified prefix and the reported error |
| QueryModelExtractor.ResolveFieldsPermutation | src/iceblizz6/querydsl/ksp/QueryModelExtractor.kt:64 | classified properties are the same on any reordering of the models |
| QueryModelExtractor.Process | src/iceblizz6/querydsl/ksp/QueryModelExtractor.kt:16-71 | the passes fail in order: skeleton, then link, then resolution. On success: one fresh, distinct model per declaration, in order, with its names, bounds, type-parameter count and kind, each linked to its superclass model and holding exactly its own persistent classified properties |
| QueryModelType.FirstMarked | src/iceblizz6/querydsl/ksp/QueryModelType.kt:20-24 | the kind found has the annotation's name; none means no kind in the list has it |
| QueryModelType.AssociatedAnnotationsDistinct | src/iceblizz6/querydsl/ksp/QueryModelType.kt:13-15 | the three annotation names are pairwise distinct |
| QueryModelType.EntriesComplete | src/iceblizz6/querydsl/ksp/QueryModelType.kt:10-15 | every kind is among the entries |
| QueryModelType.KindOfExact | src/iceblizz6/querydsl/ksp/QueryModelType.kt:20-31 | an annotation marks kind `k` exactly when its type name equals `k`'s annotation name |
| QueryModelType.FirstDetected | src/iceblizz6/querydsl/ksp/QueryModelType.kt:18-27 | none exactly when no annotation marks a kind; otherwise the kind of the first annotation that does |
| QueryModelType.FirstDetectedExact | src/iceblizz6/querydsl/ksp/QueryModelType.kt:18-31 | none exactly when no annotation's name equals any kind's annotation name; a detected kind's name is on some annotation |
| QueryModelType.Autodetect | src/iceblizz6/querydsl/ksp/QueryModelType.kt:18-27 | the nested loops with early return compute `FirstDetected` |
| QueryModelRenderer.RenderProperty | src/iceblizz6/querydsl/ksp/QueryModelRenderer.kt:94-152 | keeps the property name; Simple defers to its table entry. Every other variant is typed with its path type and built by its own construction: list and set pass the element's value type and path class, a map its key type, value type and the value's path class, then enum, simple or lazy `forProperty` |
| QueryModelRenderer.RenderProperties | src/iceblizz6/querydsl/ksp/QueryModelRenderer.kt:87-92 | one member per property, in property order |
| QueryModelRenderer.Render | src/iceblizz6/querydsl/ksp/QueryModelRenderer.kt:14-28 | the builder steps and the per-property loops produce the corrected rendering `Rendered`, which leaves out the duplicate `(type, metadata)` constructor when there is no superclass (see Findings) |
| QueryModelRenderer.Supertype | src/iceblizz6/querydsl/ksp/QueryModelRenderer.kt:30-45 | `EntityPathBase<T>` for ENTITY and SUPERCLASS, `BeanPath<T>` for EMBEDDABLE; `T` is the original class applied to one star per type parameter |
| QueryModelRenderer.PrimaryConstructor | src/iceblizz6/querydsl/ksp/QueryModelRenderer.kt:174-193 | private, taking `(type, metadata)` and, with a superclass, a third parameter `_super` of the superclass's generated class defaulting to `Super(type, metadata)`; it calls the supertype with `(type, metadata)` |
| QueryModelRenderer.SuperInterfacesRule | src/iceblizz6/querydsl/ksp/QueryModelRenderer.kt:47-53 | the class always implements its own `Interface`. It also implements the superclass's `Interface`, delegated to `_super`, exactly when there is a superclass |
| QueryModelRenderer.InterfaceRule | src/iceblizz6/querydsl/ksp/QueryModelRenderer.kt:55-65 | `Interface` has one member per property, in order, the same as the class's members after `_super`; it extends the superclass's `Interface` exactly when there is one |
| QueryModelRenderer.SuperMemberRule | src/iceblizz6/querydsl/ksp/QueryModelRenderer.kt:70-85 | a `_super` member exists exactly when there is a superclass; it comes first, typed with the superclass's generated class, built lazily from `this` |
| QueryModelRenderer.Members | src/iceblizz6/querydsl/ksp/QueryModelRenderer.kt:70-92 | `_super` first exactly when there is a superclass, then one member per property, in property order, with the property's name |
| QueryModelRenderer.ConstructorsRule | src/iceblizz6/querydsl/ksp/QueryModelRenderer.kt:154-235 | for the corrected rendering: the primary constructor calls the supertype with `(type, metadata)`. With a superclass, the private `(type, metadata)` constructor adds `Super(type, metadata)`. The path, metadata and variable constructors pass `(path.type, path.metadata)`, `(Source::class.java, metadata)` and `(Source::class.java, forVariable(variable))` |
| QueryModelRenderer.TypeMetadataConstructor | src/iceblizz6/querydsl/ksp/QueryModelRenderer.kt:154-172 | as written, whatever the superclass: private, signature `(Class<out T>, PathMetadata)`, passing `(type, metadata)` on and adding `Super(type, metadata)` only with a superclass |
| QueryModelRenderer.SignaturesDistinct | src/iceblizz6/querydsl/ksp/QueryModelRenderer.kt:154-193 | no two constructors share a signature, and a private one takes `(type, metadata)` |
| QueryModelRenderer.AsWrittenDuplicatesPrimary | src/iceblizz6/querydsl/ksp/QueryModelRenderer.kt:154-172 | as written, a class without a superclass gets a second `(type, metadata)` constructor that delegates to that same signature |
| QueryModelRenderer.AsWrittenAgreesWithSuperclass | src/iceblizz6/querydsl/ksp/QueryModelRenderer.kt:154-172 | the as-written and corrected renderings differ only in that constructor, and only without a superclass |
| QueryModelRenderer.Companion | src/iceblizz6/querydsl/ksp/QueryModelRenderer.kt:237-251 | the companion holds one `@JvmField` instance of the generated class, named by camel-casing the original simple name, created with that name |
| QueryModelRenderer.Rendered | src/iceblizz6/querydsl/ksp/QueryModelRenderer.kt:14-28 | the corrected rendering: the class is the model's generated class, the companion instance has that type, and the class's members end with those of its nested `Interface` |
| QueryModelRenderer.RenderedAsWritten | src/iceblizz6/querydsl/ksp/QueryModelRenderer.kt:14-28 | the rendering as written: the `(type, metadata)` constructor followed by the three public ones, with everything else as in `Rendered` |

## Left out

- KSP symbol resolution is given pre-resolved as the `Declarations` datatypes: `resolve()`, `toClassName()`, annotation lookup, `getDeclaredProperties` and `hasBackingField`.
- A declared property's type is taken with its arguments already resolved.
- KotlinPoet is replaced by the description datatypes of `QueryModelRenderer`: `TypeSpec`, `PropertySpec`, `CodeBlock` and the printing of class names. Initializer code, `lazy` and `@JvmField` are structured tags, and Kotlin syntax is not checked.
- How KotlinPoet prints the interface names built at QueryModelRenderer.kt:48 and :50 is not modelled. Those are class names whose simple name holds the dotted canonical name.
- QueryDSL's runtime meaning is not modelled: `EntityPathBase`, `BeanPath`, `forProperty` and the `create*` calls.
- `SimpleType.render` and `SimpleType.getPropertySpec` are not part of this model. A Simple property is rendered as a tag naming its table entry. The `forInterface` flag is kept as given; the source passes `false` for both the class and the interface.
- `SimpleType.detectedClassNames` is not part of this model; it is the singleton of the entry's value class.
- `QueryModel.kt` declares no type parameters, but the builder and the renderer use them. The model stores the resolved bounds and `typeParameterCount`, their number.
- `QPropertyType.originalTypeName`, read at QueryModelRenderer.kt:105, is the same as `originalClassName`.
- `QPropertyType.Unknown` is rendered but not declared in `QPropertyType.kt`. It is a renderer-only variant, and the classifier never produces it.
- QueryModelRenderer.Render: it produces the corrected rendering `Rendered`, not the source's. Without a superclass, the source also emits the private `(type, metadata)` constructor described under Findings; `RenderedAsWritten` and `AsWrittenAgreesWithSuperclass` keep that behaviour. `ConstructorsRule` and `SignaturesDistinct` also speak of the corrected rendering.
- Names.ClassName: nested classes are not modelled. A class name is a package and a single simple name, which is correct for top-level classes. For a nested declaration `Outer.Inner`, the source compares the full nested name for model identity but uses only `Inner` in the generated name and the companion name. One simple-name string cannot carry both.
- QueryModelExtractor.AppendSuccesses: it receives the classification outcomes computed in advance; the source's lazy sequence classifies each property just before `addAll` appends it. Classification reads no property list, so the appended list and the error are the same.
- SimpleTypes.Lookup: scans the table in order rather than calling `singleOrNull`. `LookupIsSingleOrNull` proves the two agree.
- Failures are error values rather than exceptions, and messages are error kinds with the offending names; the exact wording is not modelled.
- Failing Kotlin calls become errors. `toClassName()` on a type that is not a class, whether a field type or a type-parameter bound, is `ClassNameUnavailable`. `single()`, `!!` or an index on missing type arguments is `MalformedTypeArguments`.
- `KspSettings` is a record of three strings.
- `ModelDeclaration` is a value. The source keys `associateWith` by object identity, so a declaration object given twice would yield one model; the model yields one model per list element.
- Writes made before a pass fails are visible in the pass methods' contracts, here as in the source. These include the properties the failing declaration's model received before its failing property. `Process` states only the failure, because the source throws and returns no models.
- Char case mapping in `Naming` covers ASCII letters only. Unicode mapping, where `uppercase()` can yield several characters, is left out.
- Which `QueryModel.Type` a detected `QueryModelType` becomes is decided outside the modelled files, so the two enumerations are not connected.
- `build.gradle.kts` is build wiring only and is not part of this model.

## Findings

| source | as written | input that shows it | evidently intended | confidence | as-written member | corrected member |
|---|---|---|---|---|---|---|
| src/iceblizz6/querydsl/ksp/QueryModelRenderer.kt:154-172 | `constructorForTypeMetadata` always adds a private `constructor(type: Class<out T>, metadata: PathMetadata) : this(type, metadata)` | any model whose `superclass` is null: the primary constructor is then private `(type, metadata)` too. The class gets two constructors with one signature, and the secondary delegates to that signature | add the `(type, metadata)` secondary constructor only when there is a superclass. Without one, the public constructors reach the primary constructor directly | not executed; the duplicate is proved on the model | QueryModelRenderer.AsWrittenDuplicatesPrimary | QueryModelRenderer.SignaturesDistinct |
