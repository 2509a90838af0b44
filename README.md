# EntityIt, modelled in Dafny

EntityIt is a Kotlin symbol processor (KSP). A class annotated `@Entity` gets a generated `XEntity` class in the sub-package `<package>.entity` of its own package. The generated code has:

- per property of the domain class, one constructor parameter and two property entries under the emitted name: first the declared type made nullable, then the emitted type (the model records both entries as the generator adds them, not how KotlinPoet renders two properties of the same name);
- when `generateMappers` is set, the conversion functions `X.toEntity()` and `XEntity.toDomain()`;
- when `generateMappers` is set, a separate file holds an `XMappers` object with one instance per custom mapper (`@Entity.MapWith`) key, the key being the mapper's canonical name without dots; two mappers whose keys collide keep only the later one.

The processor resolves each property's metadata:

- its emitted name (`@Entity.Named`);
- its mapper, and the mapper's entity-side type;
- whether it is `@Entity.NotNull` or entity-annotated.

It rejects a property whose type is not primitive-like, not an entity, and has no valid mapper. It then hands everything to the code generator, which decides:

- each property's emitted type and nullability;
- its default value;
- its conversion statements in both directions, including how a nullable entity value is collapsed back into a non-null domain value (`!!` or ` ?: <default>`).

The model covers:

- the current generator (`io.github.yushman`) and its processor;
- the extension functions they share;
- the older generator (`ru.tomindapps`), side by side with the current one, with lemmas that say exactly when the two emit the same code.

KotlinPoet's specifications (`ParameterSpec`, `PropertySpec`, `FunSpec`, `TypeSpec`, `FileSpec`) are modelled as plain values in module `Poet`. The generator's four mutable builders are modelled as the class `Poet.EntityBuilder`. KSP's declarations and resolved types are inputs, modelled as values in module `Meta`.

Modules:

| file | module | models |
|---|---|---|
| wrappers.dfy | Wrappers | `Option`, `Result`, `Outcome` |
| poet.dfy | Poet | KotlinPoet names, type names, specifications, the per-field builders |
| meta.dfy | Meta | resolved declarations, annotations, `SourceMeta`, `PropertyMeta`, the thrown exceptions |
| entity_ext.dfy | EntityExt | `toMeta`, `relaxedDefaultString`, `isPrimitive` |
| entity_code_generator.dfy | EntityCodeGenerator | the current generator |
| legacy_generator.dfy | LegacyCodeGenerator | the older generator and its comparison with the current one |
| processor.dfy | EntityItProcessor | the processor |

Some behaviours of the code are worth stating explicitly:

- **An exception stops the rest of the round.** An exception thrown while processing one class (an ineligible property, a missing annotation argument) propagates out of `process`. The classes after it are not processed. `EntityItProcessor.Process` ends in `Threw` with the files written so far.
- **Nested entities are not converted recursively.** An entity-annotated property passes validation, but the generator converts it exactly like any other property (direct assignment).
- **Declared nullability is kept on direct properties.** For a property without a mapper the generator copies the domain property's declared type, so a declared-nullable property stays nullable in every mode. For a property with a mapper, when `generateMappers` is set, the entity type is the mapper's entity type, whose nullability the mode and `@NotNull` decide: under `TRANSIENT` a `@NotNull` property declared `Long?` with a mapper to `Double` becomes a non-null `Double`.
- **The registry is generated whenever `generateMappers` is set.** This holds even when no property has a mapper. In that case the `XMappers` object is empty.
- **`toDomain` is never `internal`.** When the class is internal, the entity class, the `XMappers` object and its properties get the `INTERNAL` modifier, but of the generated functions only `toEntity` does.
- **The generator uses its own private default table, which does not match numeric types.** The generator's private `relaxedDefaultString` (`EntityCodeGenerator.kt`:258-295) is the one `addMapperStatements` calls. It is not the extension function in `EntityExt.kt`. Its numeric and boolean entries compare a type name against `X::class.asTypeName()`, where `X` is a KotlinPoet `ClassName` constant. That expression is the type name of the class `com.squareup.kotlinpoet.ClassName`, not `kotlin.Int` and so on. So under `FULL` a nullable `Int` property falls back to `!!`, while a property of type `com.squareup.kotlinpoet.ClassName` would get ` ?: 0`. The model keeps this behaviour (`GeneratorDefaultString`). `GeneratorTableDiffers` states the difference from the extension table.

## Model

| member | source | states |
|---|---|---|
| Poet.Copy | entityit/src/main/kotlin/io/github/yushman/entityit/processor/EntityCodeGenerator.kt:47 | `copy(nullable = b)` yields a type whose nullability is `b` and which is otherwise the same type |
| Poet.EntityBuilder.constructor | entityit/src/main/kotlin/io/github/yushman/entityit/processor/EntityCodeGenerator.kt:36-39 | the four builders start empty |
| Poet.EntityBuilder.AddParameter | entityit/src/main/kotlin/io/github/yushman/entityit/processor/EntityCodeGenerator.kt:117-121 | appends one constructor parameter and leaves the other builders unchanged |
| Poet.EntityBuilder.AddProperty | entityit/src/main/kotlin/io/github/yushman/entityit/processor/EntityCodeGenerator.kt:126-128 | appends one property and leaves the other builders unchanged |
| Poet.EntityBuilder.AddToDomainStatement | entityit/src/main/kotlin/io/github/yushman/entityit/processor/EntityCodeGenerator.kt:122-125 | appends one `toDomain` statement and leaves the other builders unchanged |
| Poet.EntityBuilder.AddToEntityStatement | entityit/src/main/kotlin/io/github/yushman/entityit/processor/EntityCodeGenerator.kt:130-133 | appends one `toEntity` statement and leaves the other builders unchanged |
| Meta.MessageNamesOffender | entityit/src/main/kotlin/io/github/yushman/entityit/processor/EntityItProcessor.kt:84-103 | the mapper message contains the rendered mapper type; the property message contains the property's name and its rendered type |
| EntityExt.ToMeta | entityit/src/main/kotlin/io/github/yushman/entityit/ext/EntityExt.kt:38-44 | the name "FULL" gives FULL, every other name gives TRANSIENT, and NONE never results |
| EntityExt.ScalarLiteralMatchesTable | entityit/src/main/kotlin/io/github/yushman/entityit/ext/EntityExt.kt:48-68 | the scalar `when` gives exactly the table of fifteen scalar defaults |
| EntityExt.CollectionLiteralMatchesTable | entityit/src/main/kotlin/io/github/yushman/entityit/ext/EntityExt.kt:69-85 | the collection `when` gives exactly the table of eleven raw collection defaults |
| EntityExt.RelaxedDefaultMatchesTable | entityit/src/main/kotlin/io/github/yushman/entityit/ext/EntityExt.kt:46-86 | `relaxedDefaultString` is the table lookup of the non-null type |
| EntityExt.PrimitiveIffDefault | entityit/src/main/kotlin/io/github/yushman/entityit/ext/EntityExt.kt:88-100 | `isPrimitive` holds exactly when a default literal exists, that is for a listed scalar or a listed raw collection type |
| EntityExt.IgnoresNullability | entityit/src/main/kotlin/io/github/yushman/entityit/ext/EntityExt.kt:46-91 | both functions give the same answer for a type and for its nullable or non-null copy |
| EntityExt.ArgumentsNotInspected | entityit/src/main/kotlin/io/github/yushman/entityit/ext/EntityExt.kt:69-98 | a parameterized type is decided by its raw type alone, whatever its type arguments |
| EntityCodeGenerator.ReplaceDotsRemovesDots | entityit/src/main/kotlin/io/github/yushman/entityit/processor/EntityCodeGenerator.kt:254-256 | the key contains no '.' and is no longer than the name |
| EntityCodeGenerator.ReplaceDotsKeepsOthers | entityit/src/main/kotlin/io/github/yushman/entityit/processor/EntityCodeGenerator.kt:254-256 | every character other than '.' occurs in the key as often as in the name |
| EntityCodeGenerator.ReplaceDotsAppend | entityit/src/main/kotlin/io/github/yushman/entityit/processor/EntityCodeGenerator.kt:254-256 | dot removal distributes over concatenation |
| EntityCodeGenerator.ReplaceDotsKeepsDotless | entityit/src/main/kotlin/io/github/yushman/entityit/processor/EntityCodeGenerator.kt:254-256 | a name without dots is its own key |
| EntityCodeGenerator.IsNullableProperty | entityit/src/main/kotlin/io/github/yushman/entityit/processor/EntityCodeGenerator.kt:245-248 | a property is emitted nullable exactly as the table of the three nullability modes says: never under NONE, unless `@NotNull` under FULL, and under TRANSIENT only when declared nullable and not `@NotNull` |
| EntityCodeGenerator.GeneratorTableDiffers | entityit/src/main/kotlin/io/github/yushman/entityit/processor/EntityCodeGenerator.kt:258-295 | the generator's private table gives no default for `kotlin.Int` (where the extension gives "0") and gives "0" for `com.squareup.kotlinpoet.ClassName` |
| EntityCodeGenerator.NullabilityOption | entityit/src/main/kotlin/io/github/yushman/entityit/processor/EntityCodeGenerator.kt:250-252 | the unwrap suffix is empty exactly for non-nullable properties, otherwise " ?: default" when the private table has a default and "!!" when it has none |
| EntityCodeGenerator.EmittedType | entityit/src/main/kotlin/io/github/yushman/entityit/processor/EntityCodeGenerator.kt:107-136 | the emitted type is nullable when the property is emitted nullable, and apart from nullability it is the mapper's entity type in the mapper branch and the declared type otherwise |
| EntityCodeGenerator.FieldParameter | entityit/src/main/kotlin/io/github/yushman/entityit/processor/EntityCodeGenerator.kt:117-142 | the parameter carries the emitted name, has the emitted type, has default `null` exactly when the property is emitted nullable, and then has a nullable type |
| EntityCodeGenerator.StatementForms | entityit/src/main/kotlin/io/github/yushman/entityit/processor/EntityCodeGenerator.kt:122-149 | the mapper branch calls `mapEntityToDomain`/`mapDomainToEntity` on the registry property named by the mapper's key; the direct branch assigns with the unwrap suffix |
| EntityCodeGenerator.AddMapperStatements | entityit/src/main/kotlin/io/github/yushman/entityit/processor/EntityCodeGenerator.kt:90-152 | appends this field's parameter and property, and its two statements only when conversions are generated |
| EntityCodeGenerator.ParametersOf | entityit/src/main/kotlin/io/github/yushman/entityit/processor/EntityCodeGenerator.kt:41-65 | one constructor parameter per field |
| EntityCodeGenerator.PropertiesOf | entityit/src/main/kotlin/io/github/yushman/entityit/processor/EntityCodeGenerator.kt:41-65 | two properties per field: the nullable copy, then the emitted property |
| EntityCodeGenerator.ToDomainOf | entityit/src/main/kotlin/io/github/yushman/entityit/processor/EntityCodeGenerator.kt:41-65 | one `toDomain` statement per field when conversions are generated, none otherwise |
| EntityCodeGenerator.ToEntityOf | entityit/src/main/kotlin/io/github/yushman/entityit/processor/EntityCodeGenerator.kt:41-65 | one `toEntity` statement per field when conversions are generated, none otherwise |
| EntityCodeGenerator.ParametersOfAt | entityit/src/main/kotlin/io/github/yushman/entityit/processor/EntityCodeGenerator.kt:41-65 | parameter i is field i's parameter, in property order |
| EntityCodeGenerator.PropertiesOfAt | entityit/src/main/kotlin/io/github/yushman/entityit/processor/EntityCodeGenerator.kt:41-65 | properties 2i and 2i+1 are field i's nullable copy and its emitted property |
| EntityCodeGenerator.ToDomainOfAt | entityit/src/main/kotlin/io/github/yushman/entityit/processor/EntityCodeGenerator.kt:41-65 | `toDomain` statement i is field i's statement |
| EntityCodeGenerator.ToEntityOfAt | entityit/src/main/kotlin/io/github/yushman/entityit/processor/EntityCodeGenerator.kt:41-65 | `toEntity` statement i is field i's statement |
| EntityCodeGenerator.AddField | entityit/src/main/kotlin/io/github/yushman/entityit/processor/EntityCodeGenerator.kt:42-63 | one loop iteration: the nullable copy, then the mapper statements for that field |
| EntityCodeGenerator.Registrations | entityit/src/main/kotlin/io/github/yushman/entityit/processor/EntityCodeGenerator.kt:163-168 | one registration per mapper, in list order |
| EntityCodeGenerator.RegistrationsAt | entityit/src/main/kotlin/io/github/yushman/entityit/processor/EntityCodeGenerator.kt:163-168 | registration i is mapper i's key and class name |
| EntityCodeGenerator.LastIndexWithKey | entityit/src/main/kotlin/io/github/yushman/entityit/processor/EntityCodeGenerator.kt:163-168 | the index found holds the key, or is -1 |
| EntityCodeGenerator.LastIndexWithKeyIsLast | entityit/src/main/kotlin/io/github/yushman/entityit/processor/EntityCodeGenerator.kt:163-168 | no later registration has the key, and -1 means no registration has it |
| EntityCodeGenerator.MapOfHoldsLast | entityit/src/main/kotlin/io/github/yushman/entityit/processor/EntityCodeGenerator.kt:163-168 | a key is in the hash map exactly when some registration has it, and it maps to the class of the last such registration |
| EntityCodeGenerator.RegistryKeys | entityit/src/main/kotlin/io/github/yushman/entityit/processor/EntityCodeGenerator.kt:161-168 | the registry's keys are exactly the dot-free canonical names of the mappers |
| EntityCodeGenerator.RegistryLastWins | entityit/src/main/kotlin/io/github/yushman/entityit/processor/EntityCodeGenerator.kt:163-168 | whatever comes before it, a mapper that no later mapper shares its key with is the one registered under that key |
| EntityCodeGenerator.RegistryOfTwo | entityit/src/main/kotlin/io/github/yushman/entityit/processor/EntityCodeGenerator.kt:163-168 | two mappers are put in order, so the second overrides the first when their keys agree |
| EntityCodeGenerator.RegistryCollision | entityit/src/main/kotlin/io/github/yushman/entityit/processor/EntityCodeGenerator.kt:165-166 | two mappers `a.bC` and `ab.C` share the key `abC`, so only the later one is registered |
| EntityCodeGenerator.RegistryProperties | entityit/src/main/kotlin/io/github/yushman/entityit/processor/EntityCodeGenerator.kt:169-176 | one property per registry entry, named by its key, of its class, internal exactly when the source is |
| EntityCodeGenerator.GenerateObjectMappers | entityit/src/main/kotlin/io/github/yushman/entityit/processor/EntityCodeGenerator.kt:154-187 | the loop fills the hash map with exactly the registry of the mapper list, and the file is the `XMappers` object in the entity package |
| EntityCodeGenerator.GenerateEntity | entityit/src/main/kotlin/io/github/yushman/entityit/processor/EntityCodeGenerator.kt:189-243 | the entity file carries the class `XEntity` (a data class, internal and `@Serializable` as configured) with the builders' parameters and properties, and the two conversion functions and their statements exactly when conversions are generated |
| EntityCodeGenerator.GenerateEntities | entityit/src/main/kotlin/io/github/yushman/entityit/processor/EntityCodeGenerator.kt:21-88 | the generated files are names `<package>.entity.XEntity`/`XMappers`, the registry exists exactly when conversions are generated, parameter i is field i's parameter, there are twice as many properties as fields, and the `toDomain` statements are the per-field ones |
| LegacyCodeGenerator.EmittedType | entityit/src/main/kotlin/ru/tomindapps/entityit/processor/EntityCodeGenerator.kt:45-72 | the older generator's type is nullable when `nullableValues` is set and the property is not `@NotNull`, and is otherwise the mapper's type or the declared type |
| LegacyCodeGenerator.FieldParameter | entityit/src/main/kotlin/ru/tomindapps/entityit/processor/EntityCodeGenerator.kt:48-71 | the emitted name and type, default `null` exactly when emitted nullable, and otherwise the base type unchanged |
| LegacyCodeGenerator.ToDomainAlwaysUnwraps | entityit/src/main/kotlin/ru/tomindapps/entityit/processor/EntityCodeGenerator.kt:57-77 | every `toDomain` statement of the older generator unwraps its value with `!!` |
| LegacyCodeGenerator.ParametersOf | entityit/src/main/kotlin/ru/tomindapps/entityit/processor/EntityCodeGenerator.kt:37-81 | one constructor parameter per field |
| LegacyCodeGenerator.PropertiesOf | entityit/src/main/kotlin/ru/tomindapps/entityit/processor/EntityCodeGenerator.kt:37-81 | two properties per field |
| LegacyCodeGenerator.ToDomainOf | entityit/src/main/kotlin/ru/tomindapps/entityit/processor/EntityCodeGenerator.kt:37-81 | one `toDomain` statement per field when conversions are generated |
| LegacyCodeGenerator.ToEntityOf | entityit/src/main/kotlin/ru/tomindapps/entityit/processor/EntityCodeGenerator.kt:37-81 | one `toEntity` statement per field when conversions are generated |
| LegacyCodeGenerator.ToDomainOfAt | entityit/src/main/kotlin/ru/tomindapps/entityit/processor/EntityCodeGenerator.kt:37-81 | `toDomain` statement i is field i's statement |
| LegacyCodeGenerator.AddField | entityit/src/main/kotlin/ru/tomindapps/entityit/processor/EntityCodeGenerator.kt:38-80 | one iteration of the older loop appends that field's entries |
| LegacyCodeGenerator.GenerateEntities | entityit/src/main/kotlin/ru/tomindapps/entityit/processor/EntityCodeGenerator.kt:17-104 | the older generator produces its specified files, with the registry exactly when conversions are generated |
| LegacyCodeGenerator.UpgradeFields | entityit/src/main/kotlin/ru/tomindapps/entityit/processor/EntityCodeGenerator.kt:37-81 | every older field has exactly one counterpart in the current generator's terms |
| LegacyCodeGenerator.NullableValuesIsFullOrNone | entityit/src/main/kotlin/ru/tomindapps/entityit/processor/EntityCodeGenerator.kt:48-51 | the older `nullableValues` flag decides nullability as FULL does when switched on and as NONE does when switched off |
| LegacyCodeGenerator.FieldAgrees | entityit/src/main/kotlin/ru/tomindapps/entityit/processor/EntityCodeGenerator.kt:42-79 | on one field both generators give the same parameter, the same properties and the same `toEntity` statement, and the same `toDomain` statement exactly when the current one falls back to `!!` |
| LegacyCodeGenerator.SequencesAgree | entityit/src/main/kotlin/ru/tomindapps/entityit/processor/EntityCodeGenerator.kt:37-81 | the same holds for the whole parameter, property and `toEntity` lists |
| LegacyCodeGenerator.ToDomainAgrees | entityit/src/main/kotlin/ru/tomindapps/entityit/processor/EntityCodeGenerator.kt:57-77 | the `toDomain` lists agree when conversions are off or every field's current unwrap suffix is `!!` |
| LegacyCodeGenerator.ToDomainAgreesIff | entityit/src/main/kotlin/ru/tomindapps/entityit/processor/EntityCodeGenerator.kt:57-77 | the `toDomain` lists agree exactly when conversions are off or every field's current unwrap suffix is `!!` |
| LegacyCodeGenerator.LegacyMatchesCurrent | entityit/src/main/kotlin/ru/tomindapps/entityit/processor/EntityCodeGenerator.kt:17-104 | the two generators emit the same registry, parameters, properties and top-level `toEntity` function, and the same files exactly when conversions are off or every field's current unwrap suffix is `!!` |
| EntityItProcessor.FindAnnotation | entityit/src/main/kotlin/io/github/yushman/entityit/processor/EntityItProcessor.kt:109 | finds the first annotation with the short name, or none when there is none |
| EntityItProcessor.FindArgument | entityit/src/main/kotlin/io/github/yushman/entityit/processor/EntityItProcessor.kt:141 | finds the first argument with the name, or none when there is none |
| EntityItProcessor.FindMapperSuper | entityit/src/main/kotlin/io/github/yushman/entityit/processor/EntityItProcessor.kt:128-130 | finds the first supertype whose qualified name is `EntityMapper`'s |
| EntityItProcessor.GetName | entityit/src/main/kotlin/io/github/yushman/entityit/processor/EntityItProcessor.kt:108-115 | the `@Named` value when present, the property's own name otherwise; a missing or non-string first argument is the matching exception |
| EntityItProcessor.GetMapper | entityit/src/main/kotlin/io/github/yushman/entityit/processor/EntityItProcessor.kt:117-124 | the class named by the first `@MapWith` argument; no mapper without the annotation or when that argument is not a class type; a `@MapWith` with no arguments fails |
| EntityItProcessor.GetMapperType | entityit/src/main/kotlin/io/github/yushman/entityit/processor/EntityItProcessor.kt:126-133 | succeeds exactly when an `EntityMapper` supertype exists with a typed second argument, returning that argument; otherwise a null-pointer failure |
| EntityItProcessor.FindMapperSuperIsFirst | entityit/src/main/kotlin/io/github/yushman/entityit/processor/EntityItProcessor.kt:128-130 | the supertype found is the one at the first matching position; none found means no position matches |
| EntityItProcessor.ValidateProp | entityit/src/main/kotlin/io/github/yushman/entityit/processor/EntityItProcessor.kt:72-106 | with a mapper the mapper's type alone decides (primitive or entity); without one the property passes exactly when it is entity or primitive; the failures carry the offending type and name |
| EntityItProcessor.MapperValidationIgnoresProperty | entityit/src/main/kotlin/io/github/yushman/entityit/processor/EntityItProcessor.kt:80-92 | once a mapper type exists the property's own type and entity flag play no part |
| EntityItProcessor.ValidationMessageNamesOffender | entityit/src/main/kotlin/io/github/yushman/entityit/processor/EntityItProcessor.kt:84-103 | a validation failure's message names the offending mapper type or property |
| EntityItProcessor.GetMapperTypeOf | entityit/src/main/kotlin/io/github/yushman/entityit/processor/EntityItProcessor.kt:57 | no mapper gives `Success(None)`; for a mapper the lookup succeeds exactly when `getMapperType` does and passes on its type |
| EntityItProcessor.PropertyGetMetaFacts | entityit/src/main/kotlin/io/github/yushman/entityit/processor/EntityItProcessor.kt:50-70 | the meta succeeds exactly when name, mapper type and validation succeed, in that order, the first failing step's error being the result; on success it records the name, the declared nullability, `@NotNull`, the entity flag, the mapper and the mapper type or declared type |
| EntityItProcessor.AcceptedPropertyIsEligible | entityit/src/main/kotlin/io/github/yushman/entityit/processor/EntityItProcessor.kt:72-106 | an accepted property's result type (the mapper's type, or its own type without a mapper) is primitive or an entity |
| EntityItProcessor.MetaResults | entityit/src/main/kotlin/io/github/yushman/entityit/processor/EntityItProcessor.kt:45 | one meta result per property |
| EntityItProcessor.MetaResultsAt | entityit/src/main/kotlin/io/github/yushman/entityit/processor/EntityItProcessor.kt:45 | result i is property i's meta |
| EntityItProcessor.Associate | entityit/src/main/kotlin/io/github/yushman/entityit/processor/EntityItProcessor.kt:45 | success gives one field per property, in order |
| EntityItProcessor.PropertiesMeta | entityit/src/main/kotlin/io/github/yushman/entityit/processor/EntityItProcessor.kt:45 | success gives one field per property |
| EntityItProcessor.AssociateSucceeds | entityit/src/main/kotlin/io/github/yushman/entityit/processor/EntityItProcessor.kt:45 | association succeeds exactly when every result does, pairing property i with meta i |
| EntityItProcessor.AssociateFailsFirst | entityit/src/main/kotlin/io/github/yushman/entityit/processor/EntityItProcessor.kt:45 | association fails with the first property's failure |
| EntityItProcessor.PropertiesMetaSucceeds | entityit/src/main/kotlin/io/github/yushman/entityit/processor/EntityItProcessor.kt:45 | `associateWith` succeeds exactly when every property's meta does |
| EntityItProcessor.PropertiesMetaFailsFirst | entityit/src/main/kotlin/io/github/yushman/entityit/processor/EntityItProcessor.kt:45 | it throws the first failing property's exception |
| EntityItProcessor.MapperList | entityit/src/main/kotlin/io/github/yushman/entityit/processor/EntityItProcessor.kt:46 | no more mappers than fields |
| EntityItProcessor.MapperListAppend | entityit/src/main/kotlin/io/github/yushman/entityit/processor/EntityItProcessor.kt:46 | `mapNotNull` distributes over concatenation |
| EntityItProcessor.MapperListHolds | entityit/src/main/kotlin/io/github/yushman/entityit/processor/EntityItProcessor.kt:46 | a class is in the list exactly when some field has it as its mapper |
| EntityItProcessor.MapperListKeepsRepeats | entityit/src/main/kotlin/io/github/yushman/entityit/processor/EntityItProcessor.kt:46 | any two fields with the same mapper list it twice, once per field |
| EntityItProcessor.MappedFieldIsRegistered | entityit/src/main/kotlin/io/github/yushman/entityit/processor/EntityItProcessor.kt:46-47 | every field's mapper has its key in the registry the generator builds |
| EntityItProcessor.BoolArgument | entityit/src/main/kotlin/io/github/yushman/entityit/processor/EntityItProcessor.kt:141 | a boolean argument's value, no such element when missing, a class cast when not boolean |
| EntityItProcessor.EnumArgumentName | entityit/src/main/kotlin/io/github/yushman/entityit/processor/EntityItProcessor.kt:142-143 | the simple name of a type-valued argument, with the same failures |
| EntityItProcessor.ClassMeta | entityit/src/main/kotlin/io/github/yushman/entityit/processor/EntityItProcessor.kt:138-153 | fails when there is no `@Entity`; with it, succeeds exactly when the three arguments read, the first one that does not giving the error; on success the settings are the annotation's arguments, the class's visibility, and a nullability that is never NONE |
| EntityItProcessor.ProcessInternal | entityit/src/main/kotlin/io/github/yushman/entityit/processor/EntityItProcessor.kt:42-48 | class meta, then property metas, then generation; the registry is written exactly when conversions are generated |
| EntityItProcessor.StatementMappersAreRegistered | entityit/src/main/kotlin/io/github/yushman/entityit/processor/EntityItProcessor.kt:42-48 | every mapper a generated statement refers to is a property of the generated registry |
| EntityItProcessor.Valid | entityit/src/main/kotlin/io/github/yushman/entityit/processor/EntityItProcessor.kt:32 | every symbol kept for processing validated |
| EntityItProcessor.ValidAppend | entityit/src/main/kotlin/io/github/yushman/entityit/processor/EntityItProcessor.kt:32-38 | the kept symbols stay in their input order: the valid symbols of a concatenation are those of each part, in turn |
| EntityItProcessor.Invalid | entityit/src/main/kotlin/io/github/yushman/entityit/processor/EntityItProcessor.kt:32 | every symbol returned as deferred did not validate |
| EntityItProcessor.PartitionIsPermutation | entityit/src/main/kotlin/io/github/yushman/entityit/processor/EntityItProcessor.kt:32 | the two halves together are a permutation of the symbols |
| EntityItProcessor.ClassesOf | entityit/src/main/kotlin/io/github/yushman/entityit/processor/EntityItProcessor.kt:34-38 | the class declarations among the symbols, at most one per symbol |
| EntityItProcessor.ClassesOfHolds | entityit/src/main/kotlin/io/github/yushman/entityit/processor/EntityItProcessor.kt:34-38 | a declaration is processed exactly when it is the declaration of one of the class symbols |
| EntityItProcessor.ClassesOfAppend | entityit/src/main/kotlin/io/github/yushman/entityit/processor/EntityItProcessor.kt:34-38 | the class filter distributes over concatenation |
| EntityItProcessor.Outcomes | entityit/src/main/kotlin/io/github/yushman/entityit/processor/EntityItProcessor.kt:34-38 | one outcome per class |
| EntityItProcessor.OutcomesAt | entityit/src/main/kotlin/io/github/yushman/entityit/processor/EntityItProcessor.kt:34-38 | outcome i is class i's processing |
| EntityItProcessor.OutcomesAppend | entityit/src/main/kotlin/io/github/yushman/entityit/processor/EntityItProcessor.kt:34-38 | the outcomes distribute over concatenation |
| EntityItProcessor.Run | entityit/src/main/kotlin/io/github/yushman/entityit/processor/EntityItProcessor.kt:34-38 | never more written than processed |
| EntityItProcessor.RunStopsAtFailure | entityit/src/main/kotlin/io/github/yushman/entityit/processor/EntityItProcessor.kt:34-38 | after a failure nothing further is processed |
| EntityItProcessor.RunWritesAll | entityit/src/main/kotlin/io/github/yushman/entityit/processor/EntityItProcessor.kt:34-38 | without failure every class's files are written, in order |
| EntityItProcessor.RunFailsAtFirst | entityit/src/main/kotlin/io/github/yushman/entityit/processor/EntityItProcessor.kt:34-38 | the round ends with the first class's exception and the files of the classes before it |
| EntityItProcessor.Process | entityit/src/main/kotlin/io/github/yushman/entityit/processor/EntityItProcessor.kt:30-40 | the loop computes the round's specification; when it returns, the deferred symbols are the invalid ones and one result was written per valid class declaration |

## Left out

- KSP itself is not modelled: symbol lookup, `validate()`, type resolution and `isInternal()`. Their results are the inputs modelled in `Meta`.
- The inherited properties that `getAllProperties()` adds are not computed. The class's property list is taken as given, in its order.
- A mapper's entity-side type is read from the first parameter of the second function that `getAllFunctions()` returns. The model takes it as the input `MapperClass.entityParameterType`. The order KSP lists functions in is outside the model.
- KotlinPoet's rendering of specifications to source text and `FileSpec.writeTo` are not modelled. A generated file is the value of its specification. KotlinPoet's checks on format arguments are not modelled either. For example, the direct `toDomain` statement passes an unused class argument, which is kept as written.
- The `KSPLogger` calls are left out: they have no effect on the output.
- The registry's `HashMap` iteration order is not modelled: the object's properties are a set.
- `toClassName()` for nested classes is not modelled: the source class name is the package plus the simple name.
- `LegacyCodeGenerator.GenerateEntities`: the older generator calls `property.type.toTypeName()` without resolving the type. The model gives it the same resolved type name as the current generator.
- The `Entity` annotation's default argument values are not modelled. The arguments arrive as KSP supplies them, defaults included.
- JVM exception messages for `NoSuchElementException`, `ClassCastException` and `NullPointerException` are not modelled. They are replaced by a label naming the failing step.
- The `PropertyMeta.kt` and `SourceMeta.kt` records beside the generators are not modelled as written. They do not match the fields their callers use, so the records are modelled from their use.
- The sample project (`sample/`) and the `ru.tomindapps` processor provider and annotations are not part of this model.
