# Simple DTO members strategy, modelled in Dafny

The `kotlin-utils-kapt` annotation processor generates a DTO ("data transfer
object") type for an annotated Kotlin class. `SimpleDtoMembersStrategy`
decides the members of that DTO field by field. For every field of the
source class it adds:

- a nullable primary-constructor parameter with a default-value expression;
- a mutable public property;
- for the fields `processFields` handles, one statement to each generated
  function body (to `toTargetType` only when it is not skipped):
  - `toPatched` (the patch function);
  - `toTargetType` (the to-target-type function);
  - the alternate constructor taking an `original`;
  - the companion's `mapToDto` (the creator function).

`processDtoOnlyFields` adds the parameter and the property for each field it
is given, and no statement.

`finalize` then closes those bodies.

The model has two modules:

- `DtoStatements` (`dto_statements.dfy`) holds the pure part: property names
  and types, the default-value lookup through the mixin's fields, and the four
  statement builders as string functions. It also holds the lemmas about them:
  - the default-value precedence;
  - the null check in the to-target-type statement;
  - the trailing comma on every field but the last;
  - exactly n - 1 separating commas over n fields;
  - each line assigning its own field, in field order;
  - a statement fixed by the field name (and, in the to-target-type body,
    its nullability), and different for different names.
- `DtoMembersStrategy` (`dto_members_strategy.dfy`) holds the stateful part.
  `SimpleDtoMembersStrategy` is a class whose fields are the builders the
  source appends to:
  - the constructor's parameter list, as a `seq<Parameter>`;
  - each function body, as a `seq<string>` of lines.

  `TypeSpecBuilder` holds the DTO's properties. `ProcessFields`,
  `ProcessDtoOnlyFields`, `AddProperty` and `Finalize` change them step by
  step, and each states its whole new state:
  - `ProcessFields` in terms of `FieldLines` (defined in `DtoStatements`)
    and of `Parameters` and `Properties` (defined in `DtoMembersStrategy`);
  - `ProcessDtoOnlyFields` in terms of `Parameters` and `Properties`;
  - `AddProperty` in terms of `ParameterFor` and `PropertyFor`;
  - `Finalize` by the literal closing lines it appends.

Some inputs come from the annotated element and the name and type
strategies:

- whether the target is a non-data class;
- whether `toTargetType` is skipped;
- the mixin's fields;
- the rendered target type, DTO target type and DTO simple name.

All of these are values of an `ElementInfo` record. A source field
(`VariableElement`) is a `Field` record with these parts:

- its simple name;
- its Kotlin type name and that type's nullability;
- whether the element is declared nullable;
- its `@DefaultValue`, if any.

## Model

| member | source | states |
|---|---|---|
| `DtoStatements.PropertyTypeName` | kotlin-utils-kapt/src/main/kotlin/com/github/manosbatsis/kotlin/utils/kapt/dto/strategy/composition/SimpleDtoMembersStrategy.kt:77-78 | The property type is always nullable and keeps the field's type text. A type that is already nullable is returned unchanged. |
| `DtoStatements.FindNamed` | kotlin-utils-kapt/src/main/kotlin/com/github/manosbatsis/kotlin/utils/kapt/dto/strategy/composition/SimpleDtoMembersStrategy.kt:81-83 | The mixin lookup finds nothing exactly when no mixin field has the name. Otherwise it returns the first mixin field with that name. |
| `DtoStatements.DefaultValuePrecedence` | kotlin-utils-kapt/src/main/kotlin/com/github/manosbatsis/kotlin/utils/kapt/dto/strategy/composition/SimpleDtoMembersStrategy.kt:80-91 | About `DefaultValueExpression`, which models `toDefaultValueExpression` with `DefaultValueAnnotationValue` as `findDefaultValueAnnotationValue`. The default-value expression is the `@DefaultValue` of the first same-named mixin field if it has one. Failing that, it is the field's own `@DefaultValue`. Failing both, it is the literal `null`. |
| `DtoStatements.StatementSplit` | kotlin-utils-kapt/src/main/kotlin/com/github/manosbatsis/kotlin/utils/kapt/dto/strategy/composition/SimpleDtoMembersStrategy.kt:93-117 | About the four builders `TargetTypeStatement`, `PatchStatement`, `AltConstructorStatement` and `CreatorStatement`, each an `Assignment` of `TargetTypeValue`, `PatchValue` or `OriginalValue`. Every statement is comma-free text followed by the separator. That text ends in `)` for a null-checked to-target-type statement and otherwise in the last character of the field's name. |
| `DtoStatements.TargetTypeNullCheck` | kotlin-utils-kapt/src/main/kotlin/com/github/manosbatsis/kotlin/utils/kapt/dto/strategy/composition/SimpleDtoMembersStrategy.kt:93-96 | About `TargetTypeStatement`, for every field name. The to-target-type statement ends with `?:errNull("p")` followed by the separator if and only if the field is not nullable. |
| `DtoStatements.AssignedNameRoundTrip` | kotlin-utils-kapt/src/main/kotlin/com/github/manosbatsis/kotlin/utils/kapt/dto/strategy/composition/SimpleDtoMembersStrategy.kt:93-117 | About the four statement builders, which all assign `PropertyName` (the field's simple name, as `toPropertyName` at lines 74-75). Reading the assigned property back from any of the four statements gives the field's own name. |
| `DtoStatements.DistinctNamesDistinctStatements` | kotlin-utils-kapt/src/main/kotlin/com/github/manosbatsis/kotlin/utils/kapt/dto/strategy/composition/SimpleDtoMembersStrategy.kt:93-117 | Two fields with different names never produce the same statement in a body. |
| `DtoStatements.SameNameSameStatements` | kotlin-utils-kapt/src/main/kotlin/com/github/manosbatsis/kotlin/utils/kapt/dto/strategy/composition/SimpleDtoMembersStrategy.kt:93-117 | Two fields with the same name produce the same statement in a body. In the to-target-type body they must also agree on nullability. |
| `DtoStatements.TrailingCommas` | kotlin-utils-kapt/src/main/kotlin/com/github/manosbatsis/kotlin/utils/kapt/dto/strategy/composition/SimpleDtoMembersStrategy.kt:134-135 | `CommaOrEmpty` models the separator rule at line 135. A field's line ends in a comma if and only if another field follows it. |
| `DtoStatements.FieldOrder` | kotlin-utils-kapt/src/main/kotlin/com/github/manosbatsis/kotlin/utils/kapt/dto/strategy/composition/SimpleDtoMembersStrategy.kt:134-167 | There is one line per field. Line i assigns the property of field i. |
| `DtoStatements.SeparatingCommas` | kotlin-utils-kapt/src/main/kotlin/com/github/manosbatsis/kotlin/utils/kapt/dto/strategy/composition/SimpleDtoMembersStrategy.kt:130-171 | Over n fields, the lines a body receives hold exactly n - 1 commas in total, and none when n = 0. |
| `DtoMembersStrategy.SimpleDtoMembersStrategy.constructor` | kotlin-utils-kapt/src/main/kotlin/com/github/manosbatsis/kotlin/utils/kapt/dto/strategy/composition/SimpleDtoMembersStrategy.kt:21-49 | The opening lines are `PatchHeader`, `TargetTypeHeader` and `CreatorHeader`. The buffers start as follows. The constructor parameter list is empty. The alternate-constructor body is one empty line. The patch body starts with `val patched = T(` for a non-data class and `val patched = original.copy(` otherwise. The to-target-type body is the TODO line when skipped and `   return T(` otherwise. The creator body is `return <DtoName>(`. |
| `DtoMembersStrategy.SimpleDtoMembersStrategy.AddProperty` | kotlin-utils-kapt/src/main/kotlin/com/github/manosbatsis/kotlin/utils/kapt/dto/strategy/composition/SimpleDtoMembersStrategy.kt:173-190 | The appended entries are `ParameterFor` and `PropertyFor`. `PropertyFor` folds in `toPropertySpecBuilder` (lines 202-207). Returns the field's simple name and the nullable copy of its type. Appends exactly one constructor parameter, which carries the computed default. Appends exactly one mutable public property initialised from that parameter. Nothing else changes. |
| `DtoMembersStrategy.SimpleDtoMembersStrategy.ProcessDtoOnlyFields` | kotlin-utils-kapt/src/main/kotlin/com/github/manosbatsis/kotlin/utils/kapt/dto/strategy/composition/SimpleDtoMembersStrategy.kt:119-128 | Appends one parameter and one property per field, in order. Every function body is left unchanged. |
| `DtoMembersStrategy.SimpleDtoMembersStrategy.ProcessField` | kotlin-utils-kapt/src/main/kotlin/com/github/manosbatsis/kotlin/utils/kapt/dto/strategy/composition/SimpleDtoMembersStrategy.kt:134-170 | Handles one field. Appends its parameter and property. Appends exactly one statement to each of the patch, alternate-constructor and creator bodies. Appends one to the to-target-type body only when it is not skipped. Keeps the body invariant. |
| `DtoMembersStrategy.SimpleDtoMembersStrategy.ProcessFields` | kotlin-utils-kapt/src/main/kotlin/com/github/manosbatsis/kotlin/utils/kapt/dto/strategy/composition/SimpleDtoMembersStrategy.kt:130-171 | Over n fields, each body gains exactly the field lines `FieldLines` for that body, in field order, with a comma on all but the last. A skipped to-target-type body is left unchanged. Parameters and properties gain one entry per field. |
| `DtoMembersStrategy.SimpleDtoMembersStrategy.Finalize` | kotlin-utils-kapt/src/main/kotlin/com/github/manosbatsis/kotlin/utils/kapt/dto/strategy/composition/SimpleDtoMembersStrategy.kt:242-257 | Appends `)` to the creator body. Appends `)` and then `return patched` to the patch body. Appends `   )` to the to-target-type body only when it is not skipped. The alternate-constructor body and the parameters do not change. |

The class keeps an invariant, `Valid`, which every method preserves. Each
body starts with its opening line. A skipped to-target-type body stays the
single `TODO("Not yet implemented")` line however many fields are processed.

Most lemmas about statement text assume plain field names: non-empty, with
no comma, space, parenthesis or double quote. Every Java field name and every
Kotlin identifier written without backticks meets this, Unicode letters and
`$` included. `TargetTypeNullCheck` needs no assumption about the name.

## Left out

- KotlinPoet itself is not modelled:
  - `TypeSpec`, `FunSpec`, `ParameterSpec` and `PropertySpec` builders;
  - `%T` substitution and import handling;
  - `CodeBlock` statement wrapping;
  - `callThisConstructor`;
  - the final `.build().toString()`.

  A builder is a sequence of lines or records, and a `%T` argument is the
  type name's text as given.
- `javax.lang.model` introspection (`asKotlinTypeName`, `isNullable`,
  `findAnnotationValue`) is not modelled. Its results are fields of `Field`
  and `ElementInfo`.
- `addPropertyAnnotations` / `copyAnnotationsByBasePackage` is not modelled:
  it copies annotations by package through that introspection API. A
  `Property` therefore carries no annotations.
- KDoc text, modifiers and the wiring of functions into the type are not
  modelled:
  - `getCreatorFunctionBuilder`, `getCompanionBuilder`,
    `getAltConstructorBuilder`, `getToPatchedFunctionBuilder` and
    `getToTargetTypeFunctionBuilder`;
  - the tail of `finalize` (building the alternate constructor, calling
    `addAltConstructor`, setting the primary constructor, adding the
    functions and the companion object).

  All of this is emission plumbing with no behaviour to state. `Finalize`
  therefore takes no type builder, and the finished bodies stay in the
  strategy's fields.
- `fieldProcessed` is an empty hook for subclasses and is not modelled.
  `toPropertySpecBuilder` is folded into `PropertyFor`: a mutable, public
  property whose initializer is the parameter's name.
- Kotlin `lazy` initialisation and `processingEnvironment` are not modelled.
  The buffers are created in the constructor from the same inputs.
- The unused `fieldIndex`, `variableElement` and `propertyType` arguments of
  the statement builders are dropped.
- StatementSplit, TrailingCommas, AssignedNameRoundTrip,
  DistinctNamesDistinctStatements, FieldOrder and SeparatingCommas are not
  proved for backticked Kotlin names that contain a space, comma, parenthesis
  or double quote. Such names break the text shape these lemmas rely on.
- `DtoInputContextAware.kt` declares one property and has no logic.
