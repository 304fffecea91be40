/** The simple DTO members strategy as an object: it keeps the DTO's
    primary-constructor parameters and the bodies of the patch function, the
    to-target-type function, the alternate constructor and the `mapToDto`
    creator as line buffers, and appends to them field by field. */
module DtoMembersStrategy {

  import opened DtoStatements

  /** The type being built: the properties added to it so far. */
  class TypeSpecBuilder {
    var properties: seq<Property>

    constructor ()
      ensures properties == []
    {
      properties := [];
    }
  }

  /** The first line of the patch function body. */
  function PatchHeader(info: ElementInfo): string
  {
    if info.isNonDataClass then "val patched = " + info.targetTypeName + "("
    else "val patched = original.copy("
  }

  /** The first line of the to-target-type function body. */
  function TargetTypeHeader(info: ElementInfo): string
  {
    if info.skipToTargetTypeFunction then "TODO(\"Not yet implemented\")"
    else "   return " + info.dtoTargetTypeName + "("
  }

  /** The first line of the creator function body. */
  function CreatorHeader(info: ElementInfo): string
  {
    "return " + info.dtoSimpleName + "("
  }

  /** The constructor parameter added for `f`. */
  function ParameterFor(mixinFields: seq<Field>, f: Field): Parameter
  {
    Parameter(PropertyName(f), PropertyTypeName(f), DefaultValueExpression(mixinFields, f))
  }

  /** The property added for `f`. */
  function PropertyFor(f: Field): Property
  {
    Property(PropertyName(f), PropertyTypeName(f), true, true, PropertyName(f))
  }

  function Parameters(mixinFields: seq<Field>, fields: seq<Field>): seq<Parameter>
  {
    seq(|fields|, i requires 0 <= i < |fields| => ParameterFor(mixinFields, fields[i]))
  }

  function Properties(fields: seq<Field>): seq<Property>
  {
    seq(|fields|, i requires 0 <= i < |fields| => PropertyFor(fields[i]))
  }

  /** Extending a prefix of a body's field lines by one field adds that field's statement. */
  lemma LinesStep(b: Body, fields: seq<Field>, k: nat)
    requires k < |fields|
    ensures FieldLines(b, fields)[..k + 1] == FieldLines(b, fields)[..k] + [FieldLines(b, fields)[k]]
  {
  }

  /** Extending a prefix of the parameters or properties by one field adds that field's own. */
  lemma DeclarationsStep(mixinFields: seq<Field>, fields: seq<Field>, k: nat)
    requires k < |fields|
    ensures Parameters(mixinFields, fields)[..k + 1] ==
      Parameters(mixinFields, fields)[..k] + [ParameterFor(mixinFields, fields[k])]
    ensures Properties(fields)[..k + 1] == Properties(fields)[..k] + [PropertyFor(fields[k])]
  {
  }

  /** The prefix of every list over all the fields is the whole list. */
  lemma WholePrefix(mixinFields: seq<Field>, fields: seq<Field>)
    ensures Parameters(mixinFields, fields)[..|fields|] == Parameters(mixinFields, fields)
    ensures Properties(fields)[..|fields|] == Properties(fields)
    ensures FieldLines(Patch, fields)[..|fields|] == FieldLines(Patch, fields)
    ensures FieldLines(TargetType, fields)[..|fields|] == FieldLines(TargetType, fields)
    ensures FieldLines(AltConstructor, fields)[..|fields|] == FieldLines(AltConstructor, fields)
    ensures FieldLines(Creator, fields)[..|fields|] == FieldLines(Creator, fields)
  {
  }

  class SimpleDtoMembersStrategy {
    const info: ElementInfo
    var constructorParameters: seq<Parameter>
    var altConstructorCode: seq<string>
    var patchFunctionCode: seq<string>
    var targetTypeFunctionCode: seq<string>
    var creatorFunctionCode: seq<string>

    /** Every body starts with its opening line, and a skipped
        to-target-type body is its TODO line and nothing else. */
    ghost predicate Valid()
      reads this
    {
      |altConstructorCode| > 0 && altConstructorCode[0] == "" &&
      |patchFunctionCode| > 0 && patchFunctionCode[0] == PatchHeader(info) &&
      |creatorFunctionCode| > 0 && creatorFunctionCode[0] == CreatorHeader(info) &&
      |targetTypeFunctionCode| > 0 && targetTypeFunctionCode[0] == TargetTypeHeader(info) &&
      (info.skipToTargetTypeFunction ==> targetTypeFunctionCode == [TargetTypeHeader(info)])
    }

    constructor (info: ElementInfo)
      ensures Valid() && this.info == info
      ensures constructorParameters == []
      ensures altConstructorCode == [""]
      ensures patchFunctionCode == [PatchHeader(info)]
      ensures targetTypeFunctionCode == [TargetTypeHeader(info)]
      ensures creatorFunctionCode == [CreatorHeader(info)]
    {
      this.info := info;
      constructorParameters := [];
      altConstructorCode := [""];
      patchFunctionCode := [PatchHeader(info)];
      targetTypeFunctionCode := [TargetTypeHeader(info)];
      creatorFunctionCode := [CreatorHeader(info)];
    }

    /** Adds a constructor parameter and a property for `originalProperty`,
        and returns the property's name and type. */
    method AddProperty(originalProperty: Field, typeSpecBuilder: TypeSpecBuilder)
      returns (propertyName: string, propertyType: TypeName)
      modifies this`constructorParameters, typeSpecBuilder
      ensures propertyName == originalProperty.name
      ensures propertyType == PropertyTypeName(originalProperty)
      ensures constructorParameters == old(constructorParameters) + [ParameterFor(info.mixinFields, originalProperty)]
      ensures typeSpecBuilder.properties == old(typeSpecBuilder.properties) + [PropertyFor(originalProperty)]
    {
      propertyName := PropertyName(originalProperty);
      propertyType := PropertyTypeName(originalProperty);
      var propertyDefaultValue := DefaultValueExpression(info.mixinFields, originalProperty);
      constructorParameters := constructorParameters + [Parameter(propertyName, propertyType, propertyDefaultValue)];
      typeSpecBuilder.properties := typeSpecBuilder.properties + [Property(propertyName, propertyType, true, true, propertyName)];
    }

    /** Adds a constructor parameter and a property per field, and no
        statement to any function body. */
    method ProcessDtoOnlyFields(typeSpecBuilder: TypeSpecBuilder, fields: seq<Field>)
      requires Valid()
      modifies this`constructorParameters, typeSpecBuilder
      ensures Valid()
      ensures constructorParameters == old(constructorParameters) + Parameters(info.mixinFields, fields)
      ensures typeSpecBuilder.properties == old(typeSpecBuilder.properties) + Properties(fields)
    {
      var fieldIndex := 0;
      while fieldIndex < |fields|
        invariant 0 <= fieldIndex <= |fields|
        invariant constructorParameters == old(constructorParameters) + Parameters(info.mixinFields, fields)[..fieldIndex]
        invariant typeSpecBuilder.properties == old(typeSpecBuilder.properties) + Properties(fields)[..fieldIndex]
      {
        var _, _ := AddProperty(fields[fieldIndex], typeSpecBuilder);
        DeclarationsStep(info.mixinFields, fields, fieldIndex);
        fieldIndex := fieldIndex + 1;
      }
      WholePrefix(info.mixinFields, fields);
    }

    /** Adds a constructor parameter and a property per field, and one
        statement per field to the patch, alternate-constructor and creator
        bodies, and to the to-target-type body unless it is skipped. */
    method ProcessFields(typeSpecBuilder: TypeSpecBuilder, fields: seq<Field>)
      requires Valid()
      modifies this, typeSpecBuilder
      ensures Valid()
      ensures constructorParameters == old(constructorParameters) + Parameters(info.mixinFields, fields)
      ensures typeSpecBuilder.properties == old(typeSpecBuilder.properties) + Properties(fields)
      ensures patchFunctionCode == old(patchFunctionCode) + FieldLines(Patch, fields)
      ensures targetTypeFunctionCode ==
        if info.skipToTargetTypeFunction then old(targetTypeFunctionCode)
        else old(targetTypeFunctionCode) + FieldLines(TargetType, fields)
      ensures altConstructorCode == old(altConstructorCode) + FieldLines(AltConstructor, fields)
      ensures creatorFunctionCode == old(creatorFunctionCode) + FieldLines(Creator, fields)
    {
      var fieldIndex := 0;
      while fieldIndex < |fields|
        invariant 0 <= fieldIndex <= |fields|
        invariant Valid()
        invariant constructorParameters == old(constructorParameters) + Parameters(info.mixinFields, fields)[..fieldIndex]
        invariant typeSpecBuilder.properties == old(typeSpecBuilder.properties) + Properties(fields)[..fieldIndex]
        invariant patchFunctionCode == old(patchFunctionCode) + FieldLines(Patch, fields)[..fieldIndex]
        invariant info.skipToTargetTypeFunction ==> targetTypeFunctionCode == old(targetTypeFunctionCode)
        invariant !info.skipToTargetTypeFunction ==>
          targetTypeFunctionCode == old(targetTypeFunctionCode) + FieldLines(TargetType, fields)[..fieldIndex]
        invariant altConstructorCode == old(altConstructorCode) + FieldLines(AltConstructor, fields)[..fieldIndex]
        invariant creatorFunctionCode == old(creatorFunctionCode) + FieldLines(Creator, fields)[..fieldIndex]
      {
        var commaOrEmpty := CommaOrEmpty(fieldIndex, |fields|);
        ProcessField(typeSpecBuilder, fields[fieldIndex], commaOrEmpty);
        LinesStep(Patch, fields, fieldIndex);
        LinesStep(TargetType, fields, fieldIndex);
        LinesStep(AltConstructor, fields, fieldIndex);
        LinesStep(Creator, fields, fieldIndex);
        DeclarationsStep(info.mixinFields, fields, fieldIndex);
        fieldIndex := fieldIndex + 1;
      }
      WholePrefix(info.mixinFields, fields);
    }

    /** The work done for one field of the list: its parameter and property,
        and its statement in each body, closed by `commaOrEmpty`. */
    method ProcessField(typeSpecBuilder: TypeSpecBuilder, originalProperty: Field, commaOrEmpty: string)
      requires Valid()
      modifies this, typeSpecBuilder
      ensures Valid()
      ensures constructorParameters == old(constructorParameters) + [ParameterFor(info.mixinFields, originalProperty)]
      ensures typeSpecBuilder.properties == old(typeSpecBuilder.properties) + [PropertyFor(originalProperty)]
      ensures patchFunctionCode == old(patchFunctionCode) + [Statement(Patch, originalProperty, commaOrEmpty)]
      ensures targetTypeFunctionCode ==
        if info.skipToTargetTypeFunction then old(targetTypeFunctionCode)
        else old(targetTypeFunctionCode) + [Statement(TargetType, originalProperty, commaOrEmpty)]
      ensures altConstructorCode == old(altConstructorCode) + [Statement(AltConstructor, originalProperty, commaOrEmpty)]
      ensures creatorFunctionCode == old(creatorFunctionCode) + [Statement(Creator, originalProperty, commaOrEmpty)]
    {
      var propertyName, propertyType := AddProperty(originalProperty, typeSpecBuilder);
      patchFunctionCode := patchFunctionCode + [PatchStatement(originalProperty, commaOrEmpty)];
      if !info.skipToTargetTypeFunction {
        targetTypeFunctionCode := targetTypeFunctionCode + [TargetTypeStatement(originalProperty, commaOrEmpty)];
      }
      altConstructorCode := altConstructorCode + [AltConstructorStatement(propertyName, commaOrEmpty)];
      creatorFunctionCode := creatorFunctionCode + [CreatorStatement(propertyName, commaOrEmpty)];
    }

    /** Closes the creator, patch and (unless skipped) to-target-type bodies. */
    method Finalize()
      requires Valid()
      modifies this`patchFunctionCode, this`creatorFunctionCode, this`targetTypeFunctionCode
      ensures Valid()
      ensures creatorFunctionCode == old(creatorFunctionCode) + [")"]
      ensures patchFunctionCode == old(patchFunctionCode) + [")", "return patched"]
      ensures targetTypeFunctionCode ==
        if info.skipToTargetTypeFunction then old(targetTypeFunctionCode)
        else old(targetTypeFunctionCode) + ["   )"]
    {
      creatorFunctionCode := creatorFunctionCode + [")"];
      patchFunctionCode := patchFunctionCode + [")"];
      patchFunctionCode := patchFunctionCode + ["return patched"];
      if !info.skipToTargetTypeFunction {
        targetTypeFunctionCode := targetTypeFunctionCode + ["   )"];
      }
    }
  }
}
