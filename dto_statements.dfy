/** The per-field logic of the simple DTO members strategy: the name, type and
    default value of each DTO property, and the one-line statements the
    generator emits for a field into the patch function, the to-target-type
    function, the alternate constructor and the `mapToDto` creator. Generated
    code is text: a statement is a `string`, a function body a `seq<string>`
    of lines. */
module DtoStatements {

  datatype Option<T> = None | Some(value: T)

  /** A Kotlin type name as it is rendered, and whether it carries `?`. */
  datatype TypeName = TypeName(text: string, nullable: bool)

  /** A field of the annotated type (or of its mixin): its simple name, its
      Kotlin type, whether the element is declared nullable, and the value of
      its `@DefaultValue` annotation if it has one. */
  datatype Field = Field(name: string, typeName: TypeName, nullable: bool, defaultValue: Option<string>)

  /** What the strategy reads from the annotated element and from its name and
      type strategies: the kind of the target class, whether the
      to-target-type function is skipped, the mixin's fields, the rendered
      target type, the rendered DTO target type and the DTO's simple name. */
  datatype ElementInfo = ElementInfo(
    isNonDataClass: bool,
    skipToTargetTypeFunction: bool,
    mixinFields: seq<Field>,
    targetTypeName: string,
    dtoTargetTypeName: string,
    dtoSimpleName: string)

  /** A primary-constructor parameter of the DTO, with its default-value expression. */
  datatype Parameter = Parameter(name: string, typeName: TypeName, defaultValue: string)

  /** A property of the DTO type: mutable, public, initialised from the
      constructor parameter of the same name. */
  datatype Property = Property(name: string, typeName: TypeName, mutable: bool, isPublic: bool, initializer: string)

  /** The four function bodies a field contributes a statement to. */
  datatype Body = Patch | TargetType | AltConstructor | Creator

  // ---------------------------------------------------------------------
  // Names, types and default values

  function PropertyName(f: Field): string
  {
    f.name
  }

  /** The nullable copy of the field's type. */
  function PropertyTypeName(f: Field): (r: TypeName)
    ensures r.nullable && r.text == f.typeName.text
    ensures f.typeName.nullable ==> r == f.typeName
  {
    f.typeName.(nullable := true)
  }

  /** `j` is the position of the first field called `name`. */
  predicate FirstNamed(fields: seq<Field>, name: string, j: int)
  {
    0 <= j < |fields| && fields[j].name == name &&
    forall k :: 0 <= k < j ==> fields[k].name != name
  }

  /** Kotlin's `find { it.simpleName == name }`: the first field called `name`. */
  function FindNamed(fields: seq<Field>, name: string): (r: Option<Field>)
    ensures r.None? <==> forall j :: 0 <= j < |fields| ==> fields[j].name != name
    ensures r.Some? ==> exists j :: FirstNamed(fields, name, j) && fields[j] == r.value
  {
    if fields == [] then None
    else if fields[0].name == name then
      assert FirstNamed(fields, name, 0);
      Some(fields[0])
    else
      var r := FindNamed(fields[1..], name);
      if r.Some? then
        var j :| FirstNamed(fields[1..], name, j) && fields[1..][j] == r.value;
        assert FirstNamed(fields, name, j + 1);
        r
      else
        r
  }

  /** Kotlin's `listOfNotNull`. */
  function ListOfNotNull<T>(xs: seq<Option<T>>): seq<T>
  {
    if xs == [] then []
    else if xs[0].Some? then [xs[0].value] + ListOfNotNull(xs[1..])
    else ListOfNotNull(xs[1..])
  }

  /** Kotlin's `mapNotNull`. */
  function MapNotNull<T, U>(xs: seq<T>, f: T -> Option<U>): seq<U>
  {
    if xs == [] then []
    else if f(xs[0]).Some? then [f(xs[0]).value] + MapNotNull(xs[1..], f)
    else MapNotNull(xs[1..], f)
  }

  /** Kotlin's `firstOrNull`. */
  function FirstOrNull<T>(xs: seq<T>): Option<T>
  {
    if xs == [] then None else Some(xs[0])
  }

  /** The `value` of the field's `@DefaultValue` annotation, if present. */
  function DefaultValueAnnotationValue(f: Field): Option<string>
  {
    f.defaultValue
  }

  /** The default-value expression of the constructor parameter for `f`:
      the first annotation value found on the same-named mixin field, then on
      `f` itself, else the literal `null`. */
  function DefaultValueExpression(mixinFields: seq<Field>, f: Field): string
  {
    var candidates := ListOfNotNull([FindNamed(mixinFields, f.name), Some(f)]);
    match FirstOrNull(MapNotNull(candidates, DefaultValueAnnotationValue))
    case Some(v) => v
    case None => "null"
  }

  /** The default-value precedence: the first same-named mixin field's
      annotation, then the field's own, then `null`. */
  lemma DefaultValuePrecedence(mixinFields: seq<Field>, f: Field)
    ensures forall j :: FirstNamed(mixinFields, f.name, j) && mixinFields[j].defaultValue.Some? ==>
      DefaultValueExpression(mixinFields, f) == mixinFields[j].defaultValue.value
    ensures (forall j :: FirstNamed(mixinFields, f.name, j) ==> mixinFields[j].defaultValue.None?) ==>
      DefaultValueExpression(mixinFields, f) == if f.defaultValue.Some? then f.defaultValue.value else "null"
  {
    var found := FindNamed(mixinFields, f.name);
    if found.Some? {
      var j :| FirstNamed(mixinFields, f.name, j) && mixinFields[j] == found.value;
      forall j' | FirstNamed(mixinFields, f.name, j') ensures j' == j {
        FirstNamedUnique(mixinFields, f.name, j, j');
      }
      assert [found, Some(f)][1..] == [Some(f)];
      assert [Some(f)][1..] == [];
      assert ListOfNotNull([Some(f)]) == [f];
      assert ListOfNotNull([found, Some(f)]) == [found.value, f];
      assert [found.value, f][1..] == [f];
      assert [f][1..] == [];
      assert MapNotNull([f], DefaultValueAnnotationValue) == if f.defaultValue.Some? then [f.defaultValue.value] else [];
      if found.value.defaultValue.None? {
        assert MapNotNull([found.value, f], DefaultValueAnnotationValue) == MapNotNull([f], DefaultValueAnnotationValue);
      } else {
        assert FirstNamed(mixinFields, f.name, j) && mixinFields[j].defaultValue.Some?;
      }
    } else {
      assert [found, Some(f)][1..] == [Some(f)];
      assert [Some(f)][1..] == [];
      assert ListOfNotNull([Some(f)]) == [f];
      assert ListOfNotNull([found, Some(f)]) == [f];
      assert [f][1..] == [];
      assert MapNotNull([f], DefaultValueAnnotationValue) == if f.defaultValue.Some? then [f.defaultValue.value] else [];
    }
  }

  lemma FirstNamedUnique(fields: seq<Field>, name: string, i: int, j: int)
    requires FirstNamed(fields, name, i) && FirstNamed(fields, name, j)
    ensures i == j
  {
  }

  // ---------------------------------------------------------------------
  // Statements

  const Indent := "      "

  /** The separator after a field's statement: a comma on all but the last field. */
  function CommaOrEmpty(fieldIndex: nat, size: nat): string
  {
    if fieldIndex + 1 < size then "," else ""
  }

  /** The null check appended to a non-nullable field in the to-target-type function. */
  function ErrNull(propertyName: string): string
  {
    "?:errNull(\"" + propertyName + "\")"
  }

  /** The shape of every per-field statement: the indented assignment of
      `value` to the property, then the separator. */
  function Assignment(propertyName: string, value: string, commaOrEmpty: string): string
  {
    Indent + propertyName + " = " + value + commaOrEmpty
  }

  /** The value the to-target-type function passes for `f`: the DTO's
      property, null-checked unless the field is nullable. */
  function TargetTypeValue(f: Field): string
  {
    var p := PropertyName(f);
    "this." + p + (if f.nullable then "" else ErrNull(p))
  }

  /** The value the patch function passes for `f`: the DTO's property, or the original's when null. */
  function PatchValue(f: Field): string
  {
    var p := PropertyName(f);
    "this." + p + " ?: original." + p
  }

  /** The value the alternate constructor and the creator pass: the original's property. */
  function OriginalValue(propertyName: string): string
  {
    "original." + propertyName
  }

  function TargetTypeStatement(f: Field, commaOrEmpty: string): string
  {
    Assignment(PropertyName(f), TargetTypeValue(f), commaOrEmpty)
  }

  function PatchStatement(f: Field, commaOrEmpty: string): string
  {
    Assignment(PropertyName(f), PatchValue(f), commaOrEmpty)
  }

  function AltConstructorStatement(propertyName: string, commaOrEmpty: string): string
  {
    Assignment(propertyName, OriginalValue(propertyName), commaOrEmpty)
  }

  function CreatorStatement(propertyName: string, commaOrEmpty: string): string
  {
    Assignment(propertyName, OriginalValue(propertyName), commaOrEmpty)
  }

  /** The statement field `f` contributes to body `b`. */
  function Statement(b: Body, f: Field, commaOrEmpty: string): string
  {
    match b
    case Patch => PatchStatement(f, commaOrEmpty)
    case TargetType => TargetTypeStatement(f, commaOrEmpty)
    case AltConstructor => AltConstructorStatement(PropertyName(f), commaOrEmpty)
    case Creator => CreatorStatement(PropertyName(f), commaOrEmpty)
  }

  /** The lines a list of fields contributes to body `b`, in field order. */
  function FieldLines(b: Body, fields: seq<Field>): seq<string>
  {
    seq(|fields|, i requires 0 <= i < |fields| => Statement(b, fields[i], CommaOrEmpty(i, |fields|)))
  }

  // ---------------------------------------------------------------------
  // Properties of the statements

  /** A character other than the separators and delimiters the statements
      are built from: comma, space, parentheses and double quote. */
  predicate IsNameChar(ch: char)
  {
    ch != ',' && ch != ' ' && ch != '(' && ch != ')' && ch != '"'
  }

  /** A non-empty field name made of name characters. Every Java field name
      and every Kotlin identifier written without backticks is one, Unicode
      letters and `$` included. */
  predicate IsPlainName(p: string)
  {
    |p| > 0 && forall ch :: ch in p ==> IsNameChar(ch)
  }

  predicate EndsWith(s: string, suffix: string)
  {
    |suffix| <= |s| && s[|s| - |suffix|..] == suffix
  }

  /** The value a statement assigns, for field `f` in body `b`. */
  function AssignedValue(b: Body, f: Field): string
  {
    match b
    case Patch => PatchValue(f)
    case TargetType => TargetTypeValue(f)
    case AltConstructor => OriginalValue(PropertyName(f))
    case Creator => OriginalValue(PropertyName(f))
  }

  /** The statement text before the separator: it holds no comma, and it ends
      in `)` exactly when it is a null-checked to-target-type statement. */
  lemma StatementSplit(b: Body, f: Field, c: string) returns (text: string)
    requires IsPlainName(f.name)
    ensures Statement(b, f, c) == text + c
    ensures |text| > 0 && IsNameChar(text[|text| - 1]) <==> b != TargetType || f.nullable
    ensures b == TargetType && !f.nullable ==> text[|text| - 1] == ')'
    ensures b != TargetType || f.nullable ==> text[|text| - 1] == f.name[|f.name| - 1]
    ensures ',' !in text
  {
    var p := f.name;
    assert IsNameChar(p[|p| - 1]) by { assert p[|p| - 1] in p; }
    assert ',' !in p;
    var v := AssignedValue(b, f);
    assert Statement(b, f, c) == Assignment(p, v, c);
    text := Indent + p + " = " + v;
    assert ',' !in v by {
      if b == TargetType && !f.nullable {
        assert ',' !in ErrNull(p);
      }
    }
    assert text[|text| - 1] == v[|v| - 1];
  }

  /** Every statement but the last ends in a comma; the last does not. */
  lemma TrailingCommas(b: Body, fields: seq<Field>, i: int)
    requires 0 <= i < |fields| && IsPlainName(fields[i].name)
    ensures EndsWith(FieldLines(b, fields)[i], ",") <==> i + 1 < |fields|
  {
    var c := CommaOrEmpty(i, |fields|);
    var text := StatementSplit(b, fields[i], c);
    var s := FieldLines(b, fields)[i];
    assert s == text + c;
    if c == "" {
      assert s[|s| - 1] != ',';
    }
  }

  /** For a non-nullable field, and only then, the to-target-type statement
      guards the value with `errNull` naming the property. */
  lemma TargetTypeNullCheck(f: Field, c: string)
    ensures EndsWith(TargetTypeStatement(f, c), ErrNull(f.name) + c) <==> !f.nullable
  {
    var p := f.name;
    var s := TargetTypeStatement(f, c);
    var e := ErrNull(p) + c;
    if f.nullable && |e| <= |s| {
      // The suffix would start right after the property name, where the
      // statement has the space of ` = ` and the null check has its `N`.
      assert |s| - |e| == |p| + 1;
      assert s[|p| + 6] == ' ';
      assert e[5] == 'N';
      assert s[|s| - |e|..][5] == s[|p| + 6];
    }
  }

  /** The text of `s` up to its first space. */
  function FirstWord(s: string): string
  {
    if s == [] || s[0] == ' ' then [] else [s[0]] + FirstWord(s[1..])
  }

  /** The property a generated statement assigns: its first word after the indent. */
  function AssignedName(s: string): string
  {
    if |s| < |Indent| then "" else FirstWord(s[|Indent|..])
  }

  lemma {:induction false} FirstWordBeforeSpace(p: string, s: string)
    requires ' ' !in p && |p| < |s| && s[..|p|] == p && s[|p|] == ' '
    ensures FirstWord(s) == p
  {
    if p != [] {
      assert s[1..][..|p| - 1] == p[1..];
      FirstWordBeforeSpace(p[1..], s[1..]);
    }
  }

  /** Each statement assigns exactly the field's own property. */
  lemma AssignedNameRoundTrip(b: Body, f: Field, c: string)
    requires IsPlainName(f.name)
    ensures AssignedName(Statement(b, f, c)) == f.name
  {
    assert ' ' !in f.name;
    assert Statement(b, f, c) == Assignment(f.name, AssignedValue(b, f), c);
    AssignmentName(f.name, AssignedValue(b, f), c);
  }

  /** Fields with different names never produce the same statement. */
  lemma DistinctNamesDistinctStatements(b: Body, f: Field, g: Field, c: string, d: string)
    requires IsPlainName(f.name) && IsPlainName(g.name) && f.name != g.name
    ensures Statement(b, f, c) != Statement(b, g, d)
  {
    AssignedNameRoundTrip(b, f, c);
    AssignedNameRoundTrip(b, g, d);
  }

  /** A statement depends on nothing but the field's name, and in the
      to-target-type body also on whether the field is nullable. */
  lemma SameNameSameStatements(b: Body, f: Field, g: Field, c: string)
    requires f.name == g.name && (b == TargetType ==> f.nullable == g.nullable)
    ensures Statement(b, f, c) == Statement(b, g, c)
  {
  }

  lemma AssignmentName(p: string, v: string, c: string)
    requires ' ' !in p
    ensures AssignedName(Assignment(p, v, c)) == p
  {
    var s := Assignment(p, v, c);
    assert s[|Indent| + |p|] == ' ';
    assert s[|Indent|..][..|p|] == p;
    FirstWordBeforeSpace(p, s[|Indent|..]);
  }

  /** The lines of a body joined into one text. */
  function Concat(lines: seq<string>): string
  {
    if lines == [] then "" else Concat(lines[..|lines| - 1]) + lines[|lines| - 1]
  }

  lemma ConcatStep(lines: seq<string>, k: nat)
    requires k < |lines|
    ensures Concat(lines[..k + 1]) == Concat(lines[..k]) + lines[k]
  {
    assert lines[..k + 1][..k] == lines[..k];
  }

  /** The number of occurrences of `c` in `s`. */
  function Occurrences(c: char, s: string): nat
  {
    if s == [] then 0 else Occurrences(c, s[..|s| - 1]) + (if s[|s| - 1] == c then 1 else 0)
  }

  lemma {:induction false} OccurrencesAppend(c: char, s: string, t: string)
    ensures Occurrences(c, s + t) == Occurrences(c, s) + Occurrences(c, t)
  {
    if t != [] {
      assert (s + t)[..|s + t| - 1] == s + t[..|t| - 1];
      assert (s + t)[|s + t| - 1] == t[|t| - 1];
      OccurrencesAppend(c, s, t[..|t| - 1]);
      assert Occurrences(c, s + t) == Occurrences(c, s + t[..|t| - 1]) + (if t[|t| - 1] == c then 1 else 0);
      assert Occurrences(c, t) == Occurrences(c, t[..|t| - 1]) + (if t[|t| - 1] == c then 1 else 0);
    } else {
      assert s + t == s;
    }
  }

  lemma {:induction false} OccurrencesAbsent(c: char, s: string)
    requires c !in s
    ensures Occurrences(c, s) == 0
  {
    if s != [] {
      OccurrencesAbsent(c, s[..|s| - 1]);
    }
  }

  /** A field's line holds one comma if another field follows it, and none otherwise. */
  lemma LineCommas(b: Body, fields: seq<Field>, k: nat)
    requires k < |fields| && IsPlainName(fields[k].name)
    ensures Occurrences(',', FieldLines(b, fields)[k]) == if k + 1 < |fields| then 1 else 0
  {
    var c := CommaOrEmpty(k, |fields|);
    var text := StatementSplit(b, fields[k], c);
    OccurrencesAppend(',', text, c);
    OccurrencesAbsent(',', text);
    assert Occurrences(',', c) == if k + 1 < |fields| then 1 else 0;
  }

  /** The lines follow the fields in order, one per field, each assigning its own field's property. */
  lemma FieldOrder(b: Body, fields: seq<Field>)
    requires forall f :: f in fields ==> IsPlainName(f.name)
    ensures |FieldLines(b, fields)| == |fields|
    ensures forall i :: 0 <= i < |fields| ==> AssignedName(FieldLines(b, fields)[i]) == fields[i].name
  {
    forall i | 0 <= i < |fields|
      ensures AssignedName(FieldLines(b, fields)[i]) == fields[i].name
    {
      assert fields[i] in fields;
      AssignedNameRoundTrip(b, fields[i], CommaOrEmpty(i, |fields|));
    }
  }

  /** Over n fields of plain names, the statements of a body hold exactly
      n - 1 separating commas. */
  lemma SeparatingCommas(b: Body, fields: seq<Field>)
    requires forall f :: f in fields ==> IsPlainName(f.name)
    ensures Occurrences(',', Concat(FieldLines(b, fields))) == if fields == [] then 0 else |fields| - 1
  {
    var lines := FieldLines(b, fields);
    var n := |fields|;
    var k := 0;
    while k < n
      invariant 0 <= k <= n
      invariant Occurrences(',', Concat(lines[..k])) == if k == n && n > 0 then k - 1 else k
    {
      assert fields[k] in fields;
      LineCommas(b, fields, k);
      ConcatStep(lines, k);
      OccurrencesAppend(',', Concat(lines[..k]), lines[k]);
      k := k + 1;
    }
    assert lines[..n] == lines;
  }
}
