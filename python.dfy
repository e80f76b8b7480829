/**
 * `generatePythonClasses`: an import header, then one `@dataclass` per
 * entity with its docstring and one annotated attribute per field, the
 * attribute's type chosen from the column's SQL type by substring tests.
 */
module Python {
  import opened Wrappers
  import opened Text
  import opened Schemas

  const Header := "from dataclasses import dataclass\nfrom typing import Optional, List\nfrom datetime import date, datetime\n\n"

  /** One row of the type table: a type containing any of `needles` maps to `target`. */
  datatype TypeRule = TypeRule(needles: seq<string>, target: string)

  /**
   * The precedence of the mapping, highest first. main.js writes the tests
   * as a chain of independent `if`s that each overwrite the result, so the
   * test written last has the highest precedence: the table lists them in
   * reverse source order.
   */
  const TypeRules: seq<TypeRule> := [
    TypeRule(["FLOAT", "DECIMAL"], "float"),
    TypeRule(["TIMESTAMP"], "datetime"),
    TypeRule(["DATE"], "date"),
    TypeRule(["BOOL"], "bool"),
    TypeRule(["INT"], "int")
  ]

  /** The type for a column that no rule matches. */
  const DefaultType := "str"

  predicate ContainsAny(t: string, needles: seq<string>)
  {
    |needles| > 0 && (Contains(t, needles[0]) || ContainsAny(t, needles[1..]))
  }

  /** The target of the first rule that matches `t`, else `str`. */
  function FirstMatch(rules: seq<TypeRule>, t: string): string
  {
    if rules == [] then DefaultType
    else if ContainsAny(t, rules[0].needles) then rules[0].target
    else FirstMatch(rules[1..], t)
  }

  /** The data-driven reading of the mapping: the table applied to `(type || '').toUpperCase()`. */
  function PyTypeSpec(sqlType: Option<string>): string
  {
    FirstMatch(TypeRules, Upper(Fallback(sqlType, "")))
  }

  /** The table unrolled: the rules are tried from the top. */
  lemma FirstMatchUnrolled(t: string)
    ensures FirstMatch(TypeRules, t) ==
      if Contains(t, "FLOAT") || Contains(t, "DECIMAL") then "float"
      else if Contains(t, "TIMESTAMP") then "datetime"
      else if Contains(t, "DATE") then "date"
      else if Contains(t, "BOOL") then "bool"
      else if Contains(t, "INT") then "int"
      else "str"
  {
    var r1 := TypeRules[1..];
    var r2 := r1[1..];
    var r3 := r2[1..];
    var r4 := r3[1..];
    assert r4[1..] == [];
    ContainsAnyOne(t, "DECIMAL");
    assert ContainsAny(t, ["FLOAT", "DECIMAL"]) == (Contains(t, "FLOAT") || Contains(t, "DECIMAL")) by {
      assert ["FLOAT", "DECIMAL"][1..] == ["DECIMAL"];
    }
    ContainsAnyOne(t, "TIMESTAMP");
    ContainsAnyOne(t, "DATE");
    ContainsAnyOne(t, "BOOL");
    ContainsAnyOne(t, "INT");
    assert FirstMatch(r4, t) == if Contains(t, "INT") then "int" else "str";
    assert FirstMatch(r3, t) == if Contains(t, "BOOL") then "bool" else FirstMatch(r4, t);
    assert FirstMatch(r2, t) == if Contains(t, "DATE") then "date" else FirstMatch(r3, t);
    assert FirstMatch(r1, t) == if Contains(t, "TIMESTAMP") then "datetime" else FirstMatch(r2, t);
  }

  lemma ContainsAnyOne(t: string, needle: string)
    ensures ContainsAny(t, [needle]) == Contains(t, needle)
  {
    assert [needle][1..] == [];
  }

  /** The chain of `if`s in main.js, each later match overwriting the earlier ones. */
  method PyType(sqlType: Option<string>) returns (pyType: string)
    ensures pyType == PyTypeSpec(sqlType)
    ensures pyType in {"float", "datetime", "date", "bool", "int", "str"}
  {
    pyType := "str";
    var t := Upper(Fallback(sqlType, ""));
    if Contains(t, "INT") { pyType := "int"; }
    if Contains(t, "BOOL") { pyType := "bool"; }
    if Contains(t, "DATE") { pyType := "date"; }
    if Contains(t, "TIMESTAMP") { pyType := "datetime"; }
    if Contains(t, "FLOAT") || Contains(t, "DECIMAL") { pyType := "float"; }
    FirstMatchUnrolled(t);
  }

  /**
   * Each bucket exactly characterised: FLOAT/DECIMAL beats TIMESTAMP, which
   * beats DATE, which beats BOOL, which beats INT; anything else is `str`.
   */
  lemma PyTypeBuckets(sqlType: Option<string>)
    ensures var t := Upper(Fallback(sqlType, ""));
      var isFloat := Contains(t, "FLOAT") || Contains(t, "DECIMAL");
      && (PyTypeSpec(sqlType) == "float" <==> isFloat)
      && (PyTypeSpec(sqlType) == "datetime" <==> !isFloat && Contains(t, "TIMESTAMP"))
      && (PyTypeSpec(sqlType) == "date" <==> !isFloat && !Contains(t, "TIMESTAMP") && Contains(t, "DATE"))
      && (PyTypeSpec(sqlType) == "bool" <==>
            !isFloat && !Contains(t, "TIMESTAMP") && !Contains(t, "DATE") && Contains(t, "BOOL"))
      && (PyTypeSpec(sqlType) == "int" <==>
            !isFloat && !Contains(t, "TIMESTAMP") && !Contains(t, "DATE") && !Contains(t, "BOOL") && Contains(t, "INT"))
      && (PyTypeSpec(sqlType) == "str" <==>
            !isFloat && !Contains(t, "TIMESTAMP") && !Contains(t, "DATE") && !Contains(t, "BOOL") && !Contains(t, "INT"))
  {
    FirstMatchUnrolled(Upper(Fallback(sqlType, "")));
  }

  /** The mapping does not depend on the case the type is written in. */
  lemma PyTypeIgnoresCase(s: string)
    ensures PyTypeSpec(Some(Lower(s))) == PyTypeSpec(Some(s))
    ensures PyTypeSpec(Some(Upper(s))) == PyTypeSpec(Some(s))
  {
    UpperIgnoresCase(s);
  }

  /** DECIMAL(10,2) is a float: the FLOAT/DECIMAL test has the last word. */
  lemma DecimalIsFloat(t: string)
    requires t == "DECIMAL(10,2)"
    ensures PyTypeSpec(Some(t)) == "float"
  {
    assert Upper(t) == t by { UpperOfUpperCase(t); }
    FirstMatchUnrolled(t);
    assert Contains(t, "DECIMAL") by { ContainedAt(t, "DECIMAL", 0); }
  }

  lemma DateTimeSubstrings(t: string)
    requires t == "DATETIME"
    ensures !Contains(t, "FLOAT") && !Contains(t, "DECIMAL") && !Contains(t, "TIMESTAMP")
    ensures Contains(t, "DATE")
  {
    NotContainedForMissingChar(t, "FLOAT", 0);
    NotContainedForMissingChar(t, "DECIMAL", 2);
    NotContainedForMissingChar(t, "TIMESTAMP", 4);
    ContainedAt(t, "DATE", 0);
  }

  /** A DATETIME column matches DATE but not TIMESTAMP, so it becomes `date`, not `datetime`. */
  lemma DateTimeIsDate(t: string)
    requires t == "DATETIME"
    ensures PyTypeSpec(Some(t)) == "date"
  {
    assert Upper(t) == t by { UpperOfUpperCase(t); }
    DateTimeSubstrings(t);
    FirstMatchUnrolled(t);
  }

  /** A missing type and the empty type both map to `str`. */
  lemma PyTypeOfMissing()
    ensures PyTypeSpec(None) == "str" && PyTypeSpec(Some("")) == "str"
  {
  }

  /** `    <name>: <type>` and its line break. */
  function FieldDecl(f: Field): string
  {
    "    " + f.name + ": " + PyTypeSpec(f.sqlType) + "\n"
  }

  /** The attribute lines of a class, one per field in order. */
  function FieldDecls(fs: seq<Field>): string
  {
    if fs == [] then "" else FieldDecl(fs[0]) + FieldDecls(fs[1..])
  }

  /** `entity.description || ('Model for ' + entity.name)`. */
  function Docstring(e: Entity): string
  {
    Fallback(e.description, "Model for " + e.name)
  }

  const DecoratorLine := "@dataclass"

  function ClassLine(e: Entity): string
  {
    "class " + e.name + ":"
  }

  function DocLine(e: Entity): string
  {
    "    \"\"\"" + Docstring(e) + "\"\"\""
  }

  /** The decorator, the class line and the docstring line. */
  function ClassHead(e: Entity): string
  {
    "@dataclass\nclass " + e.name + ":\n    \"\"\"" + Docstring(e) + "\"\"\"\n"
  }

  /** The whole class for one entity, followed by a blank line. */
  function ClassBlock(e: Entity): string
  {
    ClassHead(e) + FieldDecls(e.fields) + "\n"
  }

  function Classes(es: seq<Entity>): string
  {
    if es == [] then "" else ClassBlock(es[0]) + Classes(es[1..])
  }

  /** What `generatePythonClasses(schema)` returns. */
  function PythonText(schema: Option<Schema>): string
  {
    match schema
    case None => ""
    case Some(s) =>
      match s.entities
      case None => ""
      case Some(es) => Header + Classes(es)
  }

  /** `generatePythonClasses`: the header, then one class appended per entity. */
  method GeneratePython(schema: Option<Schema>) returns (code: string)
    ensures code == PythonText(schema)
  {
    if schema.None? || schema.value.entities.None? {
      return "";
    }
    code := Header;
    code := AppendClasses(code, schema.value.entities.value);
  }

  /** `schema.entities.forEach(...)`: head, attribute lines and a blank line per entity. */
  method AppendClasses(code0: string, es: seq<Entity>) returns (code: string)
    ensures code == code0 + Classes(es)
  {
    code := code0;
    var i := 0;
    while i < |es|
      invariant 0 <= i <= |es|
      invariant code == code0 + Classes(es[..i])
    {
      var entity := es[i];
      ghost var before := code;
      code := code + ClassHead(entity);
      code := AppendFieldDecls(code, entity.fields);
      code := code + "\n";
      assert code == code0 + Classes(es[..i + 1]) by {
        Assoc(before, ClassHead(entity), FieldDecls(entity.fields));
        Assoc(before, ClassHead(entity) + FieldDecls(entity.fields), "\n");
        ClassesAppend(es[..i], [entity]);
        ClassesOne(entity);
        PrefixSnoc(es, i);
        Assoc(code0, Classes(es[..i]), ClassBlock(entity));
      }
      i := i + 1;
    }
    assert es[..|es|] == es;
  }

  /** `(entity.fields || []).forEach(...)`: one attribute line appended per field. */
  method AppendFieldDecls(code0: string, fs: seq<Field>) returns (code: string)
    ensures code == code0 + FieldDecls(fs)
  {
    code := code0;
    var j := 0;
    while j < |fs|
      invariant 0 <= j <= |fs|
      invariant code == code0 + FieldDecls(fs[..j])
    {
      var f := fs[j];
      var pyType := PyType(f.sqlType);
      var line := "    " + f.name + ": " + pyType + "\n";
      ghost var before := code;
      code := code + line;
      assert code == code0 + FieldDecls(fs[..j + 1]) by {
        assert line == FieldDecl(f);
        FieldDeclsAppend(fs[..j], [f]);
        FieldDeclsOne(f);
        PrefixSnoc(fs, j);
        Assoc(code0, FieldDecls(fs[..j]), FieldDecl(f));
      }
      j := j + 1;
    }
    assert fs[..|fs|] == fs;
  }

  /** Classes are emitted in document order, one per entity. */
  lemma {:induction false} ClassesAppend(a: seq<Entity>, b: seq<Entity>)
    ensures Classes(a + b) == Classes(a) + Classes(b)
  {
    if a == [] {
      assert a + b == b;
    } else {
      assert (a + b)[1..] == a[1..] + b;
      ClassesAppend(a[1..], b);
    }
  }

  lemma ClassesOne(e: Entity)
    ensures Classes([e]) == ClassBlock(e)
  {
    assert [e][1..] == [];
  }

  /** Attribute lines are emitted in field order, one per field. */
  lemma {:induction false} FieldDeclsAppend(a: seq<Field>, b: seq<Field>)
    ensures FieldDecls(a + b) == FieldDecls(a) + FieldDecls(b)
  {
    if a == [] {
      assert a + b == b;
    } else {
      assert (a + b)[1..] == a[1..] + b;
      FieldDeclsAppend(a[1..], b);
    }
  }

  lemma FieldDeclsOne(f: Field)
    ensures FieldDecls([f]) == FieldDecl(f)
  {
    assert [f][1..] == [];
  }

  /** No document, or a document without an `entities` array, gives ""; otherwise the imports lead. */
  lemma PythonTextShape(schema: Option<Schema>)
    ensures PythonText(schema) == "" <==> schema.None? || schema.value.entities.None?
    ensures schema.Some? && schema.value.entities.Some? ==> StartsWith(PythonText(schema), Header)
  {
  }

  /** Every column maps to one of the six Python types. */
  lemma PyTypeIsKnown(sqlType: Option<string>)
    ensures PyTypeSpec(sqlType) in {"float", "datetime", "date", "bool", "int", "str"}
  {
    FirstMatchUnrolled(Upper(Fallback(sqlType, "")));
  }

  lemma FieldDeclCount(f: Field)
    requires '\n' !in f.name
    ensures CountChar(FieldDecl(f), '\n') == 1
  {
    PyTypeIsKnown(f.sqlType);
    var line := "    " + f.name + ": " + PyTypeSpec(f.sqlType);
    assert FieldDecl(f) == line + "\n";
    CountCharAfter(line, "\n", '\n');
  }

  lemma {:induction false} FieldDeclsCount(fs: seq<Field>)
    requires forall i :: 0 <= i < |fs| ==> '\n' !in fs[i].name
    ensures CountChar(FieldDecls(fs), '\n') == |fs|
  {
    if fs != [] {
      FieldDeclCount(fs[0]);
      FieldDeclsCount(fs[1..]);
      CountCharAppend(FieldDecl(fs[0]), FieldDecls(fs[1..]), '\n');
    }
  }

  /** The head is the decorator line, the class line and the docstring line. */
  lemma ClassHeadLines(e: Entity)
    ensures ClassHead(e) == DecoratorLine + ['\n'] + ClassLine(e) + ['\n'] + (DocLine(e) + ['\n'])
  {
  }

  /** Three pieces without line breaks, each ended by one, make three lines. */
  lemma ThreeLines(a: string, b: string, d: string)
    requires '\n' !in a && '\n' !in b && '\n' !in d
    ensures CountChar(a + ['\n'] + b + ['\n'] + (d + ['\n']), '\n') == 3
  {
    CountCharAbsent(a, '\n');
    CountCharAbsent(b, '\n');
    CountCharAbsent(d, '\n');
    CountCharAppend(d, ['\n'], '\n');
    CountCharAround(a, b, '\n');
    CountCharAround(a + ['\n'] + b, d + ['\n'], '\n');
  }

  lemma ClassHeadCount(e: Entity)
    requires '\n' !in e.name && '\n' !in Docstring(e)
    ensures CountChar(ClassHead(e), '\n') == 3
  {
    ClassHeadLines(e);
    assert '\n' !in ClassLine(e);
    assert '\n' !in DocLine(e);
    ThreeLines(DecoratorLine, ClassLine(e), DocLine(e));
  }

  /**
   * When no name or docstring holds a line break, an entity's class is
   * exactly its three head lines, one line per field and a blank line.
   */
  lemma ClassLineCount(e: Entity)
    requires '\n' !in e.name && '\n' !in Docstring(e)
    requires forall i :: 0 <= i < |e.fields| ==> '\n' !in e.fields[i].name
    ensures CountChar(ClassBlock(e), '\n') == |e.fields| + 4
  {
    ClassHeadCount(e);
    FieldDeclsCount(e.fields);
    CountCharAppend(ClassHead(e), FieldDecls(e.fields), '\n');
    CountCharAppend(ClassHead(e) + FieldDecls(e.fields), "\n", '\n');
  }

  /** The docstring is the description when there is a non-empty one, else `Model for <name>`. */
  lemma DocstringDefault(e: Entity)
    ensures e.description.None? || e.description == Some("") ==> Docstring(e) == "Model for " + e.name
    ensures e.description.Some? && e.description.value != "" ==> Docstring(e) == e.description.value
  {
  }
}
