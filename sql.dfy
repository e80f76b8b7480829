/**
 * `generateSQL`: a header, one CREATE TABLE statement per entity in
 * document order, then a commented pair of ALTER TABLE statements for every
 * One-to-Many or Many-to-One relationship, built by appending to one string.
 */
module Sql {
  import opened Wrappers
  import opened Text
  import opened Schemas

  const Header := "-- Generated SQL Schema\n-- System: AutoDB Architect\n\n"

  /** `  <name> <type>`, with ` PRIMARY KEY` on every field flagged `isPK`. */
  function FieldLine(f: Field): string
  {
    "  " + f.name + " " + Shown(f.sqlType) + (if f.isPK then " PRIMARY KEY" else "")
  }

  /** `fields.map(...)`: one column line per field, in order. */
  function FieldLines(fs: seq<Field>): (lines: seq<string>)
    ensures |lines| == |fs|
    ensures forall i :: 0 <= i < |fs| ==> lines[i] == FieldLine(fs[i])
  {
    if fs == [] then [] else [FieldLine(fs[0])] + FieldLines(fs[1..])
  }

  /** `CREATE TABLE <name> (` and its line break. */
  function TableOpen(e: Entity): string
  {
    "CREATE TABLE " + e.name + " (\n"
  }

  /** What closes a CREATE TABLE statement, with the blank line after it. */
  const TableClose := "\n);\n\n"

  /** The statement emitted for one entity, column lines joined by ",\n". */
  function TableBlock(e: Entity): string
  {
    TableOpen(e) + Join(FieldLines(e.fields), ",\n") + TableClose
  }

  /** The CREATE TABLE statements of `es`, in order. */
  function Tables(es: seq<Entity>): string
  {
    if es == [] then "" else TableBlock(es[0]) + Tables(es[1..])
  }

  /** The only relationship types that produce DDL (compared with `===`). */
  predicate IsForeignKeyKind(kind: string)
  {
    kind == "One-to-Many" || kind == "Many-to-One"
  }

  /** `i` is the index of the first entity called `table`: what `entities.find` picks. */
  predicate FirstNamed(es: seq<Entity>, table: string, i: int)
  {
    0 <= i < |es| && es[i].name == table && forall k :: 0 <= k < i ==> es[k].name != table
  }

  /** `j` is the index of the first field flagged `isPK`: what `fields.find` picks. */
  predicate FirstPkAt(fs: seq<Field>, j: int)
  {
    0 <= j < |fs| && fs[j].isPK && forall k :: 0 <= k < j ==> !fs[k].isPK
  }

  /**
   * `pkEntity?.fields?.find(f => f.isPK)`: the first key field of the first
   * entity called `table`, or nothing when there is no such entity or field.
   */
  function PkField(es: seq<Entity>, table: string): (r: Option<Field>)
    ensures r.Some? ==> exists i, j :: FirstNamed(es, table, i) && FirstPkAt(es[i].fields, j) && r.value == es[i].fields[j]
    ensures r.None? ==> forall i :: FirstNamed(es, table, i) ==> forall j :: 0 <= j < |es[i].fields| ==> !es[i].fields[j].isPK
  {
    match FindIndex(es, (e: Entity) => e.name == table)
    case None => None
    case Some(i) =>
      assert FirstNamed(es, table, i);
      match FindIndex(es[i].fields, (f: Field) => f.isPK)
      case None => None
      case Some(j) =>
        assert FirstPkAt(es[i].fields, j);
        Some(es[i].fields[j])
  }

  /** `pkField?.type || 'INT'`. */
  function PkType(es: seq<Entity>, table: string): string
  {
    match PkField(es, table)
    case Some(f) => Fallback(f.sqlType, "INT")
    case None => "INT"
  }

  /** `pkField?.name || 'id'`. */
  function PkName(es: seq<Entity>, table: string): string
  {
    match PkField(es, table)
    case Some(f) => Fallback(Some(f.name), "id")
    case None => "id"
  }

  /** `table.toLowerCase() + '_id'`: the column added to the referencing table. */
  function FkColumn(table: string): (c: string)
    ensures |c| == |table| + 3 && c[|table|..] == "_id"
    ensures forall i :: 0 <= i < |table| ==> c[i] == LowerChar(table[i])
    ensures forall i :: 0 <= i < |c| ==> !('A' <= c[i] <= 'Z')
  {
    Lower(table) + "_id"
  }

  /** `-- Relationship: <from> <label or 'related to'> <to> (<type>)`. */
  function CommentLine(rel: Relationship): string
  {
    "-- Relationship: " + rel.from + " " + Fallback(rel.labelText, "related to") + " " + rel.to + " (" + rel.kind + ")\n"
  }

  /** The key column added to the referencing table `to`. */
  function AddColumnLine(rel: Relationship, es: seq<Entity>): string
  {
    "ALTER TABLE " + rel.to + " ADD COLUMN " + FkColumn(rel.from) + " " + PkType(es, rel.from) + ";\n"
  }

  /** The constraint `fk_<to>_<from>` from that column to the key of `from`. */
  function AddConstraintLine(rel: Relationship, es: seq<Entity>): string
  {
    "ALTER TABLE " + rel.to + " ADD CONSTRAINT fk_" + rel.to + "_" + rel.from
    + " FOREIGN KEY (" + FkColumn(rel.from) + ") REFERENCES " + rel.from + "(" + PkName(es, rel.from) + ");\n\n"
  }

  /** The comment and the two ALTER TABLE statements for one relationship, or nothing. */
  function RelationshipBlock(rel: Relationship, es: seq<Entity>): string
  {
    if IsForeignKeyKind(rel.kind) then CommentLine(rel) + AddColumnLine(rel, es) + AddConstraintLine(rel, es) else ""
  }

  /** The relationship statements of `rels`, in order. */
  function Relationships(rels: seq<Relationship>, es: seq<Entity>): string
  {
    if rels == [] then "" else RelationshipBlock(rels[0], es) + Relationships(rels[1..], es)
  }

  /** What `generateSQL(schema)` returns. */
  function SqlText(schema: Option<Schema>): string
  {
    match schema
    case None => ""
    case Some(s) =>
      match s.entities
      case None => ""
      case Some(es) => Header + Tables(es) + Relationships(s.relationships, es)
  }

  /** The relationships that produce DDL, in their original order. */
  function ForeignKeyOnly(rels: seq<Relationship>): (r: seq<Relationship>)
    ensures forall i :: 0 <= i < |r| ==> IsForeignKeyKind(r[i].kind)
    ensures |r| <= |rels|
    ensures forall x :: x in r ==> x in rels
    ensures forall x :: x in rels && IsForeignKeyKind(x.kind) ==> x in r
    ensures forall x :: multiset(r)[x] == if IsForeignKeyKind(x.kind) then multiset(rels)[x] else 0
  {
    if rels == [] then []
    else
      var rest := ForeignKeyOnly(rels[1..]);
      assert multiset(rels) == multiset([rels[0]]) + multiset(rels[1..]) by {
        assert rels == [rels[0]] + rels[1..];
      }
      if IsForeignKeyKind(rels[0].kind) then [rels[0]] + rest else rest
  }

  /** Filtering keeps the order: the kept relationships of `a + b` are those of `a`, then those of `b`. */
  lemma {:induction false} ForeignKeyOnlyAppend(a: seq<Relationship>, b: seq<Relationship>)
    ensures ForeignKeyOnly(a + b) == ForeignKeyOnly(a) + ForeignKeyOnly(b)
  {
    if a == [] {
      assert a + b == b;
    } else {
      assert (a + b)[0] == a[0] && (a + b)[1..] == a[1..] + b;
      ForeignKeyOnlyAppend(a[1..], b);
    }
  }

  /** `generateSQL`: the header, then the two `forEach` passes appending to the same string. */
  method GenerateSql(schema: Option<Schema>) returns (sql: string)
    ensures sql == SqlText(schema)
  {
    if schema.None? || schema.value.entities.None? {
      return "";
    }
    var es := schema.value.entities.value;
    sql := Header;
    sql := AppendTables(sql, es);
    sql := AppendRelationships(sql, schema.value.relationships, es);
  }

  /** `schema.entities.forEach(...)`: one CREATE TABLE statement appended per entity. */
  method AppendTables(sql0: string, es: seq<Entity>) returns (sql: string)
    ensures sql == sql0 + Tables(es)
  {
    sql := sql0;
    var i := 0;
    while i < |es|
      invariant 0 <= i <= |es|
      invariant sql == sql0 + Tables(es[..i])
    {
      var entity := es[i];
      ghost var before := sql;
      sql := sql + TableOpen(entity);
      var lines := FieldLines(entity.fields);
      sql := sql + Join(lines, ",\n");
      sql := sql + TableClose;
      assert sql == sql0 + Tables(es[..i + 1]) by {
        Assoc(before + TableOpen(entity), Join(lines, ",\n"), TableClose);
        Assoc(before, TableOpen(entity), Join(lines, ",\n") + TableClose);
        Assoc(TableOpen(entity), Join(lines, ",\n"), TableClose);
        Assoc(sql0, Tables(es[..i]), TableBlock(entity));
        TablesAppend(es[..i], [entity]);
        TablesOne(entity);
        PrefixSnoc(es, i);
      }
      i := i + 1;
    }
    assert es[..|es|] == es;
  }

  /** `(schema.relationships || []).forEach(...)`: the foreign-key statements appended per relationship. */
  method AppendRelationships(sql0: string, rels: seq<Relationship>, es: seq<Entity>) returns (sql: string)
    ensures sql == sql0 + Relationships(rels, es)
  {
    sql := sql0;
    assert sql == sql0 + Relationships(rels[..0], es) by {
      assert rels[..0] == [];
    }
    var j := 0;
    while j < |rels|
      invariant 0 <= j <= |rels|
      invariant sql == sql0 + Relationships(rels[..j], es)
    {
      var rel := rels[j];
      ghost var before := sql;
      if IsForeignKeyKind(rel.kind) {
        sql := sql + CommentLine(rel);
        sql := sql + AddColumnLine(rel, es);
        sql := sql + AddConstraintLine(rel, es);
        assert sql == before + RelationshipBlock(rel, es) by {
          Assoc(before + CommentLine(rel), AddColumnLine(rel, es), AddConstraintLine(rel, es));
          Assoc(before, CommentLine(rel), AddColumnLine(rel, es) + AddConstraintLine(rel, es));
          Assoc(CommentLine(rel), AddColumnLine(rel, es), AddConstraintLine(rel, es));
        }
      } else {
        assert sql == before + RelationshipBlock(rel, es);
      }
      assert sql == sql0 + Relationships(rels[..j + 1], es) by {
        RelationshipsAppend(rels[..j], [rel], es);
        RelationshipsOne(rel, es);
        PrefixSnoc(rels, j);
        Assoc(sql0, Relationships(rels[..j], es), RelationshipBlock(rel, es));
      }
      j := j + 1;
    }
    assert rels[..|rels|] == rels;
  }

  /** Entities contribute their statements in document order, one block each. */
  lemma {:induction false} TablesAppend(a: seq<Entity>, b: seq<Entity>)
    ensures Tables(a + b) == Tables(a) + Tables(b)
  {
    if a == [] {
      assert a + b == b;
    } else {
      assert (a + b)[1..] == a[1..] + b;
      TablesAppend(a[1..], b);
    }
  }

  lemma TablesOne(e: Entity)
    ensures Tables([e]) == TableBlock(e)
  {
    assert [e][1..] == [];
  }

  /** Relationships contribute their statements in document order. */
  lemma {:induction false} RelationshipsAppend(a: seq<Relationship>, b: seq<Relationship>, es: seq<Entity>)
    ensures Relationships(a + b, es) == Relationships(a, es) + Relationships(b, es)
  {
    if a == [] {
      assert a + b == b;
    } else {
      assert (a + b)[0] == a[0] && (a + b)[1..] == a[1..] + b;
      RelationshipsAppend(a[1..], b, es);
      Assoc(RelationshipBlock(a[0], es), Relationships(a[1..], es), Relationships(b, es));
    }
  }

  lemma RelationshipsOne(rel: Relationship, es: seq<Entity>)
    ensures Relationships([rel], es) == RelationshipBlock(rel, es)
  {
    assert [rel][1..] == [];
  }

  /** No document, or a document without an `entities` array, gives ""; otherwise the header leads. */
  lemma SqlTextShape(schema: Option<Schema>)
    ensures SqlText(schema) == "" <==> schema.None? || schema.value.entities.None?
    ensures schema.Some? && schema.value.entities.Some? ==> StartsWith(SqlText(schema), Header)
  {
  }

  lemma {:induction false} RelationshipsOfForeignKeyOnly(rels: seq<Relationship>, es: seq<Entity>)
    ensures Relationships(ForeignKeyOnly(rels), es) == Relationships(rels, es)
  {
    if rels != [] {
      RelationshipsOfForeignKeyOnly(rels[1..], es);
      var kept := ForeignKeyOnly(rels[1..]);
      var block := RelationshipBlock(rels[0], es);
      assert Relationships(rels, es) == block + Relationships(rels[1..], es);
      ForeignKeyOnlyCons(rels);
      if IsForeignKeyKind(rels[0].kind) {
        RelationshipsCons(rels[0], kept, es);
      } else {
        assert block == "";
      }
    }
  }

  lemma ForeignKeyOnlyCons(rels: seq<Relationship>)
    requires rels != []
    ensures ForeignKeyOnly(rels) == (if IsForeignKeyKind(rels[0].kind) then [rels[0]] else []) + ForeignKeyOnly(rels[1..])
  {
  }

  lemma RelationshipsCons(rel: Relationship, rest: seq<Relationship>, es: seq<Entity>)
    ensures Relationships([rel] + rest, es) == RelationshipBlock(rel, es) + Relationships(rest, es)
  {
    assert ([rel] + rest)[0] == rel && ([rel] + rest)[1..] == rest;
  }

  /**
   * One-to-One, Many-to-Many and every other relationship type contribute
   * nothing: dropping them from the document leaves the DDL unchanged.
   */
  lemma SqlIgnoresOtherKinds(s: Schema)
    ensures SqlText(Some(s)) == SqlText(Some(s.(relationships := ForeignKeyOnly(s.relationships))))
  {
    RelationshipsOfForeignKeyOnly(s.relationships, EntitiesOf(s));
  }

  /**
   * The key column a foreign key points at comes from the first key field of
   * the first entity named `from`; with no such entity or field it is `id`
   * of type `INT`.
   */
  lemma ForeignKeyTarget(es: seq<Entity>, from: string)
    ensures (forall i :: 0 <= i < |es| ==> es[i].name != from) ==> PkType(es, from) == "INT" && PkName(es, from) == "id"
    ensures forall i :: FirstNamed(es, from, i) && (forall j :: 0 <= j < |es[i].fields| ==> !es[i].fields[j].isPK) ==>
              PkType(es, from) == "INT" && PkName(es, from) == "id"
    ensures forall i, j :: FirstNamed(es, from, i) && FirstPkAt(es[i].fields, j) ==>
              PkType(es, from) == Fallback(es[i].fields[j].sqlType, "INT") && PkName(es, from) == Fallback(Some(es[i].fields[j].name), "id")
  {
    if PkField(es, from).Some? {
      var i, j :| FirstNamed(es, from, i) && FirstPkAt(es[i].fields, j) && PkField(es, from).value == es[i].fields[j];
      forall i', j' | FirstNamed(es, from, i') && FirstPkAt(es[i'].fields, j')
        ensures i' == i && j' == j
      {
        assert !(i' < i) && !(i < i');
        assert !(j' < j) && !(j < j');
      }
    }
  }

  /** Every field flagged `isPK` is declared PRIMARY KEY, not only the first one. */
  lemma EveryPkMarked(e: Entity)
    ensures forall i :: 0 <= i < |e.fields| ==>
              (e.fields[i].isPK <==> FieldLines(e.fields)[i] == "  " + e.fields[i].name + " " + Shown(e.fields[i].sqlType) + " PRIMARY KEY")
  {
    forall i | 0 <= i < |e.fields| && !e.fields[i].isPK
      ensures FieldLines(e.fields)[i] != "  " + e.fields[i].name + " " + Shown(e.fields[i].sqlType) + " PRIMARY KEY"
    {
      var short := "  " + e.fields[i].name + " " + Shown(e.fields[i].sqlType);
      assert |FieldLines(e.fields)[i]| == |short|;
    }
  }

  /** No `;` in the entity's name or in any of its column names and types. */
  predicate PlainEntity(e: Entity)
  {
    ';' !in e.name && forall f :: f in e.fields ==> ';' !in f.name && ';' !in Shown(f.sqlType)
  }

  /** No `;` in the relationship's endpoints, type or label. */
  predicate PlainRelationship(rel: Relationship)
  {
    ';' !in rel.from && ';' !in rel.to && ';' !in rel.kind && ';' !in Fallback(rel.labelText, "related to")
  }

  /** No column line of a plain entity holds a `;`. */
  lemma ColumnsLack(e: Entity)
    requires PlainEntity(e)
    ensures ';' !in Join(FieldLines(e.fields), ",\n")
  {
    var lines := FieldLines(e.fields);
    forall i | 0 <= i < |lines| ensures ';' !in lines[i] {
      var f := e.fields[i];
      assert f in e.fields;
      LacksFive("  ", f.name, " ", Shown(f.sqlType), if f.isPK then " PRIMARY KEY" else "", ';');
    }
    JoinLacks(lines, ",\n", ';');
  }

  lemma TableBlockCount(e: Entity)
    requires PlainEntity(e)
    ensures CountChar(TableBlock(e), ';') == 1
  {
    var body := Join(FieldLines(e.fields), ",\n");
    ColumnsLack(e);
    LacksFive("CREATE TABLE ", e.name, " (\n", body, "\n)", ';');
    var head := TableOpen(e) + body + "\n)";
    assert TableBlock(e) == head + [';'] + "\n\n";
    SoleChar(head, "\n\n", ';');
  }

  lemma {:induction false} TablesCount(es: seq<Entity>)
    requires forall i :: 0 <= i < |es| ==> PlainEntity(es[i])
    ensures CountChar(Tables(es), ';') == |es|
  {
    if es != [] {
      TableBlockCount(es[0]);
      TablesCount(es[1..]);
      CountCharAppend(TableBlock(es[0]), Tables(es[1..]), ';');
    }
  }

  lemma KeyTextsPlain(es: seq<Entity>, table: string)
    requires forall i :: 0 <= i < |es| ==> PlainEntity(es[i])
    ensures ';' !in PkType(es, table) && ';' !in PkName(es, table)
  {
    if PkField(es, table).Some? {
      var i, j :| FirstNamed(es, table, i) && FirstPkAt(es[i].fields, j) && PkField(es, table).value == es[i].fields[j];
      assert PlainEntity(es[i]);
      assert es[i].fields[j] in es[i].fields;
    }
  }

  /** The added column's name holds a character only if the table name or `_id` does, or it is a lower-case letter. */
  lemma FkColumnLacks(table: string, c: char)
    requires c !in table && c !in "_id" && !('a' <= c <= 'z')
    ensures c !in FkColumn(table)
  {
    LowerLacks(table, c);
  }

  lemma AddColumnCount(rel: Relationship, es: seq<Entity>)
    requires ';' !in rel.from && ';' !in rel.to && ';' !in PkType(es, rel.from)
    ensures CountChar(AddColumnLine(rel, es), ';') == 1
  {
    FkColumnLacks(rel.from, ';');
    var column := "ALTER TABLE " + rel.to + " ADD COLUMN " + FkColumn(rel.from) + " " + PkType(es, rel.from);
    LacksFive("ALTER TABLE ", rel.to, " ADD COLUMN ", FkColumn(rel.from), " ", ';');
    assert AddColumnLine(rel, es) == column + [';'] + "\n";
    SoleChar(column, "\n", ';');
  }

  lemma AddConstraintCount(rel: Relationship, es: seq<Entity>)
    requires ';' !in rel.from && ';' !in rel.to && ';' !in PkName(es, rel.from)
    ensures CountChar(AddConstraintLine(rel, es), ';') == 1
  {
    FkColumnLacks(rel.from, ';');
    var name := "ALTER TABLE " + rel.to + " ADD CONSTRAINT fk_" + rel.to + "_";
    LacksFive("ALTER TABLE ", rel.to, " ADD CONSTRAINT fk_", rel.to, "_", ';');
    var key := name + rel.from + " FOREIGN KEY (" + FkColumn(rel.from) + ") REFERENCES ";
    LacksFive(name, rel.from, " FOREIGN KEY (", FkColumn(rel.from), ") REFERENCES ", ';');
    var constraint := key + rel.from + "(" + PkName(es, rel.from) + ")";
    LacksFive(key, rel.from, "(", PkName(es, rel.from), ")", ';');
    assert AddConstraintLine(rel, es) == constraint + [';'] + "\n\n";
    SoleChar(constraint, "\n\n", ';');
  }

  lemma RelationshipBlockCount(rel: Relationship, es: seq<Entity>)
    requires PlainRelationship(rel)
    requires forall i :: 0 <= i < |es| ==> PlainEntity(es[i])
    ensures CountChar(RelationshipBlock(rel, es), ';') == if IsForeignKeyKind(rel.kind) then 2 else 0
  {
    if IsForeignKeyKind(rel.kind) {
      KeyTextsPlain(es, rel.from);
      AddColumnCount(rel, es);
      AddConstraintCount(rel, es);
      CountCharAfter(CommentLine(rel), AddColumnLine(rel, es), ';');
      CountCharAppend(CommentLine(rel) + AddColumnLine(rel, es), AddConstraintLine(rel, es), ';');
    }
  }

  lemma {:induction false} RelationshipsCount(rels: seq<Relationship>, es: seq<Entity>)
    requires forall i :: 0 <= i < |rels| ==> PlainRelationship(rels[i])
    requires forall i :: 0 <= i < |es| ==> PlainEntity(es[i])
    ensures CountChar(Relationships(rels, es), ';') == 2 * |ForeignKeyOnly(rels)|
  {
    if rels != [] {
      RelationshipBlockCount(rels[0], es);
      RelationshipsCount(rels[1..], es);
      CountCharAppend(RelationshipBlock(rels[0], es), Relationships(rels[1..], es), ';');
    }
  }

  /**
   * When no name, type or label holds a `;`, the script after the header
   * comment holds exactly one statement per entity and two per
   * One-to-Many/Many-to-One relationship.
   */
  lemma SqlStatementCount(s: Schema)
    requires s.entities.Some?
    requires forall i :: 0 <= i < |s.entities.value| ==> PlainEntity(s.entities.value[i])
    requires forall i :: 0 <= i < |s.relationships| ==> PlainRelationship(s.relationships[i])
    ensures StartsWith(SqlText(Some(s)), Header)
    ensures CountChar(SqlText(Some(s))[|Header|..], ';') == |s.entities.value| + 2 * |ForeignKeyOnly(s.relationships)|
  {
    var es := s.entities.value;
    var tables, relationships := Tables(es), Relationships(s.relationships, es);
    TablesCount(es);
    RelationshipsCount(s.relationships, es);
    CountCharAppend(tables, relationships, ';');
    Assoc(Header, tables, relationships);
    assert SqlText(Some(s))[|Header|..] == tables + relationships;
  }
}
