/**
 * The schema document the generators consume: entities with fields, and
 * relationships between entity names. Every part of it may be sparse; the
 * readers in main.js fall back to an empty collection or a default text.
 */
module Schemas {
  import opened Wrappers

  /** A column: `type` may be missing, `isPK`/`isFK` are false when absent. */
  datatype Field = Field(name: string, sqlType: Option<string>, isPK: bool, isFK: bool)

  /** A table; a missing `fields` array is the empty sequence. */
  datatype Entity = Entity(name: string, description: Option<string>, fields: seq<Field>)

  /** A directed association `from` → `to`; `kind` is its `type` text, `labelText` its `label`. */
  datatype Relationship = Relationship(from: string, to: string, kind: string, labelText: Option<string>)

  /**
   * The document. `entities` stays optional because `generateSQL` and
   * `generatePythonClasses` tell a missing array apart from an empty one;
   * a missing `relationships` array is read as empty everywhere.
   */
  datatype Schema = Schema(entities: Option<seq<Entity>>, relationships: seq<Relationship>)

  /** `schema.entities || []`. */
  function EntitiesOf(s: Schema): seq<Entity>
  {
    match s.entities
    case Some(es) => es
    case None => []
  }
}
