/**
 * The diagram tab (`renderERD`, `renderEntityCard`,
 * `renderRelationshipMatrix`), kept as a descriptor of what is drawn: one
 * card per entity with one row per field, and one edge per relationship.
 * Markup and styling are not part of the descriptor.
 */
module Erd {
  import opened Wrappers
  import opened Text
  import opened Schemas

  /** A field row: the key badges, the name and the interpolated type text. */
  datatype FieldRow = FieldRow(pkBadge: bool, fkBadge: bool, name: string, typeText: string)

  /** An entity card: its title, its field rows and the description footer. */
  datatype Card = Card(title: string, rows: seq<FieldRow>, footer: string)

  /** A matrix entry `from --kind / caption--> to`. */
  datatype Edge = Edge(from: string, kind: string, caption: string, to: string)

  /** The cards, and the relationship matrix when there is one. */
  datatype Diagram = Diagram(cards: seq<Card>, matrix: Option<seq<Edge>>)

  /** The caption under a relationship's arrow. */
  const DefaultCaption := "related to"

  /** One row per field, in order; badges follow the flags and a missing type shows as "undefined". */
  function FieldRows(fs: seq<Field>): (rows: seq<FieldRow>)
    ensures |rows| == |fs|
    ensures forall i :: 0 <= i < |fs| ==>
      rows[i].name == fs[i].name && rows[i].typeText == Shown(fs[i].sqlType)
      && (rows[i].pkBadge <==> fs[i].isPK) && (rows[i].fkBadge <==> fs[i].isFK)
  {
    if fs == [] then []
    else [FieldRow(fs[0].isPK, fs[0].isFK, fs[0].name, Shown(fs[0].sqlType))] + FieldRows(fs[1..])
  }

  /** The card of one entity: its name, a row per field and the description, if any, as footer. */
  function RenderEntityCard(e: Entity): (c: Card)
    ensures c.title == e.name && |c.rows| == |e.fields|
    ensures forall i :: 0 <= i < |e.fields| ==>
      c.rows[i].name == e.fields[i].name && (c.rows[i].pkBadge <==> e.fields[i].isPK)
    ensures c.footer == if e.description.Some? then e.description.value else ""
  {
    Card(e.name, FieldRows(e.fields), Fallback(e.description, ""))
  }

  /** One card per entity, in order. */
  function Cards(es: seq<Entity>): (cards: seq<Card>)
    ensures |cards| == |es|
    ensures forall i :: 0 <= i < |es| ==> cards[i] == RenderEntityCard(es[i])
  {
    if es == [] then [] else [RenderEntityCard(es[0])] + Cards(es[1..])
  }

  /** One edge per relationship, in order; names are taken as written, whether or not an entity has them. */
  function Edges(rels: seq<Relationship>): (edges: seq<Edge>)
    ensures |edges| == |rels|
    ensures forall i :: 0 <= i < |rels| ==>
      edges[i].from == rels[i].from && edges[i].to == rels[i].to && edges[i].kind == rels[i].kind
      && edges[i].caption == Fallback(rels[i].labelText, DefaultCaption)
  {
    if rels == [] then []
    else [Edge(rels[0].from, rels[0].kind, Fallback(rels[0].labelText, DefaultCaption), rels[0].to)] + Edges(rels[1..])
  }

  /** No matrix at all without relationships; otherwise one edge per relationship. */
  function RenderRelationshipMatrix(rels: seq<Relationship>): (m: Option<seq<Edge>>)
    ensures m.None? <==> rels == []
    ensures m.Some? ==> m.value == Edges(rels) && m.value != []
  {
    if rels == [] then None else Some(Edges(rels))
  }

  /** Nothing is drawn without a schema; a missing entity list draws no cards. */
  function RenderErd(schema: Option<Schema>): (d: Option<Diagram>)
    ensures d.None? <==> schema.None?
    ensures d.Some? ==> |d.value.cards| == |EntitiesOf(schema.value)|
    ensures d.Some? ==> forall i :: 0 <= i < |EntitiesOf(schema.value)| ==>
      d.value.cards[i] == RenderEntityCard(EntitiesOf(schema.value)[i])
    ensures d.Some? ==> d.value.matrix == RenderRelationshipMatrix(schema.value.relationships)
  {
    match schema
    case None => None
    case Some(s) => Some(Diagram(Cards(EntitiesOf(s)), RenderRelationshipMatrix(s.relationships)))
  }

  /** A card's footer is the description, or empty when there is none. */
  lemma CardFooter(e: Entity)
    ensures e.description.Some? ==> RenderEntityCard(e).footer == e.description.value
    ensures e.description.None? ==> RenderEntityCard(e).footer == ""
  {
  }

  /** Every key field of every entity carries the PK badge on its card, and no other field does. */
  lemma {:induction false} PkBadges(s: Schema, i: nat, j: nat)
    requires i < |EntitiesOf(s)| && j < |EntitiesOf(s)[i].fields|
    ensures RenderErd(Some(s)).value.cards[i].rows[j].pkBadge <==> EntitiesOf(s)[i].fields[j].isPK
  {
    var card := Cards(EntitiesOf(s))[i];
    assert card == RenderEntityCard(EntitiesOf(s)[i]);
  }

  /**
   * A relationship whose ends name no entity is still drawn with those
   * names, and without a label it reads "related to".
   */
  lemma {:induction false} DanglingEdge(s: Schema, k: nat)
    requires k < |s.relationships|
    requires forall i :: 0 <= i < |EntitiesOf(s)| ==> EntitiesOf(s)[i].name != s.relationships[k].from
    ensures RenderErd(Some(s)).value.matrix.Some?
    ensures RenderErd(Some(s)).value.matrix.value[k].from == s.relationships[k].from
    ensures s.relationships[k].labelText.None? ==> RenderErd(Some(s)).value.matrix.value[k].caption == DefaultCaption
  {
    var m := RenderRelationshipMatrix(s.relationships);
    assert m.value == Edges(s.relationships);
  }
}
