/** What each store command does to the `{ entities, relationships }` pair:
    the new collections its `set` updater builds with spread, `filter`,
    `map` and `some`. History is handled by the store itself. */
module Mutations {
  import opened Wrappers
  import opened Seqs
  import opened Text
  import opened Types

  const GridSpacing: real := 250.0
  const EntitiesPerRow: nat := 3

  /** Where `addEntity` puts the entity that becomes number `index`: a grid of
      three columns centred on the viewport, one cell per index. */
  function GridPosition(index: nat, viewportWidth: real, viewportHeight: real): Position {
    var row := index / EntitiesPerRow;
    var col := index % EntitiesPerRow;
    Position(viewportWidth / 2.0 + (col as real - 1.0) * GridSpacing,
             viewportHeight / 2.0 + (row as real - 1.0) * GridSpacing)
  }

  /** Different indices get different cells, and every cell lies in one of the
      three columns left of, on, or right of the centre. */
  lemma GridPositionsDistinct(i: nat, j: nat, viewportWidth: real, viewportHeight: real)
    requires i != j
    ensures GridPosition(i, viewportWidth, viewportHeight) != GridPosition(j, viewportWidth, viewportHeight)
    ensures GridPosition(i, viewportWidth, viewportHeight).x - viewportWidth / 2.0 in {-GridSpacing, 0.0, GridSpacing}
    ensures GridPosition(i, viewportWidth, viewportHeight).y >= viewportHeight / 2.0 - GridSpacing
  {
  }

  /** `addEntity`: the entity is appended with its position overwritten by the
      grid cell of the current entity count; nothing else changes. */
  function AddEntity(m: Model, e: Entity, viewportWidth: real, viewportHeight: real): (r: Model)
    ensures r.relationships == m.relationships
    ensures |r.entities| == |m.entities| + 1 && r.entities[..|m.entities|] == m.entities
    ensures var added := r.entities[|m.entities|];
      && added.id == e.id && added.name == e.name && added.attributes == e.attributes
      && added.position == GridPosition(|m.entities|, viewportWidth, viewportHeight)
  {
    Model(m.entities + [e.(position := GridPosition(|m.entities|, viewportWidth, viewportHeight))], m.relationships)
  }

  /** `updateEntity`: every entity with the id gets the patch merged in; the
      others, the order and the relationships stay as they are. */
  function UpdateEntity(m: Model, id: string, p: EntityPatch): (r: Model)
    ensures r.relationships == m.relationships
    ensures |r.entities| == |m.entities|
    ensures forall i :: 0 <= i < |m.entities| && m.entities[i].id != id ==> r.entities[i] == m.entities[i]
    ensures forall i :: 0 <= i < |m.entities| && m.entities[i].id == id ==> r.entities[i] == MergeEntity(m.entities[i], p)
  {
    Model(UpdateWhere(m.entities, (e: Entity) => e.id == id, (e: Entity) => MergeEntity(e, p)), m.relationships)
  }

  /** `removeEntity`: the entity goes, with every relationship that starts or
      ends at it; everything else is kept in order. */
  function RemoveEntity(m: Model, id: string): (r: Model)
    ensures |r.entities| <= |m.entities| && |r.relationships| <= |m.relationships|
    ensures forall e :: e in r.entities <==> e in m.entities && e.id != id
    ensures forall rel :: rel in r.relationships <==> rel in m.relationships && rel.source != id && rel.target != id
  {
    Model(Filter(m.entities, (e: Entity) => e.id != id),
          Filter(m.relationships, (rel: Relationship) => rel.source != id && rel.target != id))
  }

  /** `removeEntity`'s filters work piecewise: the survivors of each part
      come out in their original order, those of the first part first, and
      their number is the sum of the parts'. */
  lemma RemoveEntityAppend(a: seq<Entity>, b: seq<Entity>, ra: seq<Relationship>, rb: seq<Relationship>, id: string)
    ensures var r := RemoveEntity(Model(a + b, ra + rb), id);
      && r.entities == RemoveEntity(Model(a, ra), id).entities + RemoveEntity(Model(b, rb), id).entities
      && r.relationships == RemoveEntity(Model(a, ra), id).relationships + RemoveEntity(Model(b, rb), id).relationships
  {
    FilterAppend(a, b, (e: Entity) => e.id != id);
    FilterAppend(ra, rb, (rel: Relationship) => rel.source != id && rel.target != id);
  }

  /** The `some` test of `addRelationship`: a relationship with this ordered pair exists. */
  predicate HasPair(rs: seq<Relationship>, source: string, target: string) {
    exists rel :: rel in rs && rel.source == source && rel.target == target
  }

  /** `addRelationship`: a duplicate `(source, target)` pair is ignored,
      otherwise the relationship is appended. */
  function AddRelationship(m: Model, rel: Relationship): (r: Model)
    ensures HasPair(m.relationships, rel.source, rel.target) ==> r == m
    ensures !HasPair(m.relationships, rel.source, rel.target) ==>
              r.entities == m.entities && r.relationships == m.relationships + [rel]
    ensures HasPair(r.relationships, rel.source, rel.target)
  {
    if HasPair(m.relationships, rel.source, rel.target) then m
    else
      var r := Model(m.entities, m.relationships + [rel]);
      assert rel in r.relationships;
      r
  }

  /** `removeRelationship`: every relationship with the id goes, whether or not there is one. */
  function RemoveRelationship(m: Model, id: string): (r: Model)
    ensures r.entities == m.entities && |r.relationships| <= |m.relationships|
    ensures forall rel :: rel in r.relationships <==> rel in m.relationships && rel.id != id
  {
    Model(m.entities, Filter(m.relationships, (rel: Relationship) => rel.id != id))
  }

  /** `removeRelationship`'s filter works piecewise, so the relationships
      that stay keep their order. */
  lemma RemoveRelationshipAppend(es: seq<Entity>, a: seq<Relationship>, b: seq<Relationship>, id: string)
    ensures RemoveRelationship(Model(es, a + b), id).relationships
         == RemoveRelationship(Model(es, a), id).relationships + RemoveRelationship(Model(es, b), id).relationships
  {
    FilterAppend(a, b, (rel: Relationship) => rel.id != id);
  }

  /** `updateRelationship`: the relationships with the id get the patch merged in. */
  function UpdateRelationship(m: Model, id: string, p: RelationshipPatch): (r: Model)
    ensures r.entities == m.entities
    ensures |r.relationships| == |m.relationships|
    ensures forall i :: 0 <= i < |m.relationships| && m.relationships[i].id != id ==>
              r.relationships[i] == m.relationships[i]
    ensures forall i :: 0 <= i < |m.relationships| && m.relationships[i].id == id ==>
              r.relationships[i] == MergeRelationship(m.relationships[i], p)
  {
    Model(m.entities, UpdateWhere(m.relationships, (rel: Relationship) => rel.id == id,
                                  (rel: Relationship) => MergeRelationship(rel, p)))
  }

  /** The five ids `createJunctionTable` draws from the clock, each from its own
      `Date.now()` call: the entity, its two attributes and the two links. */
  datatype JunctionIds = JunctionIds(entity: string, sourceAttribute: string, targetAttribute: string,
                                     sourceLink: string, targetLink: string)

  /** The synthesised junction entity: named `source_target` (lower-cased),
      with one INTEGER key column per side, placed below the midpoint. */
  function JunctionEntity(source: Entity, target: Entity, ids: JunctionIds): Entity {
    var s := Lower(source.name);
    var t := Lower(target.name);
    Entity(ids.entity, s + "_" + t,
           [Attribute(ids.sourceAttribute, s + "_id", "INTEGER", true, false),
            Attribute(ids.targetAttribute, t + "_id", "INTEGER", true, false)],
           Position((source.position.x + target.position.x) / 2.0,
                    (source.position.y + target.position.y) / 2.0 + 100.0))
  }

  /** The two relationships that replace the n:n one: source to junction as
      1:n, junction to target as n:1. */
  function JunctionLinks(source: Entity, target: Entity, ids: JunctionIds): seq<Relationship> {
    [Relationship(ids.sourceLink, source.id, ids.entity, "1", "n"),
     Relationship(ids.targetLink, ids.entity, target.id, "n", "1")]
  }

  /** The `find` test of `createJunctionTable`. */
  predicate HasRelationship(rs: seq<Relationship>, id: string) {
    Find(rs, (rel: Relationship) => rel.id == id).Some?
  }

  /** `createJunctionTable`: an unknown relationship id changes nothing;
      otherwise the junction entity is appended, every relationship with the
      id is dropped, and the two links are appended. */
  function CreateJunction(m: Model, relationshipId: string, source: Entity, target: Entity, ids: JunctionIds): (r: Model)
    ensures !HasRelationship(m.relationships, relationshipId) ==> r == m
    ensures HasRelationship(m.relationships, relationshipId) ==>
              && r.entities == m.entities + [JunctionEntity(source, target, ids)]
              && r.relationships == Filter(m.relationships, (rel: Relationship) => rel.id != relationshipId)
                                    + JunctionLinks(source, target, ids)
  {
    if !HasRelationship(m.relationships, relationshipId) then m
    else
      Model(m.entities + [JunctionEntity(source, target, ids)],
            Filter(m.relationships, (rel: Relationship) => rel.id != relationshipId)
            + JunctionLinks(source, target, ids))
  }
}
