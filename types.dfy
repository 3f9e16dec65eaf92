/** The records of the schema (`Entity`, `Attribute`, `Relationship`), the
    `Partial<...>` updates merged into them with object spread, and the
    pair of collections that the store snapshots. */
module Types {
  import opened Wrappers

  /** A canvas position; JavaScript numbers are modelled as exact reals. */
  datatype Position = Position(x: real, y: real)

  /** A column: `type` is a free-form label such as "VARCHAR(255)". */
  datatype Attribute = Attribute(id: string, name: string, dataType: string, isPrimary: bool, isNullable: bool)

  datatype Entity = Entity(id: string, name: string, attributes: seq<Attribute>, position: Position)

  /** Cardinalities are plain strings; only the edge editor restricts them. */
  datatype Relationship = Relationship(id: string, source: string, target: string,
                                       sourceCardinality: string, targetCardinality: string)

  /** The `{ entities, relationships }` pair, also the state a history entry holds. */
  datatype Model = Model(entities: seq<Entity>, relationships: seq<Relationship>)

  /** `Partial<Attribute>`: an absent field is `None`. */
  datatype AttributePatch = AttributePatch(id: Option<string>, name: Option<string>, dataType: Option<string>,
                                           isPrimary: Option<bool>, isNullable: Option<bool>)

  /** `Partial<Entity>`. */
  datatype EntityPatch = EntityPatch(id: Option<string>, name: Option<string>,
                                     attributes: Option<seq<Attribute>>, position: Option<Position>)

  /** `Partial<Relationship>`. */
  datatype RelationshipPatch = RelationshipPatch(id: Option<string>, source: Option<string>, target: Option<string>,
                                                 sourceCardinality: Option<string>, targetCardinality: Option<string>)

  /** `{ ...a, ...p }`: each field that `p` gives overrides `a`'s. */
  function MergeAttribute(a: Attribute, p: AttributePatch): Attribute {
    Attribute(p.id.GetOr(a.id), p.name.GetOr(a.name), p.dataType.GetOr(a.dataType),
              p.isPrimary.GetOr(a.isPrimary), p.isNullable.GetOr(a.isNullable))
  }

  function MergeEntity(e: Entity, p: EntityPatch): Entity {
    Entity(p.id.GetOr(e.id), p.name.GetOr(e.name), p.attributes.GetOr(e.attributes), p.position.GetOr(e.position))
  }

  function MergeRelationship(r: Relationship, p: RelationshipPatch): Relationship {
    Relationship(p.id.GetOr(r.id), p.source.GetOr(r.source), p.target.GetOr(r.target),
                 p.sourceCardinality.GetOr(r.sourceCardinality), p.targetCardinality.GetOr(r.targetCardinality))
  }
}
