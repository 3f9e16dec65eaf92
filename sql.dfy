/** `generateSQL` as a specification: the script is one CREATE TABLE block
    per entity, in stored order; a block lists the entity's columns and then
    one foreign-key column per relationship that targets the entity and
    whose source entity has a primary key. The loop that builds the string
    is `Store.ModelingStore.GenerateSql`. */
module Sql {
  import opened Wrappers
  import opened Seqs
  import opened Text
  import opened Types
  import opened Mutations

  /** One attribute as a column line: lower-cased name, raw type, then the
      PRIMARY KEY and NOT NULL qualifiers as the flags say. */
  function ColumnLine(a: Attribute): string {
    "  " + Lower(a.name) + " " + a.dataType
    + (if a.isPrimary then " PRIMARY KEY" else "")
    + (if !a.isNullable then " NOT NULL" else "")
  }

  /** `entity.attributes.map(...)`. */
  function ColumnLines(attrs: seq<Attribute>): (lines: seq<string>)
    ensures |lines| == |attrs|
  {
    seq(|attrs|, i requires 0 <= i < |attrs| => ColumnLine(attrs[i]))
  }

  /** `entities.find(e => e.id === id)`. */
  function FindEntity(es: seq<Entity>, id: string): Option<Entity> {
    Find(es, (e: Entity) => e.id == id)
  }

  /** `attributes.find(attr => attr.isPrimary)`: the first primary attribute. */
  function PrimaryKey(e: Entity): Option<Attribute> {
    Find(e.attributes, (a: Attribute) => a.isPrimary)
  }

  /** The column `<source>_id <pk type> REFERENCES <source>(<pk name>)`. */
  function ForeignKeyLine(source: Entity, pk: Attribute): string {
    "  " + Lower(source.name) + "_id " + pk.dataType + " REFERENCES " + Lower(source.name) + "(" + Lower(pk.name) + ")"
  }

  /** The foreign-key column a relationship contributes to its target's table:
      none when its source entity or that entity's primary key is missing. */
  function ReferenceLine(es: seq<Entity>, rel: Relationship): (line: Option<string>)
    ensures line.Some? <==> FindEntity(es, rel.source).Some? && PrimaryKey(FindEntity(es, rel.source).value).Some?
  {
    match FindEntity(es, rel.source)
    case None => None
    case Some(source) =>
      match PrimaryKey(source)
      case None => None
      case Some(pk) => Some(ForeignKeyLine(source, pk))
  }

  /** The foreign-key columns of the table of entity `targetId`: the
      reference lines of the relationships that target it, in relationship
      order. */
  function ForeignKeyLines(es: seq<Entity>, rels: seq<Relationship>, targetId: string): (lines: seq<string>)
    ensures |lines| <= |rels|
  {
    if rels == [] then []
    else
      var prev := ForeignKeyLines(es, rels[..|rels| - 1], targetId);
      var last := rels[|rels| - 1];
      if last.target == targetId && ReferenceLine(es, last).Some? then prev + [ReferenceLine(es, last).value] else prev
  }

  /** A line is a foreign-key column of the table exactly when some
      relationship targets the entity and resolves to that line. */
  lemma {:induction false} ForeignKeyLinesMembers(es: seq<Entity>, rels: seq<Relationship>, targetId: string)
    ensures forall l :: l in ForeignKeyLines(es, rels, targetId) <==>
              exists rel :: rel in rels && rel.target == targetId && ReferenceLine(es, rel) == Some(l)
  {
    if rels != [] {
      var init := rels[..|rels| - 1];
      var last := rels[|rels| - 1];
      assert rels == init + [last];
      assert forall rel :: rel in rels <==> rel in init || rel == last;
      ForeignKeyLinesMembers(es, init, targetId);
    }
  }

  /** No relationship targets the entity: no foreign-key columns. */
  lemma {:induction false} ForeignKeyLinesNone(es: seq<Entity>, rels: seq<Relationship>, targetId: string)
    requires forall rel :: rel in rels ==> rel.target != targetId
    ensures ForeignKeyLines(es, rels, targetId) == []
  {
    if rels != [] {
      var init := rels[..|rels| - 1];
      assert rels[|rels| - 1] in rels;
      assert forall rel :: rel in init ==> rel in rels;
      ForeignKeyLinesNone(es, init, targetId);
    }
  }

  /** All column lines of an entity's table. */
  function TableLines(es: seq<Entity>, rels: seq<Relationship>, e: Entity): seq<string> {
    ColumnLines(e.attributes) + ForeignKeyLines(es, rels, e.id)
  }

  /** The CREATE TABLE block of one entity. */
  function CreateTable(es: seq<Entity>, rels: seq<Relationship>, e: Entity): string {
    "CREATE TABLE " + Lower(e.name) + " (\n" + Join(TableLines(es, rels, e), ",\n") + "\n);\n\n"
  }

  /** The blocks of the entities in `done`, in order, looked up against the
      whole model. */
  function Tables(done: seq<Entity>, es: seq<Entity>, rels: seq<Relationship>): string {
    if done == [] then ""
    else Tables(done[..|done| - 1], es, rels) + CreateTable(es, rels, done[|done| - 1])
  }

  /** The script `generateSQL` returns: it depends on the entities and the
      relationships only. */
  function Script(m: Model): string {
    Tables(m.entities, m.entities, m.relationships)
  }

  /** One more relationship adds its reference line, after any lines already
      collected before the foreign keys, when it targets the entity. */
  lemma ForeignKeyLinesStep(es: seq<Entity>, rels: seq<Relationship>, j: nat, targetId: string, columns: seq<string>)
    requires j < |rels|
    ensures columns + ForeignKeyLines(es, rels[..j + 1], targetId)
         == columns + ForeignKeyLines(es, rels[..j], targetId)
            + (if rels[j].target == targetId && ReferenceLine(es, rels[j]).Some? then [ReferenceLine(es, rels[j]).value] else [])
  {
    assert rels[..j + 1][..j] == rels[..j];
  }

  /** One more entity adds its block at the end. */
  lemma TablesStep(es: seq<Entity>, rels: seq<Relationship>, i: nat)
    requires i < |es|
    ensures Tables(es[..i + 1], es, rels) == Tables(es[..i], es, rels) + CreateTable(es, rels, es[i])
  {
    assert es[..i + 1][..i] == es[..i];
  }

  /** Blocks are emitted in entity order: the blocks of a prefix of the
      entities are a prefix of the blocks of a longer one. */
  lemma {:induction false} TablesPrefix(done: seq<Entity>, n: nat, es: seq<Entity>, rels: seq<Relationship>)
    requires n <= |done|
    ensures Tables(done[..n], es, rels) <= Tables(done, es, rels)
  {
    if n < |done| {
      assert done[..|done| - 1][..n] == done[..n];
      TablesPrefix(done[..|done| - 1], n, es, rels);
    } else {
      assert done[..n] == done;
    }
  }

  /** An entity that no relationship targets gets a table of its own columns only. */
  lemma NoIncomingNoForeignKeys(es: seq<Entity>, rels: seq<Relationship>, e: Entity)
    requires forall rel :: rel in rels ==> rel.target != e.id
    ensures TableLines(es, rels, e) == ColumnLines(e.attributes)
  {
    ForeignKeyLinesNone(es, rels, e.id);
  }

  /** The single-entity example: User with a SERIAL primary key `id`. */
  lemma UserScript(userId: string, attrId: string, pos: Position)
    ensures Script(Model([Entity(userId, "User", [Attribute(attrId, "id", "SERIAL", true, false)], pos)], []))
            == "CREATE TABLE user (\n" + "  id SERIAL PRIMARY KEY NOT NULL" + "\n);\n\n"
  {
    var user := Entity(userId, "User", [Attribute(attrId, "id", "SERIAL", true, false)], pos);
    UserTable(user, attrId);
    assert [user][..0] == [];
    assert Tables([user], [user], []) == "" + CreateTable([user], [], user);
  }

  lemma UserTable(user: Entity, attrId: string)
    requires user == Entity(user.id, "User", [Attribute(attrId, "id", "SERIAL", true, false)], user.position)
    ensures CreateTable([user], [], user) == "CREATE TABLE user (\n" + "  id SERIAL PRIMARY KEY NOT NULL" + "\n);\n\n"
  {
    SerialKeyColumn(attrId);
    assert TableLines([user], [], user) == ["  id SERIAL PRIMARY KEY NOT NULL"];
    assert Lower("User") == "user";
    assert Join(TableLines([user], [], user), ",\n") == "  id SERIAL PRIMARY KEY NOT NULL";
    assert "CREATE TABLE " + "user" + " (\n" == "CREATE TABLE user (\n";
  }

  /** The column line of a SERIAL primary key named `id`. */
  lemma SerialKeyColumn(attrId: string)
    ensures ColumnLines([Attribute(attrId, "id", "SERIAL", true, false)]) == ["  id SERIAL PRIMARY KEY NOT NULL"]
  {
    var id := Attribute(attrId, "id", "SERIAL", true, false);
    assert Lower("id") == "id";
    assert ColumnLine(id) == "  " + "id" + " " + "SERIAL" + " PRIMARY KEY" + " NOT NULL";
    assert ColumnLine(id) == "  id SERIAL PRIMARY KEY NOT NULL";
    var lines := ColumnLines([id]);
    assert |lines| == 1 && lines[0] == ColumnLine(id);
  }

  /** The two-entity example: with User -> Order, Order's table holds its own
      key and then the foreign key `user_id SERIAL REFERENCES user(id)`. */
  lemma UserOrderForeignKey(userId: string, orderId: string, userKey: string, orderKey: string,
                            relId: string, userPos: Position, orderPos: Position)
    requires userId != orderId
    ensures var user := Entity(userId, "User", [Attribute(userKey, "id", "SERIAL", true, false)], userPos);
      var order := Entity(orderId, "Order", [Attribute(orderKey, "id", "SERIAL", true, false)], orderPos);
      TableLines([user, order], [Relationship(relId, userId, orderId, "1", "n")], order)
      == ["  id SERIAL PRIMARY KEY NOT NULL", "  user_id SERIAL REFERENCES user(id)"]
  {
    var user := Entity(userId, "User", [Attribute(userKey, "id", "SERIAL", true, false)], userPos);
    var order := Entity(orderId, "Order", [Attribute(orderKey, "id", "SERIAL", true, false)], orderPos);
    var rel := Relationship(relId, userId, orderId, "1", "n");
    SerialKeyColumn(orderKey);
    UserReference(user, userKey);
    assert FindEntity([user, order], userId) == Some(user);
    assert ReferenceLine([user, order], rel) == Some("  user_id SERIAL REFERENCES user(id)");
    assert [rel][..0] == [];
  }

  /** User's primary key `id` referenced from another table. */
  lemma UserReference(user: Entity, userKey: string)
    requires user.name == "User" && user.attributes == [Attribute(userKey, "id", "SERIAL", true, false)]
    ensures PrimaryKey(user) == Some(user.attributes[0])
    ensures ForeignKeyLine(user, user.attributes[0]) == "  user_id SERIAL REFERENCES user(id)"
  {
    assert Lower("User") == "user" && Lower("id") == "id";
    assert "  " + "user" + "_id " == "  user_id ";
    assert "  user_id " + "SERIAL" == "  user_id SERIAL";
    assert "  user_id SERIAL" + " REFERENCES " == "  user_id SERIAL REFERENCES ";
    assert "  user_id SERIAL REFERENCES " + "user" == "  user_id SERIAL REFERENCES user";
    assert "  user_id SERIAL REFERENCES user" + "(" + "id" + ")" == "  user_id SERIAL REFERENCES user(id)";
  }

  /** Foreign-key columns of a concatenation of relationship lists come in
      the same order as the lists. */
  lemma {:induction false} ForeignKeyLinesAppend(es: seq<Entity>, a: seq<Relationship>, b: seq<Relationship>, targetId: string)
    ensures ForeignKeyLines(es, a + b, targetId) == ForeignKeyLines(es, a, targetId) + ForeignKeyLines(es, b, targetId)
  {
    if b == [] {
      assert a + b == a;
    } else {
      assert (a + b)[..|a + b| - 1] == a + b[..|b| - 1];
      ForeignKeyLinesAppend(es, a, b[..|b| - 1], targetId);
    }
  }

  /** The key column of a junction table for one side named `side`. */
  function JunctionKeyLine(side: string): string {
    "  " + (Lower(side) + "_id") + " INTEGER PRIMARY KEY NOT NULL"
  }

  /** The junction entity's table is named as it is stored (already lower
      case) and starts with one INTEGER key column per side. */
  lemma JunctionColumns(source: Entity, target: Entity, ids: JunctionIds)
    ensures var j := JunctionEntity(source, target, ids);
      && Lower(j.name) == j.name
      && ColumnLines(j.attributes) == [JunctionKeyLine(source.name), JunctionKeyLine(target.name)]
  {
    var j := JunctionEntity(source, target, ids);
    JunctionNameIsLower(source.name, target.name);
    JunctionKeyColumn(source.name, ids.sourceAttribute);
    JunctionKeyColumn(target.name, ids.targetAttribute);
    var columns := ColumnLines(j.attributes);
    assert |columns| == 2 && columns[0] == ColumnLine(j.attributes[0]) && columns[1] == ColumnLine(j.attributes[1]);
  }

  lemma JunctionNameIsLower(source: string, target: string)
    ensures Lower(Lower(source) + "_" + Lower(target)) == Lower(source) + "_" + Lower(target)
  {
    var s, t := Lower(source), Lower(target);
    LowerIdempotent(source);
    LowerIdempotent(target);
    LowerAppend(s, "_");
    LowerAppend(s + "_", t);
    assert Lower("_") == "_";
  }

  lemma JunctionKeyColumn(side: string, attrId: string)
    ensures ColumnLine(Attribute(attrId, Lower(side) + "_id", "INTEGER", true, false)) == JunctionKeyLine(side)
  {
    var s := Lower(side);
    LowerIdempotent(side);
    LowerAppend(s, "_id");
    assert Lower("_id") == "_id";
    KeyLineText(s + "_id");
  }

  /** The qualifiers of a key column, regrouped into one literal; kept apart
      from its caller so that each string proof stays small. */
  lemma KeyLineText(name: string)
    ensures "  " + name + " " + "INTEGER" + " PRIMARY KEY" + " NOT NULL" == "  " + name + " INTEGER PRIMARY KEY NOT NULL"
  {
    var x := "  " + name;
    Associative(x, " ", "INTEGER");
    Associative(x, " INTEGER", " PRIMARY KEY");
    Associative(x, " INTEGER PRIMARY KEY", " NOT NULL");
  }

  /** The one regrouping step the string proofs of this module rely on. */
  lemma Associative(a: string, b: string, c: string)
    ensures a + b + c == a + (b + c)
  {
  }

  /** After the replacement, the junction is targeted only by the link from
      the source, so its table gets exactly one foreign-key column, the one
      referencing the source's primary key. */
  lemma JunctionForeignKeys(m: Model, relationshipId: string, source: Entity, target: Entity, ids: JunctionIds)
    requires HasRelationship(m.relationships, relationshipId)
    requires FindEntity(m.entities, source.id) == Some(source) && PrimaryKey(source).Some?
    requires ids.entity != target.id
    requires forall rel :: rel in m.relationships ==> rel.target != ids.entity
    ensures var r := CreateJunction(m, relationshipId, source, target, ids);
      ForeignKeyLines(r.entities, r.relationships, ids.entity) == [ForeignKeyLine(source, PrimaryKey(source).value)]
  {
    var r := CreateJunction(m, relationshipId, source, target, ids);
    var j := JunctionEntity(source, target, ids);
    var kept := Filter(m.relationships, (rel: Relationship) => rel.id != relationshipId);
    var links := JunctionLinks(source, target, ids);
    ForeignKeyLinesAppend(r.entities, kept, links, ids.entity);
    ForeignKeyLinesNone(r.entities, kept, ids.entity);
    FindIndexAppend(m.entities, [j], (e: Entity) => e.id == source.id);
    assert FindEntity(r.entities, source.id) == Some(source);
    assert links[..1][..0] == [];
    assert links[..1] == [links[0]];
  }

  /** Hence the whole junction table: two key columns and a foreign-key
      column whose name `<source>_id` repeats the first key column's. */
  lemma JunctionTableLines(m: Model, relationshipId: string, source: Entity, target: Entity, ids: JunctionIds)
    requires HasRelationship(m.relationships, relationshipId)
    requires FindEntity(m.entities, source.id) == Some(source) && PrimaryKey(source).Some?
    requires ids.entity != target.id
    requires forall rel :: rel in m.relationships ==> rel.target != ids.entity
    ensures var r := CreateJunction(m, relationshipId, source, target, ids);
      var fk := ForeignKeyLine(source, PrimaryKey(source).value);
      && TableLines(r.entities, r.relationships, JunctionEntity(source, target, ids))
         == [JunctionKeyLine(source.name), JunctionKeyLine(target.name), fk]
      && ColumnNamePrefix(source.name) <= JunctionKeyLine(source.name)
      && ColumnNamePrefix(source.name) <= fk
  {
    var r := CreateJunction(m, relationshipId, source, target, ids);
    var j := JunctionEntity(source, target, ids);
    JunctionColumns(source, target, ids);
    JunctionForeignKeys(m, relationshipId, source, target, ids);
    assert TableLines(r.entities, r.relationships, j)
        == ColumnLines(j.attributes) + ForeignKeyLines(r.entities, r.relationships, ids.entity);
    ForeignKeyColumnName(source, PrimaryKey(source).value);
    KeyLineColumnName(source.name);
  }

  lemma KeyLineColumnName(side: string)
    ensures ColumnNamePrefix(side) <= JunctionKeyLine(side)
  {
    var name := "  " + (Lower(side) + "_id");
    assert ColumnNamePrefix(side) == name + " ";
    assert JunctionKeyLine(side) == name + " INTEGER PRIMARY KEY NOT NULL";
    assert " INTEGER PRIMARY KEY NOT NULL" == " " + "INTEGER PRIMARY KEY NOT NULL";
    Associative(name, " ", "INTEGER PRIMARY KEY NOT NULL");
  }

  /** The start of a column line that names the column `<side>_id`. */
  function ColumnNamePrefix(side: string): string {
    "  " + (Lower(side) + "_id") + " "
  }

  lemma ForeignKeyColumnName(source: Entity, pk: Attribute)
    ensures ColumnNamePrefix(source.name) <= ForeignKeyLine(source, pk)
  {
    var l := Lower(source.name);
    Associative("  ", l, "_id ");
    Associative(l, "_id", " ");
    Associative("  ", l + "_id", " ");
  }
}
