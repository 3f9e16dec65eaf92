/** What the store's collection updates preserve: the "one relationship per
    ordered pair" rule that `addRelationship` enforces, the link from every
    relationship to existing entities that `removeEntity` maintains by
    cascading, and the shape of a junction-table replacement. */
module SchemaLaws {
  import opened Seqs
  import opened Text
  import opened Types
  import opened Mutations
  import opened Wrappers

  /** No two relationships share an ordered `(source, target)` pair. */
  predicate PairsUnique(rs: seq<Relationship>) {
    forall i, j :: 0 <= i < j < |rs| ==> !(rs[i].source == rs[j].source && rs[i].target == rs[j].target)
  }

  /** How many relationships have the ordered pair. */
  function PairCount(rs: seq<Relationship>, source: string, target: string): nat {
    |Filter(rs, (rel: Relationship) => rel.source == source && rel.target == target)|
  }

  predicate HasEntity(es: seq<Entity>, id: string) {
    exists e :: e in es && e.id == id
  }

  /** Every relationship starts and ends at an entity of the model. */
  predicate Linked(m: Model) {
    forall rel :: rel in m.relationships ==> HasEntity(m.entities, rel.source) && HasEntity(m.entities, rel.target)
  }

  /** How many relationships carry the id. */
  function IdCount(rs: seq<Relationship>, id: string): nat {
    |Filter(rs, (rel: Relationship) => rel.id == id)|
  }

  lemma ConsPairsUnique(x: Relationship, t: seq<Relationship>)
    requires PairsUnique(t) && !HasPair(t, x.source, x.target)
    ensures PairsUnique([x] + t)
  {
    var s := [x] + t;
    forall i, j | 0 <= i < j < |s| ensures !(s[i].source == s[j].source && s[i].target == s[j].target) {
      if i == 0 { assert s[j] == t[j - 1] && s[j] in t; } else { assert s[i] == t[i - 1] && s[j] == t[j - 1]; }
    }
  }

  /** Dropping relationships can never create a duplicate pair. */
  lemma {:induction false} FilterKeepsPairsUnique(rs: seq<Relationship>, keep: Relationship -> bool)
    requires PairsUnique(rs)
    ensures PairsUnique(Filter(rs, keep))
  {
    if rs != [] {
      var rest := rs[1..];
      assert PairsUnique(rest) by {
        forall i, j | 0 <= i < j < |rest| ensures !(rest[i].source == rest[j].source && rest[i].target == rest[j].target) {
          assert rest[i] == rs[i + 1] && rest[j] == rs[j + 1];
        }
      }
      FilterKeepsPairsUnique(rest, keep);
      if keep(rs[0]) {
        ConsPairsUnique(rs[0], Filter(rest, keep));
      }
    }
  }

  /** `addRelationship` keeps the pairs unique, whether it appends or rejects. */
  lemma AddRelationshipKeepsPairsUnique(m: Model, rel: Relationship)
    requires PairsUnique(m.relationships)
    ensures PairsUnique(AddRelationship(m, rel).relationships)
  {
    var rs := AddRelationship(m, rel).relationships;
    if !HasPair(m.relationships, rel.source, rel.target) {
      forall i, j | 0 <= i < j < |rs| ensures !(rs[i].source == rs[j].source && rs[i].target == rs[j].target) {
        if j == |m.relationships| { assert rs[i] in m.relationships; }
      }
    }
  }

  lemma RemoveEntityKeepsPairsUnique(m: Model, id: string)
    requires PairsUnique(m.relationships)
    ensures PairsUnique(RemoveEntity(m, id).relationships)
  {
    FilterKeepsPairsUnique(m.relationships, (rel: Relationship) => rel.source != id && rel.target != id);
  }

  lemma RemoveRelationshipKeepsPairsUnique(m: Model, id: string)
    requires PairsUnique(m.relationships)
    ensures PairsUnique(RemoveRelationship(m, id).relationships)
  {
    FilterKeepsPairsUnique(m.relationships, (rel: Relationship) => rel.id != id);
  }

  /** Adding the same ordered pair twice leaves exactly one relationship with
      that pair, and the second call changes nothing. */
  lemma AddRelationshipTwice(m: Model, first: Relationship, second: Relationship)
    requires PairCount(m.relationships, first.source, first.target) <= 1
    requires second.source == first.source && second.target == first.target
    ensures AddRelationship(AddRelationship(m, first), second) == AddRelationship(m, first)
    ensures PairCount(AddRelationship(m, first).relationships, first.source, first.target) == 1
  {
    var same := (rel: Relationship) => rel.source == first.source && rel.target == first.target;
    if HasPair(m.relationships, first.source, first.target) {
      var y :| y in m.relationships && y.source == first.source && y.target == first.target;
      assert y in Filter(m.relationships, same);
    } else {
      FilterAppend(m.relationships, [first], same);
      CountedPairExists(m.relationships, first.source, first.target);
      assert Filter([first], same) == [first];
    }
  }

  /** A positive count means `some` finds the pair. */
  lemma CountedPairExists(rs: seq<Relationship>, source: string, target: string)
    ensures PairCount(rs, source, target) > 0 ==> HasPair(rs, source, target)
  {
    var f := Filter(rs, (rel: Relationship) => rel.source == source && rel.target == target);
    if |f| > 0 {
      assert f[0] in f;
    }
  }

  lemma RemoveEntityKeepsLinked(m: Model, id: string)
    requires Linked(m)
    ensures Linked(RemoveEntity(m, id))
  {
    var r := RemoveEntity(m, id);
    forall rel | rel in r.relationships ensures HasEntity(r.entities, rel.source) && HasEntity(r.entities, rel.target) {
      var s :| s in m.entities && s.id == rel.source;
      var t :| t in m.entities && t.id == rel.target;
      assert s in r.entities && t in r.entities;
    }
  }

  /** An update whose patch leaves the id as it is (none given, or the same
      id, as a drag sends with the whole entity) keeps every link. */
  lemma UpdateEntityKeepsLinked(m: Model, id: string, p: EntityPatch)
    requires Linked(m) && (p.id.None? || p.id == Some(id))
    ensures Linked(UpdateEntity(m, id, p))
  {
    var r := UpdateEntity(m, id, p);
    forall x | HasEntity(m.entities, x) ensures HasEntity(r.entities, x) {
      var e :| e in m.entities && e.id == x;
      var i :| 0 <= i < |m.entities| && m.entities[i] == e;
      assert r.entities[i].id == x && r.entities[i] in r.entities;
    }
  }

  lemma AddEntityKeepsLinked(m: Model, e: Entity, viewportWidth: real, viewportHeight: real)
    requires Linked(m)
    ensures Linked(AddEntity(m, e, viewportWidth, viewportHeight))
  {
    var r := AddEntity(m, e, viewportWidth, viewportHeight);
    forall x | HasEntity(m.entities, x) ensures HasEntity(r.entities, x) {
      var y :| y in m.entities && y.id == x;
      var i :| 0 <= i < |m.entities| && m.entities[i] == y;
      assert r.entities[i] == y;
    }
  }

  /** `addRelationship` does not check its endpoints, so it keeps the links
      only when the caller passes existing entities. */
  lemma AddRelationshipKeepsLinked(m: Model, rel: Relationship)
    requires Linked(m) && HasEntity(m.entities, rel.source) && HasEntity(m.entities, rel.target)
    ensures Linked(AddRelationship(m, rel))
  {
  }

  lemma RemoveRelationshipKeepsLinked(m: Model, id: string)
    requires Linked(m)
    ensures Linked(RemoveRelationship(m, id))
  {
  }

  /** The junction replacement keeps the links when both endpoints passed in
      are entities of the model. */
  lemma CreateJunctionKeepsLinked(m: Model, relationshipId: string, source: Entity, target: Entity, ids: JunctionIds)
    requires Linked(m) && HasEntity(m.entities, source.id) && HasEntity(m.entities, target.id)
    ensures Linked(CreateJunction(m, relationshipId, source, target, ids))
  {
    var r := CreateJunction(m, relationshipId, source, target, ids);
    if HasRelationship(m.relationships, relationshipId) {
      var j := JunctionEntity(source, target, ids);
      assert j in r.entities;
      forall x | HasEntity(m.entities, x) ensures HasEntity(r.entities, x) {
        var y :| y in m.entities && y.id == x;
        assert y in r.entities;
      }
    }
  }

  /** The junction replacement keeps the pairs unique when the junction id is
      new: no relationship touches it yet and it differs from the source's id. */
  lemma CreateJunctionKeepsPairsUnique(m: Model, relationshipId: string, source: Entity, target: Entity, ids: JunctionIds)
    requires PairsUnique(m.relationships)
    requires ids.entity != source.id
    requires forall rel :: rel in m.relationships ==> rel.source != ids.entity && rel.target != ids.entity
    ensures PairsUnique(CreateJunction(m, relationshipId, source, target, ids).relationships)
  {
    if HasRelationship(m.relationships, relationshipId) {
      var kept := Filter(m.relationships, (rel: Relationship) => rel.id != relationshipId);
      FilterKeepsPairsUnique(m.relationships, (rel: Relationship) => rel.id != relationshipId);
      var rs := kept + JunctionLinks(source, target, ids);
      forall i, j | 0 <= i < j < |rs| ensures !(rs[i].source == rs[j].source && rs[i].target == rs[j].target) {
        if j >= |kept| && i < |kept| { assert rs[i] in m.relationships; }
      }
    }
  }

  /** Filtering out an id drops exactly the relationships that carry it. */
  lemma {:induction false} FilterOtherIdsCount(rs: seq<Relationship>, id: string)
    ensures |Filter(rs, (rel: Relationship) => rel.id != id)| == |rs| - IdCount(rs, id)
  {
    if rs != [] {
      FilterOtherIdsCount(rs[1..], id);
    }
  }

  /** When exactly one relationship carries the id, the junction replacement
      adds one entity and, net, one relationship; the new entity has exactly
      two columns, both INTEGER primary keys that are not nullable. */
  lemma CreateJunctionCounts(m: Model, relationshipId: string, source: Entity, target: Entity, ids: JunctionIds)
    requires IdCount(m.relationships, relationshipId) == 1
    ensures var r := CreateJunction(m, relationshipId, source, target, ids);
      && |r.entities| == |m.entities| + 1
      && |r.relationships| == |m.relationships| + 1
      && var j := r.entities[|m.entities|];
         && |j.attributes| == 2
         && forall a :: a in j.attributes ==> a.dataType == "INTEGER" && a.isPrimary && !a.isNullable
  {
    FilterOtherIdsCount(m.relationships, relationshipId);
    CountedIdExists(m.relationships, relationshipId);
  }

  /** A positive count means `find` finds the relationship. */
  lemma CountedIdExists(rs: seq<Relationship>, id: string)
    ensures IdCount(rs, id) > 0 ==> HasRelationship(rs, id)
  {
    var f := Filter(rs, (rel: Relationship) => rel.id == id);
    if |f| > 0 {
      assert f[0] in f;
    }
  }

  /** After the junction replacement no relationship carries the replaced id
      (given that the two new link ids differ from it), so a later
      `updateRelationship` on that id changes nothing. */
  lemma JunctionThenUpdateIsNoop(m: Model, relationshipId: string, source: Entity, target: Entity,
                                 ids: JunctionIds, p: RelationshipPatch)
    requires ids.sourceLink != relationshipId && ids.targetLink != relationshipId
    ensures var r := CreateJunction(m, relationshipId, source, target, ids);
      && !HasRelationship(r.relationships, relationshipId)
      && UpdateRelationship(r, relationshipId, p) == r
  {
    var r := CreateJunction(m, relationshipId, source, target, ids);
    var hit := (rel: Relationship) => rel.id == relationshipId;
    forall rel | rel in r.relationships ensures !hit(rel) {
      if !HasRelationship(m.relationships, relationshipId) {
        assert rel in m.relationships;
      }
    }
    UpdateWhereNoHit(r.relationships, hit, (rel: Relationship) => MergeRelationship(rel, p));
  }

  /** The n:n scenario: for Student and Course the junction is named
      student_course, its columns are student_id and course_id, and the
      replaced relationship id is gone. */
  lemma StudentCourseJunction(m: Model, relationshipId: string, source: Entity, target: Entity, ids: JunctionIds)
    requires source.name == "Student" && target.name == "Course"
    requires HasRelationship(m.relationships, relationshipId)
    requires ids.sourceLink != relationshipId && ids.targetLink != relationshipId
    ensures var r := CreateJunction(m, relationshipId, source, target, ids);
      && r.entities[|m.entities|].name == "student_course"
      && r.entities[|m.entities|].attributes[0].name == "student_id"
      && r.entities[|m.entities|].attributes[1].name == "course_id"
      && !HasRelationship(r.relationships, relationshipId)
  {
    JunctionThenUpdateIsNoop(m, relationshipId, source, target, ids, RelationshipPatch(None, None, None, None, None));
    var r := CreateJunction(m, relationshipId, source, target, ids);
    assert r.entities[|m.entities|] == JunctionEntity(source, target, ids);
    StudentCourseNames(source, target, ids);
  }

  lemma StudentCourseNames(source: Entity, target: Entity, ids: JunctionIds)
    requires source.name == "Student" && target.name == "Course"
    ensures var j := JunctionEntity(source, target, ids);
      && j.name == "student_course"
      && j.attributes[0].name == "student_id"
      && j.attributes[1].name == "course_id"
  {
    var j := JunctionEntity(source, target, ids);
    StudentCourseText();
    assert j.name == "student" + "_" + "course";
    assert j.attributes[0].name == "student" + "_id";
    assert j.attributes[1].name == "course" + "_id";
  }

  /** The lower-cased names and their concatenations in the scenario. */
  lemma StudentCourseText()
    ensures Lower("Student") == "student" && Lower("Course") == "course"
    ensures "student" + "_" + "course" == "student_course"
    ensures "student" + "_id" == "student_id" && "course" + "_id" == "course_id"
  {
    LowerStudent();
    LowerCourse();
  }

  /** Each word is lower-cased in a lemma of its own, which keeps each proof small. */
  lemma LowerStudent()
    ensures Lower("Student") == "student"
  {
  }

  lemma LowerCourse()
    ensures Lower("Course") == "course"
  {
  }
}
