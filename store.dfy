/** The modeling store: the live entities and relationships, the linear
    history of snapshots and its cursor. Each command is first given as a
    function on the four fields (`StoreState`); the class `ModelingStore`
    holds the fields and its methods update them in place as the store's
    `set` calls do. */
module Store {
  import opened Text
  import opened Types
  import opened Mutations
  import Sql
  import SchemaLaws

  /** A history entry: the label and the entities and relationships that
      were live when `addToHistory` ran, which is before the command
      installs its own result. */
  datatype HistoryEntry = HistoryEntry(action: string, state: Model)

  /** `entities`/`relationships` (as `live`), `history` and `currentHistoryIndex`. */
  datatype StoreState = StoreState(live: Model, history: seq<HistoryEntry>, cursor: int)

  const Empty: Model := Model([], [])
  const Initial: StoreState := StoreState(Empty, [], -1)

  /** The cursor is an index into the history, and -1 exactly when the history is empty. */
  predicate WellFormed(s: StoreState) {
    -1 <= s.cursor < |s.history| && (s.cursor == -1 <==> s.history == [])
  }

  /** The guards of `undo` and `redo`. */
  predicate CanUndo(s: StoreState) { s.cursor > 0 }
  predicate CanRedo(s: StoreState) { s.cursor < |s.history| - 1 }

  /** `addToHistory`: drops every entry after the cursor, appends a snapshot
      of the live model and moves the cursor onto it; nothing is left to redo. */
  function Record(s: StoreState, action: string): (r: StoreState)
    requires WellFormed(s)
    ensures WellFormed(r) && r.live == s.live
    ensures r.history == s.history[..s.cursor + 1] + [HistoryEntry(action, s.live)]
    ensures r.cursor == s.cursor + 1 == |r.history| - 1
    ensures !CanRedo(r)
  {
    StoreState(s.live, s.history[..s.cursor + 1] + [HistoryEntry(action, s.live)], s.cursor + 1)
  }

  /** `undo`: when the cursor is above 0, moves it down by one and installs
      that entry's snapshot; otherwise nothing happens. */
  function UndoStep(s: StoreState): (r: StoreState)
    requires WellFormed(s)
    ensures WellFormed(r) && r.history == s.history
    ensures CanUndo(s) ==> r.cursor == s.cursor - 1 && r.live == s.history[r.cursor].state
    ensures !CanUndo(s) ==> r == s
  {
    if s.cursor > 0 then StoreState(s.history[s.cursor - 1].state, s.history, s.cursor - 1) else s
  }

  /** `redo`: when an entry follows the cursor, moves onto it and installs
      its snapshot; otherwise nothing happens. */
  function RedoStep(s: StoreState): (r: StoreState)
    requires WellFormed(s)
    ensures WellFormed(r) && r.history == s.history
    ensures CanRedo(s) ==> r.cursor == s.cursor + 1 && r.live == s.history[r.cursor].state
    ensures !CanRedo(s) ==> r == s
  {
    if s.cursor < |s.history| - 1 then StoreState(s.history[s.cursor + 1].state, s.history, s.cursor + 1) else s
  }

  /** `addEntity`: records the model it starts from, then installs the model
      with the entity appended. */
  function AddEntityStep(s: StoreState, e: Entity, viewportWidth: real, viewportHeight: real): (r: StoreState)
    requires WellFormed(s)
    ensures WellFormed(r) && !CanRedo(r) && r.cursor == s.cursor + 1 && r.history[r.cursor].state == s.live
    ensures r.live == AddEntity(s.live, e, viewportWidth, viewportHeight)
  {
    Record(s, "Added entity: " + e.name).(live := AddEntity(s.live, e, viewportWidth, viewportHeight))
  }

  /** `updateEntity`: records even when no entity has the id. */
  function UpdateEntityStep(s: StoreState, id: string, p: EntityPatch): (r: StoreState)
    requires WellFormed(s)
    ensures WellFormed(r) && !CanRedo(r) && r.cursor == s.cursor + 1 && r.history[r.cursor].state == s.live
    ensures r.live == UpdateEntity(s.live, id, p)
  {
    Record(s, "Updated entity: " + id).(live := UpdateEntity(s.live, id, p))
  }

  /** `removeEntity`: records, then installs the model without the entity
      and its relationships. */
  function RemoveEntityStep(s: StoreState, id: string): (r: StoreState)
    requires WellFormed(s)
    ensures WellFormed(r) && !CanRedo(r) && r.cursor == s.cursor + 1 && r.history[r.cursor].state == s.live
    ensures r.live == RemoveEntity(s.live, id)
  {
    Record(s, "Removed entity: " + id).(live := RemoveEntity(s.live, id))
  }

  /** `addRelationship`: a duplicate pair leaves the whole store, history
      included, unchanged; otherwise it records and appends. */
  function AddRelationshipStep(s: StoreState, rel: Relationship): (r: StoreState)
    requires WellFormed(s)
    ensures WellFormed(r)
    ensures HasPair(s.live.relationships, rel.source, rel.target) ==> r == s
    ensures !HasPair(s.live.relationships, rel.source, rel.target) ==>
              && !CanRedo(r) && r.cursor == s.cursor + 1 && r.history[r.cursor].state == s.live
              && r.live == Model(s.live.entities, s.live.relationships + [rel])
  {
    if HasPair(s.live.relationships, rel.source, rel.target) then s
    else Record(s, "Added relationship").(live := AddRelationship(s.live, rel))
  }

  /** `removeRelationship`: records even when no relationship has the id. */
  function RemoveRelationshipStep(s: StoreState, id: string): (r: StoreState)
    requires WellFormed(s)
    ensures WellFormed(r) && !CanRedo(r) && r.cursor == s.cursor + 1 && r.history[r.cursor].state == s.live
    ensures r.live == RemoveRelationship(s.live, id)
  {
    Record(s, "Removed relationship: " + id).(live := RemoveRelationship(s.live, id))
  }

  /** `updateRelationship`: records nothing. */
  function UpdateRelationshipStep(s: StoreState, id: string, p: RelationshipPatch): (r: StoreState)
    ensures r.history == s.history && r.cursor == s.cursor
    ensures r.live == UpdateRelationship(s.live, id, p)
  {
    s.(live := UpdateRelationship(s.live, id, p))
  }

  /** `createJunctionTable`: records nothing. */
  function CreateJunctionStep(s: StoreState, relationshipId: string, source: Entity, target: Entity, ids: JunctionIds): (r: StoreState)
    ensures r.history == s.history && r.cursor == s.cursor
    ensures r.live == CreateJunction(s.live, relationshipId, source, target, ids)
  {
    s.(live := CreateJunction(s.live, relationshipId, source, target, ids))
  }

  /** The store's commands, with the inputs the browser supplies (viewport
      size, clock-derived ids) as arguments. */
  datatype Command =
    | AddEntityCmd(entity: Entity, viewportWidth: real, viewportHeight: real)
    | UpdateEntityCmd(id: string, entityPatch: EntityPatch)
    | RemoveEntityCmd(id: string)
    | AddRelationshipCmd(relationship: Relationship)
    | RemoveRelationshipCmd(id: string)
    | UpdateRelationshipCmd(id: string, relationshipPatch: RelationshipPatch)
    | CreateJunctionCmd(id: string, source: Entity, target: Entity, ids: JunctionIds)
    | UndoCmd
    | RedoCmd

  /** One command; every command keeps the cursor well formed. */
  function Apply(s: StoreState, c: Command): (r: StoreState)
    requires WellFormed(s)
    ensures WellFormed(r)
  {
    match c
    case AddEntityCmd(e, w, h) => AddEntityStep(s, e, w, h)
    case UpdateEntityCmd(id, p) => UpdateEntityStep(s, id, p)
    case RemoveEntityCmd(id) => RemoveEntityStep(s, id)
    case AddRelationshipCmd(rel) => AddRelationshipStep(s, rel)
    case RemoveRelationshipCmd(id) => RemoveRelationshipStep(s, id)
    case UpdateRelationshipCmd(id, p) => UpdateRelationshipStep(s, id, p)
    case CreateJunctionCmd(id, source, target, ids) => CreateJunctionStep(s, id, source, target, ids)
    case UndoCmd => UndoStep(s)
    case RedoCmd => RedoStep(s)
  }

  /** A sequence of commands, first to last. */
  function Run(s: StoreState, cs: seq<Command>): (r: StoreState)
    requires WellFormed(s)
    ensures WellFormed(r)
    decreases cs
  {
    if cs == [] then s else Run(Apply(s, cs[0]), cs[1..])
  }

  /** What every state reached from the initial store satisfies: the cursor
      is well formed, the model is still empty while nothing was recorded,
      and the first entry is the empty model (the state before the first
      recorded command). */
  predicate Reachable(s: StoreState) {
    && WellFormed(s)
    && (s.history == [] ==> s.live == Empty)
    && (s.history != [] ==> s.history[0].state == Empty)
  }

  lemma ApplyKeepsReachable(s: StoreState, c: Command)
    requires Reachable(s)
    ensures Reachable(Apply(s, c))
  {
    if s.history == [] {
      assert s.live.relationships == [];
      if c.CreateJunctionCmd? {
        assert !HasRelationship(s.live.relationships, c.id);
      }
    } else {
      assert s.history[..s.cursor + 1][0] == s.history[0];
    }
  }

  lemma {:induction false} RunKeepsReachable(s: StoreState, cs: seq<Command>)
    requires Reachable(s)
    ensures Reachable(Run(s, cs))
    decreases cs
  {
    if cs != [] {
      ApplyKeepsReachable(s, cs[0]);
      RunKeepsReachable(Apply(s, cs[0]), cs[1..]);
    }
  }

  /** `undo` repeated `n` times. */
  function UndoTimes(s: StoreState, n: nat): (r: StoreState)
    requires WellFormed(s)
    ensures WellFormed(r)
    decreases n
  {
    if n == 0 then s else UndoTimes(UndoStep(s), n - 1)
  }

  lemma {:induction false} UndoTimesMovesDown(s: StoreState, n: nat)
    requires WellFormed(s) && 0 < n <= s.cursor
    ensures var r := UndoTimes(s, n);
      r.history == s.history && r.cursor == s.cursor - n && r.live == s.history[r.cursor].state
    decreases n
  {
    if n > 1 {
      UndoTimesMovesDown(UndoStep(s), n - 1);
    }
  }

  /** From any command sequence on the initial store, undoing as far as the
      cursor goes installs the empty model again. */
  lemma UndoAllRestoresEmpty(cs: seq<Command>)
    ensures var s := Run(Initial, cs);
      s.cursor > 0 ==> UndoTimes(s, s.cursor).live == Empty && !CanUndo(UndoTimes(s, s.cursor))
  {
    RunKeepsReachable(Initial, cs);
    var s := Run(Initial, cs);
    if s.cursor > 0 {
      UndoTimesMovesDown(s, s.cursor);
    }
  }

  /** Undo then redo brings the cursor back, but installs the snapshot at
      the cursor, which was taken before the last recorded command. */
  lemma UndoThenRedo(s: StoreState)
    requires WellFormed(s) && CanUndo(s)
    ensures RedoStep(UndoStep(s)) == StoreState(s.history[s.cursor].state, s.history, s.cursor)
  {
  }

  /** Redo then undo likewise returns to the cursor and its snapshot. */
  lemma RedoThenUndo(s: StoreState)
    requires WellFormed(s) && CanRedo(s)
    ensures UndoStep(RedoStep(s)) == StoreState(s.history[s.cursor].state, s.history, s.cursor)
  {
  }

  /** Every editing command except the two that bypass the history either
      leaves the store untouched (a duplicate relationship) or records the
      model it started from as the last entry, with nothing left to redo. */
  lemma RecordingClearsRedo(s: StoreState, c: Command)
    requires WellFormed(s)
    requires !c.UpdateRelationshipCmd? && !c.CreateJunctionCmd? && !c.UndoCmd? && !c.RedoCmd?
    ensures var r := Apply(s, c);
      if c.AddRelationshipCmd? && HasPair(s.live.relationships, c.relationship.source, c.relationship.target)
      then r == s
      else (&& !CanRedo(r) && RedoStep(r) == r
            && |r.history| == s.cursor + 2
            && r.history[s.cursor + 1].state == s.live
            && r.history[..s.cursor + 1] == s.history[..s.cursor + 1])
  {
  }

  /** From the initial store the first command can never be undone: the
      cursor only reaches 0. */
  lemma FirstCommandCannotBeUndone(c: Command)
    ensures !CanUndo(Apply(Initial, c))
  {
  }

  /** Because each entry holds the model from before its command, one undo
      after two additions on the initial store goes back to the empty model,
      and redo then installs the model with only the first entity, not the
      live model the two additions had built. */
  lemma UndoAfterTwoAdditions(e1: Entity, e2: Entity, viewportWidth: real, viewportHeight: real)
    ensures var added := Run(Initial, [AddEntityCmd(e1, viewportWidth, viewportHeight),
                                       AddEntityCmd(e2, viewportWidth, viewportHeight)]);
      var undone := Run(Initial, [AddEntityCmd(e1, viewportWidth, viewportHeight),
                                  AddEntityCmd(e2, viewportWidth, viewportHeight), UndoCmd]);
      && |added.live.entities| == 2
      && undone.live == Empty
      && RedoStep(undone).live == AddEntity(Empty, e1, viewportWidth, viewportHeight)
      && RedoStep(undone).live != added.live
  {
    var c1, c2 := AddEntityCmd(e1, viewportWidth, viewportHeight), AddEntityCmd(e2, viewportWidth, viewportHeight);
    var s1 := Apply(Initial, c1);
    var s2 := Apply(s1, c2);
    var s3 := Apply(s2, UndoCmd);
    assert [c1, c2][1..] == [c2] && [c2][1..] == [];
    assert Run(Initial, [c1, c2]) == s2 by {
      assert Run(s2, []) == s2;
      assert Run(s1, [c2]) == s2;
    }
    assert [c1, c2, UndoCmd][1..] == [c2, UndoCmd] && [c2, UndoCmd][1..] == [UndoCmd] && [UndoCmd][1..] == [];
    assert Run(Initial, [c1, c2, UndoCmd]) == s3 by {
      assert Run(s3, []) == s3;
      assert Run(s2, [UndoCmd]) == s3;
      assert Run(s1, [c2, UndoCmd]) == s3;
    }
    assert s1.history == [HistoryEntry("Added entity: " + e1.name, Empty)] && s1.cursor == 0;
    assert s2.cursor == 1 && s2.history[1].state == s1.live;
    assert s3.cursor == 0 && s3.live == Empty;
  }

  /** The accepted n:n path ends with a cardinality change on the replaced
      id; it matches nothing and leaves the whole store as the junction
      replacement left it. */
  lemma JunctionThenCardinalityChange(s: StoreState, relationshipId: string, source: Entity, target: Entity,
                                      ids: JunctionIds, p: RelationshipPatch)
    requires ids.sourceLink != relationshipId && ids.targetLink != relationshipId
    ensures var j := CreateJunctionStep(s, relationshipId, source, target, ids);
      UpdateRelationshipStep(j, relationshipId, p) == j
  {
    SchemaLaws.JunctionThenUpdateIsNoop(s.live, relationshipId, source, target, ids, p);
  }

  /** The inner loop of `generateSQL`: for each relationship that targets
      the entity, in order, pushes a foreign-key line when its source entity
      exists and has a primary key. */
  method PushForeignKeys(attributes: seq<string>, entities: seq<Entity>, relationships: seq<Relationship>,
                         targetId: string) returns (pushed: seq<string>)
    ensures pushed == attributes + Sql.ForeignKeyLines(entities, relationships, targetId)
  {
    pushed := attributes;
    var j := 0;
    assert relationships[..0] == [];
    while j < |relationships|
      invariant 0 <= j <= |relationships|
      invariant pushed == attributes + Sql.ForeignKeyLines(entities, relationships[..j], targetId)
    {
      var rel := relationships[j];
      Sql.ForeignKeyLinesStep(entities, relationships, j, targetId, attributes);
      if rel.target == targetId {
        var sourceEntity := Sql.FindEntity(entities, rel.source);
        if sourceEntity.Some? {
          var sourcePrimaryKey := Sql.PrimaryKey(sourceEntity.value);
          if sourcePrimaryKey.Some? {
            pushed := pushed + [Sql.ForeignKeyLine(sourceEntity.value, sourcePrimaryKey.value)];
          }
        }
      }
      j := j + 1;
    }
    assert relationships[..j] == relationships;
  }

  class ModelingStore {
    var entities: seq<Entity>
    var relationships: seq<Relationship>
    var history: seq<HistoryEntry>
    var currentHistoryIndex: int

    ghost function State(): StoreState
      reads this
    {
      StoreState(Model(entities, relationships), history, currentHistoryIndex)
    }

    ghost predicate Valid()
      reads this
    {
      WellFormed(State())
    }

    constructor ()
      ensures Valid() && State() == Initial
    {
      entities, relationships, history, currentHistoryIndex := [], [], [], -1;
    }

    method AddToHistory(action: string)
      requires Valid()
      modifies this
      ensures Valid() && State() == Record(old(State()), action)
    {
      history := history[..currentHistoryIndex + 1] + [HistoryEntry(action, Model(entities, relationships))];
      currentHistoryIndex := currentHistoryIndex + 1;
    }

    method AddEntity(entity: Entity, viewportWidth: real, viewportHeight: real)
      requires Valid()
      modifies this
      ensures Valid() && State() == AddEntityStep(old(State()), entity, viewportWidth, viewportHeight)
    {
      var next := Mutations.AddEntity(Model(entities, relationships), entity, viewportWidth, viewportHeight);
      AddToHistory("Added entity: " + entity.name);
      entities := next.entities;
    }

    method UpdateEntity(id: string, p: EntityPatch)
      requires Valid()
      modifies this
      ensures Valid() && State() == UpdateEntityStep(old(State()), id, p)
    {
      var next := Mutations.UpdateEntity(Model(entities, relationships), id, p);
      AddToHistory("Updated entity: " + id);
      entities := next.entities;
    }

    method RemoveEntity(id: string)
      requires Valid()
      modifies this
      ensures Valid() && State() == RemoveEntityStep(old(State()), id)
    {
      var next := Mutations.RemoveEntity(Model(entities, relationships), id);
      AddToHistory("Removed entity: " + id);
      entities, relationships := next.entities, next.relationships;
    }

    method AddRelationship(rel: Relationship)
      requires Valid()
      modifies this
      ensures Valid() && State() == AddRelationshipStep(old(State()), rel)
    {
      if !HasPair(relationships, rel.source, rel.target) {
        var next := Mutations.AddRelationship(Model(entities, relationships), rel);
        AddToHistory("Added relationship");
        relationships := next.relationships;
      }
    }

    method RemoveRelationship(id: string)
      requires Valid()
      modifies this
      ensures Valid() && State() == RemoveRelationshipStep(old(State()), id)
    {
      var next := Mutations.RemoveRelationship(Model(entities, relationships), id);
      AddToHistory("Removed relationship: " + id);
      relationships := next.relationships;
    }

    method UpdateRelationship(id: string, p: RelationshipPatch)
      requires Valid()
      modifies this
      ensures Valid() && State() == UpdateRelationshipStep(old(State()), id, p)
    {
      relationships := Mutations.UpdateRelationship(Model(entities, relationships), id, p).relationships;
    }

    method CreateJunctionTable(relationshipId: string, source: Entity, target: Entity, ids: JunctionIds)
      requires Valid()
      modifies this
      ensures Valid() && State() == CreateJunctionStep(old(State()), relationshipId, source, target, ids)
    {
      var next := Mutations.CreateJunction(Model(entities, relationships), relationshipId, source, target, ids);
      entities, relationships := next.entities, next.relationships;
    }

    method Undo()
      requires Valid()
      modifies this
      ensures Valid() && State() == UndoStep(old(State()))
    {
      if currentHistoryIndex > 0 {
        var previous := history[currentHistoryIndex - 1].state;
        entities, relationships := previous.entities, previous.relationships;
        currentHistoryIndex := currentHistoryIndex - 1;
      }
    }

    method Redo()
      requires Valid()
      modifies this
      ensures Valid() && State() == RedoStep(old(State()))
    {
      if currentHistoryIndex < |history| - 1 {
        var next := history[currentHistoryIndex + 1].state;
        entities, relationships := next.entities, next.relationships;
        currentHistoryIndex := currentHistoryIndex + 1;
      }
    }

    /** `generateSQL`: appends one CREATE TABLE block per entity, in order,
        with its column lines and then its foreign-key lines. */
    method GenerateSql() returns (sql: string)
      ensures sql == Sql.Script(Model(entities, relationships))
    {
      sql := "";
      var i := 0;
      while i < |entities|
        invariant 0 <= i <= |entities|
        invariant sql == Sql.Tables(entities[..i], entities, relationships)
      {
        var entity := entities[i];
        var header := "CREATE TABLE " + Lower(entity.name) + " (\n";
        var attributes := Sql.ColumnLines(entity.attributes);
        attributes := PushForeignKeys(attributes, entities, relationships, entity.id);
        Sql.TablesStep(entities, relationships, i);
        sql := sql + (header + Join(attributes, ",\n") + "\n);\n\n");
        i := i + 1;
      }
      assert entities[..i] == entities;
    }
  }
}
