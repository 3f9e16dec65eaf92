# MCD-maker schema store, modelled in Dafny

MCD-maker is a browser tool for drawing entity-relationship diagrams and
exporting them as a SQL script. This project models its core:

- **The modeling store** (`src/store/modelingStore.ts`). It holds four fields:
  - `entities`: tables with their attributes and a canvas position;
  - `relationships`: directed links carrying a cardinality on each end;
  - `history`: a linear list of snapshots;
  - `currentHistoryIndex`: the cursor into that list.

  On top of these fields it offers:
  - the edit commands `addEntity`, `updateEntity`, `removeEntity`,
    `addRelationship`, `removeRelationship`, `updateRelationship` and
    `createJunctionTable`;
  - `undo` and `redo`;
  - `generateSQL`, which turns the model into `CREATE TABLE` blocks.
- **The cardinality editor of an edge** (`src/components/CustomEdge.tsx`). The
  user picks `0`, `1` or `n` for each end. On save, an `n:n` pair asks
  whether to replace the relationship by a junction table.
- **The edit buffer of an entity node** (`src/components/EntityNode.tsx`). It is
  a local copy of the entity's name and attributes. The copy reaches the
  store only when the user saves.

Layout:

| file | module | contents |
|---|---|---|
| `wrappers.dfy` | `Wrappers` | `Option` |
| `seqs.dfy` | `Seqs` | `filter`, `map`-with-merge, `findIndex`/`find` over sequences |
| `text.dfy` | `Text` | ASCII `toLowerCase`, `join`, `split` and their laws |
| `types.dfy` | `Types` | `Entity`, `Attribute`, `Relationship`, the `Partial<...>` patches and their spread merge |
| `mutations.dfy` | `Mutations` | the new collections each store command builds |
| `schema_laws.dfy` | `SchemaLaws` | invariants the commands keep (unique pairs, dangling-free links), the junction replacement |
| `sql.dfy` | `Sql` | the script `generateSQL` produces, as functions, and its examples |
| `store.dfy` | `Store` | history steps on the four fields, undo/redo laws, the class `ModelingStore` |
| `custom_edge.dfy` | `CustomEdge` | the class `CardinalityEditor` and the label parse |
| `entity_node.dfy` | `EntityNode` | the class `EntityEditor` and its list updates |

Each store command is modelled twice:
- as a function on a `StoreState` value: `Record`, `AddEntityStep`, `UndoStep`
  and the rest. The lemmas about histories are stated on these functions;
- as a method of `ModelingStore`. Each method updates the four fields in place
  and ensures `State() == <step>(old(State()))`.

`ModelingStore.GenerateSql` is written as the loops of the source. Its inner
`filter(...).forEach(push)` loop is the method `PushForeignKeys`. The result is
proved equal to the specification function `Sql.Script`.

Behaviour of the source that the model keeps as written:

- **Pre-action snapshots.** `addToHistory` runs before the command's own
  `set` lands. Each history entry therefore holds the model from *before* its
  command, not the model the command produces. Consequences, each proved:
  - the first entry is always the empty model (`Store.RunKeepsReachable`);
  - after one command there is nothing to undo (`Store.FirstCommandCannotBeUndone`);
  - one undo after two additions empties the canvas, and redo brings back only
    the first addition (`Store.UndoAfterTwoAdditions`).
- **Commands that always record.** `updateEntity` and `removeRelationship`
  record an entry even when no element has the id.
- **Commands that never record.** `updateRelationship` and
  `createJunctionTable` never touch the history.
- **The accepted `n:n` save.** It calls `createJunctionTable` and then still
  reports `n:n` for the id that was just removed. That second update matches
  nothing.
- **The junction table's SQL.**
  - Both key columns carry `PRIMARY KEY`.
  - Its foreign-key column reuses the name `<source>_id` of its first key
    column (`Sql.JunctionTableLines`).

## Model

| member | source | states |
|---|---|---|
| Types.MergeAttribute | src/components/EntityNode.tsx:47 | `{ ...attr, ...updates }`: each field the patch gives overrides; used by `EntityNode.WithAttributeUpdated` |
| Types.MergeRelationship | src/store/modelingStore.ts:199 | `{ ...rel, ...updates }`: each field the patch gives overrides; used by `Mutations.UpdateRelationship` |
| Types.MergeEntity | src/store/modelingStore.ts:89 | `{ ...entity, ...updatedEntity }`: each field the patch gives overrides |
| Text.Lower | src/store/modelingStore.ts:163 | `toLowerCase` on ASCII: same length, each letter A-Z mapped to its lower case, result has no upper-case letter |
| Text.Join | src/store/modelingStore.ts:189 | `join`: the parts with the separator between neighbours; `Text.SplitJoin` states that `Split` inverts it |
| Text.Split | src/components/CustomEdge.tsx:19-20 | `split` on one character: at least one piece, no piece holds the separator, and joining the pieces with it gives the input back |
| Text.SplitJoin | src/components/CustomEdge.tsx:19-20 | `split` undoes `join` when no part holds the separator |
| Mutations.GridPositionsDistinct | src/store/modelingStore.ts:56-69 | different entity indices get different grid cells; every cell lies in one of three columns at -250, 0, +250 from the viewport centre, and at most one row above it |
| Mutations.GridPosition | src/store/modelingStore.ts:56-69 | the grid cell of entity number `index`: column `index % 3` and row `index / 3`, 250 apart, offset from the viewport centre by one cell up and left; its properties are stated by `Mutations.GridPositionsDistinct` |
| Mutations.AddEntity | src/store/modelingStore.ts:54-83 | exactly one entity appended at the end, earlier entities and relationships unchanged; it keeps id, name and attributes and its position is overwritten by the grid cell of the old count |
| Mutations.UpdateEntity | src/store/modelingStore.ts:85-94 | only entities with the id change, to the merge with the patch; length, order and relationships preserved |
| Mutations.RemoveEntity | src/store/modelingStore.ts:96-106 | an entity survives iff it was there and has another id; a relationship survives iff it was there and neither starts nor ends at the id; neither list grows |
| Mutations.RemoveEntityAppend | src/store/modelingStore.ts:99-101 | both filters work piecewise over concatenated lists, so the survivors keep their original order and their number is the sum of the parts' |
| Mutations.HasPair | src/store/modelingStore.ts:111-115 | the `some` test: a relationship with this ordered source/target pair exists |
| Mutations.AddRelationship | src/store/modelingStore.ts:108-125 | an existing ordered pair leaves the model unchanged; otherwise the relationship is appended; either way the pair is present afterwards |
| Mutations.RemoveRelationship | src/store/modelingStore.ts:127-134 | a relationship survives iff it was there and has another id; the list does not grow; entities unchanged |
| Mutations.RemoveRelationshipAppend | src/store/modelingStore.ts:130 | the filter works piecewise over concatenated lists, so the relationships that stay keep their order |
| Mutations.UpdateRelationship | src/store/modelingStore.ts:196-201 | only relationships with the id change, to the merge with the patch; length, order and entities preserved |
| Mutations.JunctionEntity | src/store/modelingStore.ts:208-234 | the junction entity: named `<lower source>_<lower target>`, two INTEGER primary non-null columns `<lower side>_id`, placed 100 below the midpoint; its shape is stated by `SchemaLaws.CreateJunctionCounts` and `SchemaLaws.StudentCourseNames` |
| Mutations.JunctionLinks | src/store/modelingStore.ts:237-254 | the two replacement links, source to junction as `1`:`n` and junction to target as `n`:`1`; used by `SchemaLaws.CreateJunctionKeepsLinked` and `Sql.JunctionForeignKeys` |
| Mutations.HasRelationship | src/store/modelingStore.ts:205 | the `find` test: some relationship carries the id |
| Mutations.CreateJunction | src/store/modelingStore.ts:203-263 | unknown relationship id: model unchanged; otherwise the junction entity is appended, every relationship with the id is dropped and the two links are appended |
| SchemaLaws.FilterKeepsPairsUnique | src/store/modelingStore.ts:99-101 | filtering relationships never creates a duplicate ordered pair |
| SchemaLaws.AddRelationshipKeepsPairsUnique | src/store/modelingStore.ts:111-124 | `addRelationship` keeps every ordered pair unique |
| SchemaLaws.RemoveEntityKeepsPairsUnique | src/store/modelingStore.ts:96-106 | `removeEntity` keeps every ordered pair unique |
| SchemaLaws.RemoveRelationshipKeepsPairsUnique | src/store/modelingStore.ts:127-134 | `removeRelationship` keeps every ordered pair unique |
| SchemaLaws.AddRelationshipTwice | src/store/modelingStore.ts:108-125 | adding the same ordered pair twice equals adding it once, leaving exactly one relationship with that pair |
| SchemaLaws.CountedPairExists | src/store/modelingStore.ts:111-115 | a pair counted at least once is found by the `some` test |
| SchemaLaws.RemoveEntityKeepsLinked | src/store/modelingStore.ts:96-106 | the cascade leaves no relationship pointing at a removed entity |
| SchemaLaws.UpdateEntityKeepsLinked | src/store/modelingStore.ts:85-94 | an update whose patch gives no id or the entity's own id (as a node drag sends the whole entity) keeps every relationship's endpoints present |
| SchemaLaws.AddEntityKeepsLinked | src/store/modelingStore.ts:54-83 | adding an entity keeps every relationship's endpoints present |
| SchemaLaws.AddRelationshipKeepsLinked | src/store/modelingStore.ts:108-125 | adding a relationship between present entities keeps every endpoint present |
| SchemaLaws.RemoveRelationshipKeepsLinked | src/store/modelingStore.ts:127-134 | removing relationships keeps every endpoint present |
| SchemaLaws.CreateJunctionKeepsLinked | src/store/modelingStore.ts:237-262 | the junction replacement between present entities keeps every endpoint present |
| SchemaLaws.CreateJunctionKeepsPairsUnique | src/store/modelingStore.ts:237-262 | with a fresh junction id, the replacement keeps every ordered pair unique |
| SchemaLaws.FilterOtherIdsCount | src/store/modelingStore.ts:259 | filtering out an id removes exactly the relationships that carry it |
| SchemaLaws.CreateJunctionCounts | src/store/modelingStore.ts:211-262 | with one relationship carrying the id: one more entity, net one more relationship, and the new entity has exactly two INTEGER, primary, non-nullable attributes |
| SchemaLaws.CountedIdExists | src/store/modelingStore.ts:205 | a positive count of the id means `find` succeeds |
| SchemaLaws.JunctionThenUpdateIsNoop | src/store/modelingStore.ts:196-201 | after the replacement no relationship carries the replaced id, so `updateRelationship` on it changes nothing |
| SchemaLaws.StudentCourseJunction | src/store/modelingStore.ts:208-229 | Student and Course give the junction `student_course` with columns `student_id` and `course_id`, and the replaced id is gone |
| SchemaLaws.StudentCourseNames | src/store/modelingStore.ts:208-229 | for Student and Course the junction entity is named `student_course` and its columns `student_id` and `course_id` |
| Sql.ColumnLine | src/store/modelingStore.ts:165-170 | one column: two spaces, the lower-cased name, the raw type, then ` PRIMARY KEY` and ` NOT NULL` as the flags say; instances are stated by `Sql.SerialKeyColumn` and `Sql.JunctionKeyColumn` |
| Sql.ColumnLines | src/store/modelingStore.ts:165-170 | one column line per attribute |
| Sql.FindEntity | src/store/modelingStore.ts:175 | `entities.find` by id: the first entity with the id, or none |
| Sql.PrimaryKey | src/store/modelingStore.ts:177-179 | the first primary attribute, or none |
| Sql.ForeignKeyLine | src/store/modelingStore.ts:181-184 | the line `<lower source>_id <key type> REFERENCES <lower source>(<lower key name>)`; its column name is stated by `Sql.ForeignKeyColumnName` |
| Sql.ReferenceLine | src/store/modelingStore.ts:175-186 | a relationship yields a foreign-key line exactly when its source entity is found and has a primary key |
| Sql.ForeignKeyLines | src/store/modelingStore.ts:172-187 | at most one line per relationship; membership, order and the empty case are stated by the three lemmas below and `Sql.ForeignKeyLinesAppend` |
| Sql.TableLines | src/store/modelingStore.ts:165-187 | the `attributes` array of one table: its column lines, then its foreign-key lines |
| Sql.CreateTable | src/store/modelingStore.ts:162-190 | one block: `CREATE TABLE <lower name> (`, the column and foreign-key lines joined by `,\n`, then `\n);\n\n`; its lines are stated by `Sql.NoIncomingNoForeignKeys`, `Sql.UserOrderForeignKey` and `Sql.JunctionTableLines` |
| Sql.Tables | src/store/modelingStore.ts:162-191 | the `forEach` accumulation: the blocks of a list of entities, in order, looked up against the whole model |
| Sql.Script | src/store/modelingStore.ts:158-194 | the blocks of all entities in stored order; `Sql.TablesPrefix` and `Sql.TablesStep` state the order, `Sql.UserScript` an instance, and `Store.ModelingStore.GenerateSql` is proved to return it |
| Sql.ForeignKeyLinesMembers | src/store/modelingStore.ts:172-187 | a line is a foreign-key line of the table iff some relationship targets the entity and its source exists and has a primary key that gives that line |
| Sql.ForeignKeyLinesNone | src/store/modelingStore.ts:172-173 | an entity that nothing targets gets no foreign-key lines |
| Sql.ForeignKeyLinesStep | src/store/modelingStore.ts:174-186 | one more relationship adds its reference line at the end exactly when it targets the entity and resolves |
| Sql.TablesStep | src/store/modelingStore.ts:162-191 | one more entity appends its block at the end of the script |
| Sql.TablesPrefix | src/store/modelingStore.ts:162-191 | blocks are emitted in entity order: the script of a prefix is a prefix of the script |
| Sql.NoIncomingNoForeignKeys | src/store/modelingStore.ts:172-187 | an entity that nothing targets gets only its own columns |
| Sql.UserScript | src/store/modelingStore.ts:158-194 | a lone `User` with primary non-null `id SERIAL` yields `CREATE TABLE user (\n  id SERIAL PRIMARY KEY NOT NULL\n);\n\n` |
| Sql.UserOrderForeignKey | src/store/modelingStore.ts:172-187 | with User to Order, Order's columns are its key and then `user_id SERIAL REFERENCES user(id)` |
| Sql.ForeignKeyLinesAppend | src/store/modelingStore.ts:172-174 | foreign-key lines follow relationship order |
| Sql.JunctionColumns | src/store/modelingStore.ts:208-229 | the junction table's name is already lower case, and its columns are one INTEGER key line per side |
| Sql.JunctionForeignKeys | src/store/modelingStore.ts:237-262 | after the replacement the junction table gets exactly one foreign key, referencing the source's primary key |
| Sql.JunctionTableLines | src/store/modelingStore.ts:182-183 | the junction table's lines are two key columns and a foreign key whose column name repeats the first key column's |
| Sql.ForeignKeyColumnName | src/store/modelingStore.ts:182-183 | a foreign-key line names the column `<lower source>_id` |
| Store.Record | src/store/modelingStore.ts:38-52 | history truncated after the cursor, the live model appended as the entry, cursor on the new last entry, cursor well formed, nothing to redo |
| Store.UndoStep | src/store/modelingStore.ts:136-145 | above 0 the cursor moves down by one and that entry's model is installed; otherwise nothing changes; history unchanged |
| Store.RedoStep | src/store/modelingStore.ts:147-156 | below the last index the cursor moves up by one and that entry's model is installed; otherwise nothing changes; history unchanged |
| Store.AddEntityStep | src/store/modelingStore.ts:54-83 | records the starting model as the new last entry, nothing left to redo, then installs `Mutations.AddEntity` |
| Store.UpdateEntityStep | src/store/modelingStore.ts:85-94 | records the starting model even when no entity matches, nothing left to redo, then installs `Mutations.UpdateEntity` |
| Store.RemoveEntityStep | src/store/modelingStore.ts:96-106 | records the starting model, nothing left to redo, then installs `Mutations.RemoveEntity` |
| Store.AddRelationshipStep | src/store/modelingStore.ts:108-125 | a duplicate pair leaves the whole store, history included, unchanged; otherwise records the starting model and appends |
| Store.RemoveRelationshipStep | src/store/modelingStore.ts:127-134 | records the starting model even when no relationship matches, nothing left to redo, then installs `Mutations.RemoveRelationship` |
| Store.UpdateRelationshipStep | src/store/modelingStore.ts:196-201 | history and cursor untouched; installs `Mutations.UpdateRelationship` |
| Store.CreateJunctionStep | src/store/modelingStore.ts:203-263 | history and cursor untouched; installs `Mutations.CreateJunction` |
| Store.Apply | src/store/modelingStore.ts:32-263 | any one command of the store, or `undo`/`redo`, keeps the cursor well formed |
| Store.Run | src/store/modelingStore.ts:32-263 | a sequence of commands applied first to last keeps the cursor well formed; `Store.RunKeepsReachable` states what it keeps from the initial store |
| Store.CanUndo | src/store/modelingStore.ts:138 | the `undo` guard: the cursor is above 0 |
| Store.CanRedo | src/store/modelingStore.ts:149 | the `redo` guard: an entry follows the cursor |
| Store.ApplyKeepsReachable | src/store/modelingStore.ts:32-52 | every command keeps the cursor well formed, the model empty while the history is empty, and the first entry empty |
| Store.RunKeepsReachable | src/store/modelingStore.ts:32-36 | the same holds for every command sequence from the initial store |
| Store.UndoTimesMovesDown | src/store/modelingStore.ts:136-145 | n undos move the cursor down by n and install that entry's model |
| Store.UndoAllRestoresEmpty | src/store/modelingStore.ts:136-145 | after any commands, whenever an undo is possible, undoing down to cursor 0 installs the empty model and leaves nothing to undo; with cursor 0 (one recorded command) nothing can be undone, see `Store.FirstCommandCannotBeUndone` |
| Store.FirstCommandCannotBeUndone | src/store/modelingStore.ts:136-145 | from the initial store, whatever the first command, the cursor is at most 0 afterwards (`addToHistory` moves it from -1 to 0), so the `undo` guard fails |
| Store.UndoThenRedo | src/store/modelingStore.ts:136-156 | undo then redo returns to the cursor and installs its entry's model |
| Store.RedoThenUndo | src/store/modelingStore.ts:136-156 | redo then undo returns to the cursor and installs its entry's model |
| Store.UndoAfterTwoAdditions | src/store/modelingStore.ts:38-83 | from the initial store, after two additions one undo installs the empty model, and redo installs the model with only the first entity, which differs from the two-entity model the additions built |
| Store.RecordingClearsRedo | src/store/modelingStore.ts:45-51 | every recording command leaves nothing to redo and stores its starting model as the last entry; a duplicate relationship leaves the store unchanged |
| Store.JunctionThenCardinalityChange | src/store/modelingStore.ts:196-201 | `updateRelationship` on the replaced id after `createJunctionTable` leaves the whole store as it was |
| Store.ModelingStore.constructor | src/store/modelingStore.ts:33-36 | empty entities, relationships and history, cursor -1 |
| Store.ModelingStore.AddToHistory | src/store/modelingStore.ts:38-52 | the fields become `Record` of the old fields |
| Store.ModelingStore.AddEntity | src/store/modelingStore.ts:54-83 | records `Added entity: <name>` with the old model, then appends the positioned entity |
| Store.ModelingStore.UpdateEntity | src/store/modelingStore.ts:85-94 | records `Updated entity: <id>` even when nothing matches, then merges the patch |
| Store.ModelingStore.RemoveEntity | src/store/modelingStore.ts:96-106 | records `Removed entity: <id>`, then removes the entity and its relationships |
| Store.ModelingStore.AddRelationship | src/store/modelingStore.ts:108-125 | a duplicate pair changes no field; otherwise records `Added relationship` and appends |
| Store.ModelingStore.RemoveRelationship | src/store/modelingStore.ts:127-134 | records `Removed relationship: <id>` even when nothing matches, then filters |
| Store.ModelingStore.UpdateRelationship | src/store/modelingStore.ts:196-201 | merges the patch into the matching relationships, history and cursor untouched |
| Store.ModelingStore.CreateJunctionTable | src/store/modelingStore.ts:203-263 | installs the junction replacement, history and cursor untouched |
| Store.ModelingStore.Undo | src/store/modelingStore.ts:136-145 | the fields become `UndoStep` of the old fields |
| Store.ModelingStore.Redo | src/store/modelingStore.ts:147-156 | the fields become `RedoStep` of the old fields |
| Store.PushForeignKeys | src/store/modelingStore.ts:172-187 | the inner loop extends the column lines by exactly `Sql.ForeignKeyLines` of the entity, in relationship order |
| Store.ModelingStore.GenerateSql | src/store/modelingStore.ts:158-194 | the script accumulated by the loops equals `Sql.Script` of the entities and relationships |
| CustomEdge.LabelPart | src/components/CustomEdge.tsx:19-20 | a present, non-empty part k of the label split on ':' is returned, and any result other than the fallback is that part; it never holds ':' |
| CustomEdge.ParseLabel | src/components/CustomEdge.tsx:19-20 | the pair read from the label, source defaulting to `1` and target to `n`; both sides are non-empty and colon-free |
| CustomEdge.FormatLabel | src/components/CustomEdge.tsx:67 | the reported value `s:t`; `CustomEdge.LabelRoundTrip` states that it parses back |
| CustomEdge.LabelRoundTrip | src/components/ModelingCanvas.tsx:66 | `s:t` with non-empty colon-free sides, in particular any cardinalities, splits back into `[s, t]` and parses to `(s, t)` |
| CustomEdge.CardinalityIsLabelPart | src/components/CustomEdge.tsx:40 | each of `0`, `1`, `n` survives the label round trip |
| CustomEdge.LabelWithoutColon | src/components/CustomEdge.tsx:19-20 | a label without ':' gives target `n`, and source `1` when empty, else the whole label |
| CustomEdge.CardinalityEditor.constructor | src/components/CustomEdge.tsx:17-20 | not editing, pair parsed from the label |
| CustomEdge.CardinalityEditor.Click | src/components/CustomEdge.tsx:35-37 | editing starts, pair unchanged |
| CustomEdge.CardinalityEditor.Change | src/components/CustomEdge.tsx:39-47 | a cardinality sets only the chosen side; any other value changes nothing; editing flag unchanged |
| CustomEdge.CardinalityEditor.Cancel | src/components/CustomEdge.tsx:71-75 | editing ends and the pair is parsed from the label again |
| CustomEdge.CardinalityEditor.Save | src/components/CustomEdge.tsx:49-69 | declined n:n: no call and cancel; accepted n:n: create the junction table, then report `n:n`; any other pair: report `s:t` once; editing ends, and the pair left in the editor parses back from its formatted label |
| CustomEdge.CardinalityEditor.Delete | src/components/CustomEdge.tsx:31-33 | exactly one delete call with the edge id |
| EntityNode.NewAttribute | src/components/EntityNode.tsx:29-36 | name `newAttribute`, type `VARCHAR(255)`, not primary, nullable, the given id |
| EntityNode.WithoutAttribute | src/components/EntityNode.tsx:40-42 | an attribute stays iff it was there and has another id |
| EntityNode.WithoutAttributeAppend | src/components/EntityNode.tsx:40-42 | removal works piecewise, so the remaining attributes keep their order |
| EntityNode.WithoutAbsentAttribute | src/components/EntityNode.tsx:40-42 | removing an absent id changes nothing |
| EntityNode.AddThenRemove | src/components/EntityNode.tsx:27-42 | removing a freshly added attribute by its fresh id restores the buffer |
| EntityNode.WithAttributeUpdated | src/components/EntityNode.tsx:44-50 | only attributes with the id change, to the merge with the patch; length and order preserved |
| EntityNode.SavePatch | src/components/EntityNode.tsx:20-23 | merged into any entity, the patch sets the name and the attributes and keeps the id and position |
| EntityNode.SaveReachesStore | src/components/EntityNode.tsx:19-25 | the store's update records the old model and gives the node's entity the buffer's name and attributes, keeping its id and position; nothing else changes |
| EntityNode.EntityEditor.constructor | src/components/EntityNode.tsx:13-15 | not editing, buffer copied from the entity |
| EntityNode.EntityEditor.ToggleEditing | src/components/EntityNode.tsx:75 | the mode flips, buffer unchanged |
| EntityNode.EntityEditor.SetName | src/components/EntityNode.tsx:64 | only the buffered name changes |
| EntityNode.EntityEditor.AddAttribute | src/components/EntityNode.tsx:27-38 | exactly the new attribute is appended |
| EntityNode.EntityEditor.RemoveAttribute | src/components/EntityNode.tsx:40-42 | the buffer becomes `WithoutAttribute` of the old buffer |
| EntityNode.EntityEditor.UpdateAttribute | src/components/EntityNode.tsx:44-50 | the buffer becomes `WithAttributeUpdated` of the old buffer |
| EntityNode.EntityEditor.Save | src/components/EntityNode.tsx:19-25 | exactly one `updateEntity(data.id, {name, attributes})` call with the buffer; editing ends |
| EntityNode.EntityEditor.Remove | src/components/EntityNode.tsx:81 | exactly one `removeEntity(data.id)` call |

## Left out

- Rendering, styling and React Flow wiring: paths, hover sizes, theme classes, JSX. These are presentation only.
- `window.innerWidth` / `window.innerHeight` are parameters of `AddEntity`. Positions are exact reals, so floating-point rounding is not modelled.
- `Date.now()` ids are parameters: `JunctionIds` for `createJunctionTable` and `freshId` for `addAttribute`. The model does not take the clock's values to be distinct; lemmas that need distinct ids require them.
- `window.confirm` is the `confirmed` parameter of `Save`.
- Callbacks and store calls made by the components are returned as call lists (`EdgeCall`, `NodeCall`). The `await` around `onCreateJunctionTable` is not modelled.
- The canvas glue in `src/components/ModelingCanvas.tsx` is not part of this model. Its `handleCardinalityChange` calls an `updateRelationship` it never takes from the store, and its own `handleCardinalitySave` uses undefined names. The edge model therefore stops at the calls the editor makes.
- A missing edge `data`, a missing callback, and missing `sourceEntity` / `targetEntity` (`find` returning `undefined`) are not modelled. The editor takes the label and both entities as given.
- Text.Lower: `toLowerCase` is modelled on ASCII letters only. Other Unicode case mappings are not modelled.
- The zustand `create` / `set` / `get` mechanics are not modelled. The nested `set` from `addToHistory` is modelled by its effect: the entry holds the model from before the command.
- The theme store, the toolbar download of the script, `Math.random` positions in the toolbar, and the sidebar's enabling of the undo/redo buttons are not modelled.
- `ModelingStore` methods require `Valid()`, the well-formed cursor. The constructor establishes it and every method keeps it.
