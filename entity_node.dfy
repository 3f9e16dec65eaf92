/** The edit buffer of an entity node: a local copy of the entity's name and
    attributes that is edited freely and reaches the store only on save. */
module EntityNode {
  import opened Wrappers
  import opened Seqs
  import opened Types
  import Store

  /** A store action the node invokes. */
  datatype NodeCall =
    | UpdateEntityCall(id: string, patch: EntityPatch)
    | RemoveEntityCall(id: string)

  /** The attribute `addAttribute` appends, with its clock-derived id. */
  function NewAttribute(id: string): (a: Attribute)
    ensures a.id == id && a.name == "newAttribute" && a.dataType == "VARCHAR(255)"
    ensures !a.isPrimary && a.isNullable
  {
    Attribute(id, "newAttribute", "VARCHAR(255)", false, true)
  }

  /** `removeAttribute`'s filter. */
  function WithoutAttribute(attributes: seq<Attribute>, attrId: string): (r: seq<Attribute>)
    ensures |r| <= |attributes|
    ensures forall a :: a in r <==> a in attributes && a.id != attrId
  {
    Filter(attributes, (a: Attribute) => a.id != attrId)
  }

  /** Removal works piecewise, so the attributes that stay keep their order. */
  lemma WithoutAttributeAppend(a: seq<Attribute>, b: seq<Attribute>, attrId: string)
    ensures WithoutAttribute(a + b, attrId) == WithoutAttribute(a, attrId) + WithoutAttribute(b, attrId)
  {
    FilterAppend(a, b, (x: Attribute) => x.id != attrId);
  }

  /** Removing an id no attribute has changes nothing. */
  lemma WithoutAbsentAttribute(attributes: seq<Attribute>, attrId: string)
    requires forall a :: a in attributes ==> a.id != attrId
    ensures WithoutAttribute(attributes, attrId) == attributes
  {
    FilterKeepsAll(attributes, (x: Attribute) => x.id != attrId);
  }

  /** A freshly added attribute is removed again by its own id, and the rest
      of the buffer comes back as it was, provided no earlier attribute
      shares that id. */
  lemma AddThenRemove(attributes: seq<Attribute>, freshId: string)
    requires forall a :: a in attributes ==> a.id != freshId
    ensures WithoutAttribute(attributes + [NewAttribute(freshId)], freshId) == attributes
  {
    WithoutAttributeAppend(attributes, [NewAttribute(freshId)], freshId);
    WithoutAbsentAttribute(attributes, freshId);
    assert WithoutAttribute([NewAttribute(freshId)], freshId) == [];
  }

  /** `updateAttribute`'s map with object spread. */
  function WithAttributeUpdated(attributes: seq<Attribute>, attrId: string, p: AttributePatch): (r: seq<Attribute>)
    ensures |r| == |attributes|
    ensures forall i :: 0 <= i < |attributes| && attributes[i].id != attrId ==> r[i] == attributes[i]
    ensures forall i :: 0 <= i < |attributes| && attributes[i].id == attrId ==> r[i] == MergeAttribute(attributes[i], p)
  {
    UpdateWhere(attributes, (a: Attribute) => a.id == attrId, (a: Attribute) => MergeAttribute(a, p))
  }

  /** The patch `handleSave` sends: the buffer's name and attributes, nothing else. */
  function SavePatch(name: string, attributes: seq<Attribute>): (p: EntityPatch)
    ensures forall e :: MergeEntity(e, p) == e.(name := name, attributes := attributes)
  {
    EntityPatch(None, Some(name), Some(attributes), None)
  }

  /** Saving reaches the store as one recorded update: the entity with the
      node's id takes the buffer's name and attributes and keeps its id and
      position; every other entity, and every relationship, is unchanged. */
  lemma SaveReachesStore(s: Store.StoreState, id: string, name: string, attributes: seq<Attribute>)
    requires Store.WellFormed(s)
    ensures var r := Store.UpdateEntityStep(s, id, SavePatch(name, attributes));
      && r.cursor == s.cursor + 1 && r.history[r.cursor].state == s.live
      && r.live.relationships == s.live.relationships
      && |r.live.entities| == |s.live.entities|
      && (forall i :: 0 <= i < |s.live.entities| && s.live.entities[i].id != id ==>
            r.live.entities[i] == s.live.entities[i])
      && (forall i :: 0 <= i < |s.live.entities| && s.live.entities[i].id == id ==>
            r.live.entities[i] == s.live.entities[i].(name := name, attributes := attributes))
  {
  }

  /** One node's editor; `data` is the entity the node was rendered with. */
  class EntityEditor {
    const data: Entity
    var isEditing: bool
    var editedName: string
    var editedAttributes: seq<Attribute>

    /** The buffer starts as a copy of the entity's name and attributes. */
    constructor (data: Entity)
      ensures this.data == data && !isEditing
      ensures editedName == data.name && editedAttributes == data.attributes
    {
      this.data := data;
      isEditing := false;
      editedName := data.name;
      editedAttributes := data.attributes;
    }

    /** The edit button flips the mode and keeps the buffer. */
    method ToggleEditing()
      modifies this
      ensures isEditing == !old(isEditing)
      ensures editedName == old(editedName) && editedAttributes == old(editedAttributes)
    {
      isEditing := !isEditing;
    }

    /** The name input. */
    method SetName(name: string)
      modifies this
      ensures editedName == name
      ensures isEditing == old(isEditing) && editedAttributes == old(editedAttributes)
    {
      editedName := name;
    }

    /** `addAttribute`, with the clock-derived id as `freshId`. */
    method AddAttribute(freshId: string)
      modifies this
      ensures editedAttributes == old(editedAttributes) + [NewAttribute(freshId)]
      ensures isEditing == old(isEditing) && editedName == old(editedName)
    {
      editedAttributes := editedAttributes + [NewAttribute(freshId)];
    }

    /** `removeAttribute`. */
    method RemoveAttribute(attrId: string)
      modifies this
      ensures editedAttributes == WithoutAttribute(old(editedAttributes), attrId)
      ensures isEditing == old(isEditing) && editedName == old(editedName)
    {
      editedAttributes := WithoutAttribute(editedAttributes, attrId);
    }

    /** `updateAttribute`. */
    method UpdateAttribute(attrId: string, p: AttributePatch)
      modifies this
      ensures editedAttributes == WithAttributeUpdated(old(editedAttributes), attrId, p)
      ensures isEditing == old(isEditing) && editedName == old(editedName)
    {
      editedAttributes := WithAttributeUpdated(editedAttributes, attrId, p);
    }

    /** `handleSave`: one store update with the buffer, then editing ends. */
    method Save() returns (call: NodeCall)
      modifies this
      ensures call == UpdateEntityCall(data.id, SavePatch(editedName, editedAttributes))
      ensures !isEditing && editedName == old(editedName) && editedAttributes == old(editedAttributes)
    {
      call := UpdateEntityCall(data.id, SavePatch(editedName, editedAttributes));
      isEditing := false;
    }

    /** The delete button. */
    method Remove() returns (call: NodeCall)
      ensures call == RemoveEntityCall(data.id)
    {
      call := RemoveEntityCall(data.id);
    }
  }
}
