/** The cardinality editor of a relationship edge: a small state machine over
    `isEditingCard`, `sourceCard` and `targetCard`, and the callbacks it invokes
    through its `data`. */
module CustomEdge {
  import opened Text
  import opened Types

  datatype Side = SourceSide | TargetSide

  /** A callback the edge invokes through its `data`. */
  datatype EdgeCall =
    | CardinalityChange(edgeId: string, value: string)
    | CreateJunctionTable(edgeId: string, sourceEntity: Entity, targetEntity: Entity)
    | DeleteEdge(edgeId: string)

  /** The three values the selects offer. */
  predicate IsCardinality(v: string) {
    v == "0" || v == "1" || v == "n"
  }

  /** A side value that survives being written into a label and read back. */
  predicate IsLabelPart(v: string) {
    v != "" && ':' !in v
  }

  /** `label.split(':')[k] || fallback`: a missing or empty part gives the fallback. */
  function LabelPart(edgeLabel: string, k: nat, fallback: string): (r: string)
    ensures r == fallback || IsLabelPart(r)
    ensures r != fallback ==> k < |Split(edgeLabel, ':')| && r == Split(edgeLabel, ':')[k]
    ensures k < |Split(edgeLabel, ':')| && Split(edgeLabel, ':')[k] != "" ==> r == Split(edgeLabel, ':')[k]
  {
    var parts := Split(edgeLabel, ':');
    if k < |parts| && parts[k] != "" then parts[k] else fallback
  }

  /** The pair the editor starts from and returns to on cancel. */
  function ParseLabel(edgeLabel: string): (pair: (string, string))
    ensures IsLabelPart(pair.0) && IsLabelPart(pair.1)
  {
    (LabelPart(edgeLabel, 0, "1"), LabelPart(edgeLabel, 1, "n"))
  }

  /** The value sent with `onCardinalityChange`, the same shape as the canvas's edge label. */
  function FormatLabel(s: string, t: string): string {
    s + ":" + t
  }

  lemma JoinPair(s: string, t: string)
    ensures Join([s, t], [':']) == FormatLabel(s, t)
  {
    assert [s, t][1..] == [t];
  }

  /** Reading a formatted pair back gives the pair, whenever neither side is
      empty or holds a colon, in particular for every cardinality. */
  lemma LabelRoundTrip(s: string, t: string)
    requires IsLabelPart(s) && IsLabelPart(t)
    ensures ParseLabel(FormatLabel(s, t)) == (s, t)
    ensures Split(FormatLabel(s, t), ':') == [s, t]
  {
    JoinPair(s, t);
    SplitJoin([s, t], ':');
  }

  lemma CardinalityIsLabelPart(v: string)
    requires IsCardinality(v)
    ensures IsLabelPart(v)
  {
  }

  /** A label without a colon is all source side; the target falls back to "n",
      and the source to "1" when the label is empty. */
  lemma LabelWithoutColon(edgeLabel: string)
    requires ':' !in edgeLabel
    ensures ParseLabel(edgeLabel) == (if edgeLabel == "" then "1" else edgeLabel, "n")
  {
    SplitPiece(edgeLabel, ':');
  }

  /** One edge's editor; `data` (the label and both end entities) is fixed for its lifetime. */
  class CardinalityEditor {
    const id: string
    const edgeLabel: string
    const sourceEntity: Entity
    const targetEntity: Entity
    var isEditingCard: bool
    var sourceCard: string
    var targetCard: string

    /** Both sides can always be written into a label and read back. */
    ghost predicate Valid()
      reads this
    {
      IsLabelPart(sourceCard) && IsLabelPart(targetCard)
    }

    /** The initial state parses the edge's label. */
    constructor (id: string, edgeLabel: string, sourceEntity: Entity, targetEntity: Entity)
      ensures Valid()
      ensures this.id == id && this.edgeLabel == edgeLabel
      ensures this.sourceEntity == sourceEntity && this.targetEntity == targetEntity
      ensures !isEditingCard && (sourceCard, targetCard) == ParseLabel(edgeLabel)
    {
      this.id := id;
      this.edgeLabel := edgeLabel;
      this.sourceEntity := sourceEntity;
      this.targetEntity := targetEntity;
      isEditingCard := false;
      sourceCard := LabelPart(edgeLabel, 0, "1");
      targetCard := LabelPart(edgeLabel, 1, "n");
    }

    /** `handleCardinalityClick`. */
    method Click()
      requires Valid()
      modifies this
      ensures Valid() && isEditingCard
      ensures sourceCard == old(sourceCard) && targetCard == old(targetCard)
    {
      isEditingCard := true;
    }

    /** `handleCardinalityChange`: only a cardinality is taken, and only on the chosen side. */
    method Change(side: Side, value: string)
      requires Valid()
      modifies this
      ensures Valid() && isEditingCard == old(isEditingCard)
      ensures IsCardinality(value) && side == SourceSide ==> sourceCard == value && targetCard == old(targetCard)
      ensures IsCardinality(value) && side == TargetSide ==> targetCard == value && sourceCard == old(sourceCard)
      ensures !IsCardinality(value) ==> sourceCard == old(sourceCard) && targetCard == old(targetCard)
    {
      if IsCardinality(value) {
        if side == SourceSide {
          sourceCard := value;
        } else {
          targetCard := value;
        }
      }
    }

    /** `handleCardinalityCancel`: leaves editing and restores the label's pair. */
    method Cancel()
      requires Valid()
      modifies this
      ensures Valid() && !isEditingCard && (sourceCard, targetCard) == ParseLabel(edgeLabel)
    {
      isEditingCard := false;
      sourceCard := LabelPart(edgeLabel, 0, "1");
      targetCard := LabelPart(edgeLabel, 1, "n");
    }

    /** `handleCardinalitySave`, with the answer to the confirmation dialog as
        `confirmed` (asked only for n:n). A declined n:n cancels and calls
        nothing; an accepted one creates the junction table and then still
        reports "n:n"; any other pair is reported once. Whatever the branch,
        the pair left in the editor reads back from its formatted label. */
    method Save(confirmed: bool) returns (calls: seq<EdgeCall>)
      requires Valid()
      modifies this
      ensures Valid() && !isEditingCard
      ensures ParseLabel(FormatLabel(sourceCard, targetCard)) == (sourceCard, targetCard)
      ensures var manyToMany := old(sourceCard) == "n" && old(targetCard) == "n";
        if manyToMany && !confirmed then
          calls == [] && (sourceCard, targetCard) == ParseLabel(edgeLabel)
        else
          && sourceCard == old(sourceCard) && targetCard == old(targetCard)
          && calls == (if manyToMany then [CreateJunctionTable(id, sourceEntity, targetEntity)] else [])
                      + [CardinalityChange(id, FormatLabel(sourceCard, targetCard))]
    {
      calls := [];
      if sourceCard == "n" && targetCard == "n" {
        if confirmed {
          calls := calls + [CreateJunctionTable(id, sourceEntity, targetEntity)];
        } else {
          Cancel();
          LabelRoundTrip(sourceCard, targetCard);
          return;
        }
      }
      isEditingCard := false;
      calls := calls + [CardinalityChange(id, FormatLabel(sourceCard, targetCard))];
      LabelRoundTrip(sourceCard, targetCard);
    }

    /** `onDelete`: asks for the edge's relationship to be removed. */
    method Delete() returns (calls: seq<EdgeCall>)
      ensures calls == [DeleteEdge(id)]
    {
      calls := [DeleteEdge(id)];
    }
  }
}
