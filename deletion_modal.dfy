/** The dialog `DeletionModal` (src/components/DeletionModal.tsx): the same
    selection state and handlers as the edit dialog, but its save writes the
    selected lists into the prop record as they are, with no re-fetch. */
module Deletion {
  import opened Terpenes
  import opened Lists

  /** `handleDelete`'s record: the prop `terpene` with its three lists
      replaced by the selection, citations untouched. */
  function DeletionRecord(terpene: TerpeneObject, smells: seq<Attribute>, tastes: seq<Attribute>,
                          properties: seq<Attribute>): (r: TerpeneObject)
    ensures r.terpeneId == terpene.terpeneId && r.terpene == terpene.terpene
    ensures r.synonyms == terpene.synonyms
    ensures r.smells == Some(smells) && r.tastes == Some(tastes) && r.properties == Some(properties)
  {
    terpene.(smells := Some(smells), tastes := Some(tastes), properties := Some(properties))
  }

  /** After the sync effect and any chip deletes (and no dropdown change), the
      saved lists are the terpene's lists with entries left out: order kept,
      and every saved entry is one of the terpene's, citation included. */
  lemma {:induction false} DeletesOnlyRemove(terpene: TerpeneObject, smellDeletes: seq<Attribute>,
                          tasteDeletes: seq<Attribute>, propertyDeletes: seq<Attribute>)
    ensures var r := DeletionRecord(terpene, WithoutAll(OrEmpty(terpene.smells), smellDeletes),
                                    WithoutAll(OrEmpty(terpene.tastes), tasteDeletes),
                                    WithoutAll(OrEmpty(terpene.properties), propertyDeletes));
            && IsSubsequence(r.smells.value, OrEmpty(terpene.smells))
            && IsSubsequence(r.tastes.value, OrEmpty(terpene.tastes))
            && IsSubsequence(r.properties.value, OrEmpty(terpene.properties))
            && (forall e :: e in r.smells.value ==> e in OrEmpty(terpene.smells))
            && (forall e :: e in r.tastes.value ==> e in OrEmpty(terpene.tastes))
            && (forall e :: e in r.properties.value ==> e in OrEmpty(terpene.properties))
  {
    WithoutAllIsSubsequence(OrEmpty(terpene.smells), smellDeletes);
    WithoutAllIsSubsequence(OrEmpty(terpene.tastes), tasteDeletes);
    WithoutAllIsSubsequence(OrEmpty(terpene.properties), propertyDeletes);
    SubsequenceMembers(WithoutAll(OrEmpty(terpene.smells), smellDeletes), OrEmpty(terpene.smells));
    SubsequenceMembers(WithoutAll(OrEmpty(terpene.tastes), tasteDeletes), OrEmpty(terpene.tastes));
    SubsequenceMembers(WithoutAll(OrEmpty(terpene.properties), propertyDeletes), OrEmpty(terpene.properties));
  }

  class DeletionModal {
    var selectedTastes: seq<Attribute>
    var selectedSmells: seq<Attribute>
    var selectedProperties: seq<Attribute>
    /** The snapshot that Reset returns to. */
    var initialTastes: seq<Attribute>
    var initialSmells: seq<Attribute>
    var initialProperties: seq<Attribute>

    /** Mounting with the prop `terpene`: the state initialisers (the
        selection from the prop, an empty snapshot) followed by the first run
        of the sync effect, which sets both and replaces null lists by []. */
    constructor (terpene: TerpeneObject)
      ensures selectedTastes == initialTastes == OrEmpty(terpene.tastes)
      ensures selectedSmells == initialSmells == OrEmpty(terpene.smells)
      ensures selectedProperties == initialProperties == OrEmpty(terpene.properties)
    {
      selectedTastes, selectedSmells, selectedProperties :=
        OrEmpty(terpene.tastes), OrEmpty(terpene.smells), OrEmpty(terpene.properties);
      initialTastes, initialSmells, initialProperties :=
        OrEmpty(terpene.tastes), OrEmpty(terpene.smells), OrEmpty(terpene.properties);
    }

    /** The effect run when the prop `terpene` changes: both the selection and
        the snapshot become the terpene's lists. */
    method SyncTerpene(terpene: TerpeneObject)
      modifies this
      ensures selectedTastes == initialTastes == OrEmpty(terpene.tastes)
      ensures selectedSmells == initialSmells == OrEmpty(terpene.smells)
      ensures selectedProperties == initialProperties == OrEmpty(terpene.properties)
    {
      selectedTastes, selectedSmells, selectedProperties :=
        OrEmpty(terpene.tastes), OrEmpty(terpene.smells), OrEmpty(terpene.properties);
      initialTastes, initialSmells, initialProperties :=
        OrEmpty(terpene.tastes), OrEmpty(terpene.smells), OrEmpty(terpene.properties);
    }

    method DeleteTaste(taste: Attribute)
      modifies this`selectedTastes
      ensures selectedTastes == Without(old(selectedTastes), taste)
      ensures IsSubsequence(selectedTastes, old(selectedTastes))
    {
      WithoutIsSubsequence(selectedTastes, taste);
      selectedTastes := Without(selectedTastes, taste);
    }

    method DeleteSmell(smell: Attribute)
      modifies this`selectedSmells
      ensures selectedSmells == Without(old(selectedSmells), smell)
      ensures IsSubsequence(selectedSmells, old(selectedSmells))
    {
      WithoutIsSubsequence(selectedSmells, smell);
      selectedSmells := Without(selectedSmells, smell);
    }

    method DeleteProperty(property: Attribute)
      modifies this`selectedProperties
      ensures selectedProperties == Without(old(selectedProperties), property)
      ensures IsSubsequence(selectedProperties, old(selectedProperties))
    {
      WithoutIsSubsequence(selectedProperties, property);
      selectedProperties := Without(selectedProperties, property);
    }

    /** The dropdown's change event: the selection becomes the value the
        dropdown reports (catalogue entries, without citations). */
    method TasteChange(value: seq<Attribute>)
      modifies this`selectedTastes
      ensures selectedTastes == value
    {
      selectedTastes := value;
    }

    method SmellChange(value: seq<Attribute>)
      modifies this`selectedSmells
      ensures selectedSmells == value
    {
      selectedSmells := value;
    }

    method PropertyChange(value: seq<Attribute>)
      modifies this`selectedProperties
      ensures selectedProperties == value
    {
      selectedProperties := value;
    }

    /** Reset: the selection returns to the snapshot; the snapshot stays. */
    method ResetSelections()
      modifies this`selectedTastes, this`selectedSmells, this`selectedProperties
      ensures selectedTastes == initialTastes
      ensures selectedSmells == initialSmells
      ensures selectedProperties == initialProperties
    {
      selectedTastes, selectedSmells, selectedProperties := initialTastes, initialSmells, initialProperties;
    }

    /** The value of the smell dropdown: the catalogue entries whose ID is
        selected, in catalogue order. The tastes and properties dropdowns
        below do the same with their own catalogue and selection. */
    function SmellsValue(smells: seq<Attribute>): (r: seq<Attribute>)
      reads this
      ensures forall c :: c in r <==> c in smells && HasId(selectedSmells, c.id)
      ensures IsSubsequence(r, smells)
    {
      SelectedInCatalogue(smells, selectedSmells)
    }

    function TastesValue(tastes: seq<Attribute>): (r: seq<Attribute>)
      reads this
      ensures forall c :: c in r <==> c in tastes && HasId(selectedTastes, c.id)
      ensures IsSubsequence(r, tastes)
    {
      SelectedInCatalogue(tastes, selectedTastes)
    }

    function PropertiesValue(properties: seq<Attribute>): (r: seq<Attribute>)
      reads this
      ensures forall c :: c in r <==> c in properties && HasId(selectedProperties, c.id)
      ensures IsSubsequence(r, properties)
    {
      SelectedInCatalogue(properties, selectedProperties)
    }

    /** `handleDelete`: the record sent to the update endpoint is the prop
        `terpene` with the three selected lists written in verbatim. The state
        is not changed. */
    method HandleDelete(terpene: TerpeneObject) returns (payload: TerpeneObject)
      ensures payload == DeletionRecord(terpene, selectedSmells, selectedTastes, selectedProperties)
    {
      payload := DeletionRecord(terpene, selectedSmells, selectedTastes, selectedProperties);
    }
  }
}
