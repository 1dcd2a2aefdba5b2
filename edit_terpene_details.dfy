/** The dialog `EditTerpeneDetailsModal`
    (src/components/EditTerpeneDetailsModal.tsx). Its state and handlers are
    those of the hook `useTerpeneMappings` written out again, and its save
    runs the same reconciliation; it adds the dropdown values. */
module EditTerpeneDetails {
  import opened Terpenes
  import opened Lists
  import Reconcile

  class EditTerpeneDetailsModal {
    var selectedTastes: seq<Attribute>
    var selectedSmells: seq<Attribute>
    var selectedProperties: seq<Attribute>
    /** The snapshot that Reset returns to. */
    var initialTastes: seq<Attribute>
    var initialSmells: seq<Attribute>
    var initialProperties: seq<Attribute>

    /** Mounting with the prop `terpene`: the state initialisers (the
        selection from the prop, an empty snapshot) followed by the first run
        of the sync effect, which sets both and replaces null lists by []. */
    constructor (terpene: TerpeneObject)
      ensures selectedTastes == initialTastes == OrEmpty(terpene.tastes)
      ensures selectedSmells == initialSmells == OrEmpty(terpene.smells)
      ensures selectedProperties == initialProperties == OrEmpty(terpene.properties)
    {
      selectedTastes, selectedSmells, selectedProperties :=
        OrEmpty(terpene.tastes), OrEmpty(terpene.smells), OrEmpty(terpene.properties);
      initialTastes, initialSmells, initialProperties :=
        OrEmpty(terpene.tastes), OrEmpty(terpene.smells), OrEmpty(terpene.properties);
    }

    /** The effect run when the prop `terpene` changes: both the selection and
        the snapshot become the terpene's lists. */
    method SyncTerpene(terpene: TerpeneObject)
      modifies this
      ensures selectedTastes == initialTastes == OrEmpty(terpene.tastes)
      ensures selectedSmells == initialSmells == OrEmpty(terpene.smells)
      ensures selectedProperties == initialProperties == OrEmpty(terpene.properties)
    {
      selectedTastes, selectedSmells, selectedProperties :=
        OrEmpty(terpene.tastes), OrEmpty(terpene.smells), OrEmpty(terpene.properties);
      initialTastes, initialSmells, initialProperties :=
        OrEmpty(terpene.tastes), OrEmpty(terpene.smells), OrEmpty(terpene.properties);
    }

    method DeleteTaste(taste: Attribute)
      modifies this`selectedTastes
      ensures selectedTastes == Without(old(selectedTastes), taste)
      ensures IsSubsequence(selectedTastes, old(selectedTastes))
    {
      WithoutIsSubsequence(selectedTastes, taste);
      selectedTastes := Without(selectedTastes, taste);
    }

    method DeleteSmell(smell: Attribute)
      modifies this`selectedSmells
      ensures selectedSmells == Without(old(selectedSmells), smell)
      ensures IsSubsequence(selectedSmells, old(selectedSmells))
    {
      WithoutIsSubsequence(selectedSmells, smell);
      selectedSmells := Without(selectedSmells, smell);
    }

    method DeleteProperty(property: Attribute)
      modifies this`selectedProperties
      ensures selectedProperties == Without(old(selectedProperties), property)
      ensures IsSubsequence(selectedProperties, old(selectedProperties))
    {
      WithoutIsSubsequence(selectedProperties, property);
      selectedProperties := Without(selectedProperties, property);
    }

    /** The dropdown's change event: the selection becomes the value the
        dropdown reports (catalogue entries, without citations). */
    method TasteChange(value: seq<Attribute>)
      modifies this`selectedTastes
      ensures selectedTastes == value
    {
      selectedTastes := value;
    }

    method SmellChange(value: seq<Attribute>)
      modifies this`selectedSmells
      ensures selectedSmells == value
    {
      selectedSmells := value;
    }

    method PropertyChange(value: seq<Attribute>)
      modifies this`selectedProperties
      ensures selectedProperties == value
    {
      selectedProperties := value;
    }

    /** Reset: the selection returns to the snapshot; the snapshot stays. */
    method ResetSelections()
      modifies this`selectedTastes, this`selectedSmells, this`selectedProperties
      ensures selectedTastes == initialTastes
      ensures selectedSmells == initialSmells
      ensures selectedProperties == initialProperties
    {
      selectedTastes, selectedSmells, selectedProperties := initialTastes, initialSmells, initialProperties;
    }

    /** The value of the smell dropdown: the catalogue entries whose ID is
        selected, in catalogue order. The tastes and properties dropdowns
        below do the same with their own catalogue and selection. */
    function SmellsValue(smells: seq<Attribute>): (r: seq<Attribute>)
      reads this
      ensures forall c :: c in r <==> c in smells && HasId(selectedSmells, c.id)
      ensures IsSubsequence(r, smells)
    {
      SelectedInCatalogue(smells, selectedSmells)
    }

    function TastesValue(tastes: seq<Attribute>): (r: seq<Attribute>)
      reads this
      ensures forall c :: c in r <==> c in tastes && HasId(selectedTastes, c.id)
      ensures IsSubsequence(r, tastes)
    {
      SelectedInCatalogue(tastes, selectedTastes)
    }

    function PropertiesValue(properties: seq<Attribute>): (r: seq<Attribute>)
      reads this
      ensures forall c :: c in r <==> c in properties && HasId(selectedProperties, c.id)
      ensures IsSubsequence(r, properties)
    {
      SelectedInCatalogue(properties, selectedProperties)
    }

    /** `updateTerpeneDetails`: the record sent to the update endpoint, given
        the copy `latest` re-fetched from the server (not the prop). Every
        selected item is saved in selection order, as the server's entry when
        the server has its ID and otherwise with an empty citation; all other
        fields come from `latest`. The state is not changed. */
    method UpdateTerpeneDetails(latest: TerpeneObject) returns (payload: TerpeneObject)
      ensures payload == Reconcile.MergeRecord(latest, selectedSmells, selectedTastes, selectedProperties)
    {
      payload := Reconcile.MergeRecord(latest, selectedSmells, selectedTastes, selectedProperties);
    }
  }
}
