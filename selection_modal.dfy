/** The dialog `SelectionModal` (src/components/SelectionModal.tsx): adds
    catalogue entries to a terpene. Its save appends the selection to the
    terpene's lists and blanks every citation, old entries included. */
module Selection {
  import opened Terpenes
  import Lists

  /** `list.map(e => ({...e, Citation: ''}))`. */
  function BlankAll(list: seq<Attribute>): (r: seq<Attribute>)
    ensures |r| == |list|
    ensures forall i :: 0 <= i < |list| ==> r[i] == list[i].(citation := Some(""))
  {
    seq(|list|, i requires 0 <= i < |list| => Blank(list[i]))
  }

  /** One saved list: `[...existing, ...selected]` with citations blanked, or
      just the blanked selection when the terpene's list is null. */
  function SavedList(existing: Option<seq<Attribute>>, selected: seq<Attribute>): (r: seq<Attribute>)
    ensures |r| == |OrEmpty(existing)| + |selected|
    ensures forall i :: 0 <= i < |OrEmpty(existing)| ==>
              r[i] == OrEmpty(existing)[i].(citation := Some(""))
    ensures forall j :: 0 <= j < |selected| ==>
              r[|OrEmpty(existing)| + j] == selected[j].(citation := Some(""))
    ensures forall e :: e in r ==> e.citation == Some("")
  {
    if existing.Some? then BlankAll(existing.value + selected) else BlankAll(selected)
  }

  /** The record `handleSave` sends: ID, name and synonyms copied from the
      prop, each list saved by SavedList. */
  function SaveRecord(terpene: TerpeneObject, smells: seq<Attribute>, tastes: seq<Attribute>,
                      properties: seq<Attribute>): (r: TerpeneObject)
    ensures r.terpeneId == terpene.terpeneId && r.terpene == terpene.terpene
    ensures r.synonyms == terpene.synonyms
    ensures r.smells == Some(SavedList(terpene.smells, smells))
    ensures r.tastes == Some(SavedList(terpene.tastes, tastes))
    ensures r.properties == Some(SavedList(terpene.properties, properties))
  {
    TerpeneObject(terpene.terpeneId, terpene.terpene, Some(SavedList(terpene.smells, smells)),
                  Some(SavedList(terpene.tastes, tastes)), terpene.synonyms,
                  Some(SavedList(terpene.properties, properties)))
  }

  /** How many entries of `list` carry this ID. */
  function CountId(list: seq<Attribute>, id: int): nat
  {
    if list == [] then 0 else (if list[0].id == id then 1 else 0) + CountId(list[1..], id)
  }

  lemma {:induction false} CountIdConcat(a: seq<Attribute>, b: seq<Attribute>, id: int)
    ensures CountId(a + b, id) == CountId(a, id) + CountId(b, id)
  {
    if a == [] {
      assert a + b == b;
    } else {
      assert (a + b)[1..] == a[1..] + b;
      CountIdConcat(a[1..], b, id);
    }
  }

  lemma {:induction false} CountIdBlankAll(list: seq<Attribute>, id: int)
    ensures CountId(BlankAll(list), id) == CountId(list, id)
  {
    if list != [] {
      assert BlankAll(list)[1..] == BlankAll(list[1..]);
      CountIdBlankAll(list[1..], id);
    }
  }

  /** No de-duplication: each ID occurs in the saved list as often as in the
      terpene's list and the selection together, so an ID in both is saved
      twice. */
  lemma {:induction false} SavedListCountsIds(existing: Option<seq<Attribute>>, selected: seq<Attribute>, id: int)
    ensures CountId(SavedList(existing, selected), id) == CountId(OrEmpty(existing), id) + CountId(selected, id)
  {
    CountIdConcat(OrEmpty(existing), selected, id);
    CountIdBlankAll(OrEmpty(existing) + selected, id);
    if existing.None? {
      assert OrEmpty(existing) + selected == selected;
    }
  }

  class SelectionModal {
    var selectedTastes: seq<Attribute>
    var selectedSmells: seq<Attribute>
    var selectedProperties: seq<Attribute>

    /** Mounting: nothing is selected. */
    constructor ()
      ensures selectedTastes == [] && selectedSmells == [] && selectedProperties == []
    {
      selectedTastes, selectedSmells, selectedProperties := [], [], [];
    }

    /** The effect run when the prop `open` changes: closing the dialog clears
        the selection; opening it keeps it. */
    method OpenChanged(open: bool)
      modifies this
      ensures !open ==> selectedTastes == [] && selectedSmells == [] && selectedProperties == []
      ensures open ==> selectedTastes == old(selectedTastes) && selectedSmells == old(selectedSmells)
                       && selectedProperties == old(selectedProperties)
    {
      if !open {
        selectedTastes, selectedSmells, selectedProperties := [], [], [];
      }
    }

    /** The Clear button. */
    method ClearSelections()
      modifies this
      ensures selectedTastes == [] && selectedSmells == [] && selectedProperties == []
    {
      selectedTastes, selectedSmells, selectedProperties := [], [], [];
    }

    method DeleteTaste(taste: Attribute)
      modifies this`selectedTastes
      ensures selectedTastes == Lists.Without(old(selectedTastes), taste)
      ensures Lists.IsSubsequence(selectedTastes, old(selectedTastes))
    {
      Lists.WithoutIsSubsequence(selectedTastes, taste);
      selectedTastes := Lists.Without(selectedTastes, taste);
    }

    method DeleteSmell(smell: Attribute)
      modifies this`selectedSmells
      ensures selectedSmells == Lists.Without(old(selectedSmells), smell)
      ensures Lists.IsSubsequence(selectedSmells, old(selectedSmells))
    {
      Lists.WithoutIsSubsequence(selectedSmells, smell);
      selectedSmells := Lists.Without(selectedSmells, smell);
    }

    method DeleteProperty(property: Attribute)
      modifies this`selectedProperties
      ensures selectedProperties == Lists.Without(old(selectedProperties), property)
      ensures Lists.IsSubsequence(selectedProperties, old(selectedProperties))
    {
      Lists.WithoutIsSubsequence(selectedProperties, property);
      selectedProperties := Lists.Without(selectedProperties, property);
    }

    /** The dropdown's change event: the selection becomes the reported
        value. */
    method TasteChange(value: seq<Attribute>)
      modifies this`selectedTastes
      ensures selectedTastes == value
    {
      selectedTastes := value;
    }

    method SmellChange(value: seq<Attribute>)
      modifies this`selectedSmells
      ensures selectedSmells == value
    {
      selectedSmells := value;
    }

    method PropertyChange(value: seq<Attribute>)
      modifies this`selectedProperties
      ensures selectedProperties == value
    {
      selectedProperties := value;
    }

    /** `handleSave`: the record sent to the update endpoint for the prop
        `terpene`. The state is not changed. */
    method HandleSave(terpene: TerpeneObject) returns (payload: TerpeneObject)
      ensures payload == SaveRecord(terpene, selectedSmells, selectedTastes, selectedProperties)
    {
      payload := SaveRecord(terpene, selectedSmells, selectedTastes, selectedProperties);
    }
  }
}
