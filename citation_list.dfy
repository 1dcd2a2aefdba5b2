/** The inline citation editor `CitationList`
    (src/components/CitationList.tsx). It keeps a map from item ID to the
    draft citations being edited and the ID of the item whose editor is open.
    The prop `items` and the callback `handleCitationChange` are parameters
    and a returned value; the notification banner is not modelled. */
module Citations {
  import opened Terpenes
  import Lists

  /** `Item {id, name, citation}`: the same three fields as an attached
      attribute. */
  type Item = Attribute

  /** `list.map((c, i) => i === index ? value : c)`. */
  function SetAt(list: seq<string>, index: nat, value: string): (r: seq<string>)
    ensures |r| == |list|
    ensures index < |list| ==> r[index] == value
    ensures forall i :: 0 <= i < |list| && i != index ==> r[i] == list[i]
  {
    seq(|list|, i requires 0 <= i < |list| => if i == index then value else list[i])
  }

  /** Writing back the value already at `index` leaves the list as it was. */
  lemma {:induction false} SetAtSameValue(list: seq<string>, index: nat)
    requires index < |list|
    ensures SetAt(list, index, list[index]) == list
  {
    var r := SetAt(list, index, list[index]);
    assert forall i :: 0 <= i < |list| ==> r[i] == list[i];
  }

  /** `items.find(item => item.id === id)?.citation || ''`: the stored
      citation of the first item with this ID, with null, a missing citation
      and a missing item all read as ''. */
  function CurrentCitation(items: seq<Item>, id: int): (r: string)
    ensures !Lists.HasId(items, id) ==> r == ""
    ensures forall e :: Lists.IsFirstWithId(items, id, e) ==> r == e.citation.GetOr("")
  {
    var found := Lists.Find(items, id);
    if found.Some? then
      assert forall e :: Lists.IsFirstWithId(items, id, e) ==> e == found.value by {
        forall e | Lists.IsFirstWithId(items, id, e) ensures e == found.value {
          Lists.FirstWithIdUnique(items, id, e, found.value);
        }
      }
      found.value.citation.GetOr("")
    else
      ""
  }

  class CitationList {
    /** `tempCitations`: the drafts of each item whose editor was opened. */
    var drafts: map<int, seq<string>>
    /** `showCitationInputId`: the item whose editor is open, if any. */
    var openId: Option<int>

    /** The item whose editor is open always has drafts, so every text field,
        Save and "Add other" button on screen refers to an existing entry. */
    ghost predicate Valid()
      reads this
    {
      openId.Some? ==> openId.value in drafts
    }

    constructor ()
      ensures Valid()
      ensures drafts == map[] && openId == None
    {
      drafts, openId := map[], None;
    }

    /** `showCitationInput`: clicking the item whose editor is open closes it
        and keeps the drafts; clicking any other item opens it and seeds its
        drafts with its stored citation, leaving other items' drafts as they
        were. */
    method ShowCitationInput(item: Item)
      requires Valid()
      modifies this
      ensures Valid()
      ensures old(openId) == Some(item.id) ==> openId == None && drafts == old(drafts)
      ensures old(openId) != Some(item.id) ==>
                openId == Some(item.id) && drafts == old(drafts)[item.id := [item.citation.GetOr("")]]
      ensures forall id :: id != item.id && id in old(drafts) ==> id in drafts && drafts[id] == old(drafts)[id]
    {
      if openId == Some(item.id) {
        openId := None;
      } else {
        openId := Some(item.id);
        drafts := drafts[item.id := [item.citation.GetOr("")]];
      }
    }

    /** `handleTempCitationChange`: typing in draft `index` of item `id`
        replaces that draft only. Only rendered drafts have a text field, so
        `id` has drafts. */
    method TempCitationChange(id: int, index: nat, value: string)
      requires Valid() && id in drafts
      modifies this`drafts
      ensures Valid()
      ensures drafts == old(drafts)[id := SetAt(old(drafts)[id], index, value)]
      ensures drafts.Keys == old(drafts).Keys && |drafts[id]| == |old(drafts)[id]|
    {
      drafts := drafts[id := SetAt(drafts[id], index, value)];
    }

    /** `saveCitation`: when draft `index` of item `id` equals the item's
        stored citation nothing happens; otherwise the change callback is
        invoked once with the draft (`notified`), and writing the draft back
        into its own position leaves the drafts as they were. */
    method SaveCitation(items: seq<Item>, id: int, index: nat) returns (notified: Option<string>)
      requires Valid() && id in drafts && index < |drafts[id]|
      modifies this`drafts
      ensures Valid()
      ensures drafts == old(drafts)
      ensures old(drafts)[id][index] == CurrentCitation(items, id) ==> notified == None
      ensures old(drafts)[id][index] != CurrentCitation(items, id) ==> notified == Some(old(drafts)[id][index])
    {
      var current := CurrentCitation(items, id);
      var draft := drafts[id][index];
      if draft == current {
        notified := None;
        return;
      }
      notified := Some(draft);
      SetAtSameValue(drafts[id], index);
      drafts := drafts[id := SetAt(drafts[id], index, draft)];
      assert drafts == old(drafts);
    }

    /** `addCitation`: "Add other" appends one empty draft for item `id`.
        The button is only on screen for the open item, which has drafts. */
    method AddCitation(id: int)
      requires Valid() && id in drafts
      modifies this`drafts
      ensures Valid()
      ensures drafts == old(drafts)[id := old(drafts)[id] + [""]]
      ensures drafts.Keys == old(drafts).Keys && |drafts[id]| == |old(drafts)[id]| + 1
    {
      drafts := drafts[id := drafts[id] + [""]];
    }

    /** `cancelCitation`: every draft is dropped and the editor closes. */
    method CancelCitation()
      modifies this
      ensures Valid()
      ensures drafts == map[] && openId == None
    {
      drafts, openId := map[], None;
    }
  }
}
