/** Selection reconciliation: before an edit is saved the terpene record is
    fetched again, and each of its three lists is rebuilt from the local
    selection, keeping the server's entry (and so its citation) for every
    selected ID the server already has. The hook `useTerpeneMappings` and the
    component `EditTerpeneDetailsModal` carry the same code; both use this
    module. */
module Reconcile {
  import opened Terpenes
  import opened Lists

  /** The server list exists and holds an entry with this ID. */
  predicate OnServer(server: Option<seq<Attribute>>, id: int)
  {
    server.Some? && HasId(server.value, id)
  }

  /** The entry saved for one selected item:
      `existing ? existing : {...selected, Citation: ''}` where `existing` is
      `server ? server.find(same ID) : null`. */
  function Resolve(selected: Attribute, server: Option<seq<Attribute>>): (r: Attribute)
    ensures r.id == selected.id
    ensures OnServer(server, selected.id) ==> IsFirstWithId(server.value, selected.id, r)
    ensures !OnServer(server, selected.id) ==> r == selected.(citation := Some(""))
  {
    var existing := if server.Some? then Find(server.value, selected.id) else None;
    if existing.Some? then existing.value else Blank(selected)
  }

  /** `selected.map(s => Resolve(s, server))` for one of the three lists. */
  function MergeList(selected: seq<Attribute>, server: Option<seq<Attribute>>): (r: seq<Attribute>)
    ensures |r| == |selected|
    ensures forall i :: 0 <= i < |r| ==> r[i].id == selected[i].id
    ensures forall i :: 0 <= i < |r| && OnServer(server, selected[i].id) ==>
              IsFirstWithId(server.value, selected[i].id, r[i])
    ensures forall i :: 0 <= i < |r| && !OnServer(server, selected[i].id) ==>
              r[i] == selected[i].(citation := Some(""))
    ensures forall e :: e in r ==> HasId(selected, e.id)
  {
    seq(|selected|, i requires 0 <= i < |selected| => Resolve(selected[i], server))
  }

  /** `updatedTerpene`: a copy of the re-fetched record `latest` whose three
      lists are rebuilt from the selection. */
  function MergeRecord(latest: TerpeneObject, smells: seq<Attribute>, tastes: seq<Attribute>,
                       properties: seq<Attribute>): (r: TerpeneObject)
    ensures r.terpeneId == latest.terpeneId && r.terpene == latest.terpene
    ensures r.synonyms == latest.synonyms
    ensures r.smells == Some(MergeList(smells, latest.smells))
    ensures r.tastes == Some(MergeList(tastes, latest.tastes))
    ensures r.properties == Some(MergeList(properties, latest.properties))
  {
    latest.(smells := Some(MergeList(smells, latest.smells)),
            tastes := Some(MergeList(tastes, latest.tastes)),
            properties := Some(MergeList(properties, latest.properties)))
  }

  /** Merging a merged list again against the same server copy changes
      nothing. */
  lemma {:induction false} MergeListIdempotent(selected: seq<Attribute>, server: Option<seq<Attribute>>)
    ensures MergeList(MergeList(selected, server), server) == MergeList(selected, server)
  {
    var m := MergeList(selected, server);
    var mm := MergeList(m, server);
    forall i | 0 <= i < |m| ensures mm[i] == m[i] {
      if OnServer(server, selected[i].id) {
        FirstWithIdUnique(server.value, selected[i].id, mm[i], m[i]);
      }
    }
  }

  /** Saving the merged record and saving again without a concurrent edit
      writes the same record. */
  lemma {:induction false} MergeRecordIdempotent(latest: TerpeneObject, smells: seq<Attribute>, tastes: seq<Attribute>,
                              properties: seq<Attribute>)
    ensures var m := MergeRecord(latest, smells, tastes, properties);
            MergeRecord(latest, m.smells.value, m.tastes.value, m.properties.value) == m
  {
    MergeListIdempotent(smells, latest.smells);
    MergeListIdempotent(tastes, latest.tastes);
    MergeListIdempotent(properties, latest.properties);
  }

  /** No two entries share an ID: the uniqueness the server keeps within each
      list of a terpene. */
  ghost predicate UniqueIds(list: seq<Attribute>)
  {
    forall i, j :: 0 <= i < j < |list| ==> list[i].id != list[j].id
  }

  /** Saving a selection that is the server's own list (the state right after
      the sync effect, with no edits) writes that list back unchanged,
      citations included. */
  lemma {:induction false} MergeListOfServerList(list: seq<Attribute>)
    requires UniqueIds(list)
    ensures MergeList(list, Some(list)) == list
  {
    var m := MergeList(list, Some(list));
    forall i | 0 <= i < |list| ensures m[i] == list[i] {
      assert OnServer(Some(list), list[i].id);
      assert NoIdBefore(list, list[i].id, i);
      assert IsFirstWithId(list, list[i].id, list[i]);
      FirstWithIdUnique(list, list[i].id, m[i], list[i]);
    }
  }
}
