# Terpene mapping admin: list bookkeeping

A model of the list bookkeeping in a single-page admin tool that attaches
smells, tastes and properties (each with an optional free-text citation) to
terpenes and writes the whole terpene record back to a REST API. The model
covers what happens between the user's clicks and the write: the selection
state of the four editing components, the reconciliation of the local
selection with a freshly fetched server copy, the two simpler save paths, the
dropdown values, and the inline citation draft editor.

Modules, one per source file plus two shared ones:

- `Terpenes` (terpenes.dfy): the records of src/interfaces/index.ts. One
  `Attribute(id, name, citation)` stands for smells, tastes and properties
  alike; `citation` is `None` for a JSON null and for an entry that has no
  citation field (a catalogue entry picked from a dropdown). The record's
  three lists may be null.
- `Lists` (lists.dfy): the chip delete filter (`Without`), the ID lookups
  `some` (`HasId`) and `find` (`Find`), the dropdown filter
  (`SelectedInCatalogue`) and the subsequence facts about them.
- `Reconcile` (reconcile.dfy): the merge-by-ID that src/hooks/useTerpeneMappings.ts
  and src/components/EditTerpeneDetailsModal.tsx both carry, defined once.
- `TerpeneMappings`, `EditTerpeneDetails`, `Deletion`, `Selection`
  (terpene_mappings.dfy, edit_terpene_details.dfy, deletion_modal.dfy,
  selection_modal.dfy): one class per hook or component, one field per piece
  of React state, one method per handler or effect. Handlers change only
  their own field (field-level `modifies` frames). Save handlers return the
  record they would send to the update endpoint and change no state.
- `Citations` (citation_list.dfy): the draft editor as a class with a
  `map<int, seq<string>>` of drafts and an optional open ID, and the
  invariant that the open item always has drafts.

The server re-fetch before a save (`getTerpeneObject`) is the parameter
`latest`; the catalogues, the component props and the dropdown's reported
value are parameters too; the change callback of the citation editor is a
returned `Option<string>` (None: not invoked).

Where the design description and the code disagree the model follows the
code:

- The description says the merge keeps existing entries and appends new ones.
  The code maps over the local selection, so the result follows the
  selection's order and server entries that are no longer selected are
  dropped (`Reconcile.MergeList`).
- The description says IDs are unique within each list and that a newly
  attached item gets an empty citation. The "add" dialog appends without
  de-duplicating and blanks the citation of every entry, previously cited
  ones included (`Selection.SavedList`, `Selection.SavedListCountsIds`).

## Model

| member | source | states |
|---|---|---|
| Lists.Without | src/hooks/useTerpeneMappings.ts:33-43 | the delete filter removes every copy of the element, keeps the count of every other element, shortens the list by the element's count, and is the identity when the element is absent |
| Lists.WithoutIsSubsequence | src/components/DeletionModal.tsx:60-70 | the list after a delete is a subsequence of the list before: the others keep their order |
| Lists.WithoutAt | src/components/EditTerpeneDetailsModal.tsx:80-90 | when the deleted element occurs once, at position i, the delete removes exactly position i and keeps everything else in order |
| Lists.WithoutAllIsSubsequence | src/components/SelectionModal.tsx:98-108 | any run of chip deletes leaves a subsequence of the starting list |
| Lists.Find | src/hooks/useTerpeneMappings.ts:70-72 | `find` by ID returns nothing exactly when no entry has the ID, and otherwise the first entry with that ID |
| Lists.SelectedInCatalogue | src/components/DeletionModal.tsx:107 | the dropdown value holds exactly the catalogue entries whose ID is selected, each as often as in the catalogue, in catalogue order |
| Reconcile.Resolve | src/hooks/useTerpeneMappings.ts:70-73 | a selected ID the server list has is saved as the server's first entry with that ID (citation kept); otherwise, or when the server list is null, as the selected item with citation '' |
| Reconcile.MergeList | src/hooks/useTerpeneMappings.ts:69-88 | the merged list has the selection's length, its i-th entry has the i-th selected ID, it is the server entry or the blanked selected item as above, and no unselected server entry appears |
| Reconcile.MergeRecord | src/hooks/useTerpeneMappings.ts:67-88 | the saved record takes ID, name and synonyms from the re-fetched copy and merges each of the three lists against that copy's list |
| Reconcile.MergeListIdempotent | src/hooks/useTerpeneMappings.ts:69-74 | merging a merged list again against the same server list gives the same list |
| Reconcile.MergeRecordIdempotent | src/components/EditTerpeneDetailsModal.tsx:48-69 | re-merging the saved record's lists against the same server copy gives the same record |
| Reconcile.MergeListOfServerList | src/components/EditTerpeneDetailsModal.tsx:50-55 | with unique IDs, saving the server's own list as the selection writes it back unchanged, citations included |
| TerpeneMappings.TerpeneMappings.constructor | src/hooks/useTerpeneMappings.ts:15-31 | after mounting, selection and snapshot both equal the terpene's lists, null lists read as [] |
| TerpeneMappings.TerpeneMappings.SyncTerpene | src/hooks/useTerpeneMappings.ts:23-31 | the sync effect sets selection and snapshot of each kind to the terpene's list, or [] when it is null |
| TerpeneMappings.TerpeneMappings.DeleteTaste | src/hooks/useTerpeneMappings.ts:33-35 | the selected tastes lose the given taste, keep their order, and nothing else changes |
| TerpeneMappings.TerpeneMappings.DeleteSmell | src/hooks/useTerpeneMappings.ts:37-39 | the selected smells lose the given smell, keep their order, and nothing else changes |
| TerpeneMappings.TerpeneMappings.DeleteProperty | src/hooks/useTerpeneMappings.ts:41-43 | the selected properties lose the given property, keep their order, and nothing else changes |
| TerpeneMappings.TerpeneMappings.TasteChange | src/hooks/useTerpeneMappings.ts:45-47 | the selected tastes become the dropdown's value; nothing else changes |
| TerpeneMappings.TerpeneMappings.SmellChange | src/hooks/useTerpeneMappings.ts:49-51 | the selected smells become the dropdown's value; nothing else changes |
| TerpeneMappings.TerpeneMappings.PropertyChange | src/hooks/useTerpeneMappings.ts:53-55 | the selected properties become the dropdown's value; nothing else changes |
| TerpeneMappings.TerpeneMappings.ResetSelections | src/hooks/useTerpeneMappings.ts:57-61 | each selected list equals its snapshot again; the snapshots are untouched |
| TerpeneMappings.TerpeneMappings.UpdateTerpeneMapping | src/hooks/useTerpeneMappings.ts:63-88 | the record sent is the merge of the current selection with the re-fetched copy; the state is unchanged |
| EditTerpeneDetails.EditTerpeneDetailsModal.constructor | src/components/EditTerpeneDetailsModal.tsx:25-41 | after mounting, selection and snapshot both equal the terpene's lists, null lists read as [] |
| EditTerpeneDetails.EditTerpeneDetailsModal.SyncTerpene | src/components/EditTerpeneDetailsModal.tsx:33-41 | the sync effect sets selection and snapshot of each kind to the terpene's list, or [] when it is null |
| EditTerpeneDetails.EditTerpeneDetailsModal.DeleteTaste | src/components/EditTerpeneDetailsModal.tsx:80-82 | the selected tastes lose the given taste, keep their order, and nothing else changes |
| EditTerpeneDetails.EditTerpeneDetailsModal.DeleteSmell | src/components/EditTerpeneDetailsModal.tsx:84-86 | the selected smells lose the given smell, keep their order, and nothing else changes |
| EditTerpeneDetails.EditTerpeneDetailsModal.DeleteProperty | src/components/EditTerpeneDetailsModal.tsx:88-90 | the selected properties lose the given property, keep their order, and nothing else changes |
| EditTerpeneDetails.EditTerpeneDetailsModal.TasteChange | src/components/EditTerpeneDetailsModal.tsx:92-94 | the selected tastes become the dropdown's value; nothing else changes |
| EditTerpeneDetails.EditTerpeneDetailsModal.SmellChange | src/components/EditTerpeneDetailsModal.tsx:96-98 | the selected smells become the dropdown's value; nothing else changes |
| EditTerpeneDetails.EditTerpeneDetailsModal.PropertyChange | src/components/EditTerpeneDetailsModal.tsx:100-102 | the selected properties become the dropdown's value; nothing else changes |
| EditTerpeneDetails.EditTerpeneDetailsModal.ResetSelections | src/components/EditTerpeneDetailsModal.tsx:104-109 | each selected list equals the snapshot taken when the terpene last changed |
| EditTerpeneDetails.EditTerpeneDetailsModal.SmellsValue | src/components/EditTerpeneDetailsModal.tsx:127 | the smell dropdown shows exactly the catalogue smells whose ID is selected, in catalogue order |
| EditTerpeneDetails.EditTerpeneDetailsModal.TastesValue | src/components/EditTerpeneDetailsModal.tsx:158 | the taste dropdown shows exactly the catalogue tastes whose ID is selected, in catalogue order |
| EditTerpeneDetails.EditTerpeneDetailsModal.PropertiesValue | src/components/EditTerpeneDetailsModal.tsx:189 | the property dropdown shows exactly the catalogue properties whose ID is selected, in catalogue order |
| EditTerpeneDetails.EditTerpeneDetailsModal.UpdateTerpeneDetails | src/components/EditTerpeneDetailsModal.tsx:44-69 | the record sent is the merge of the current selection with the re-fetched copy, not the prop; the state is unchanged |
| Deletion.DeletionRecord | src/components/DeletionModal.tsx:44-49 | the saved record is the prop with its three lists replaced verbatim by the selection; ID, name and synonyms are the prop's |
| Deletion.DeletesOnlyRemove | src/components/DeletionModal.tsx:60-70 | after the sync and any chip deletes, each saved list is a subsequence of the terpene's list and every saved entry is one of the terpene's, citation included |
| Deletion.DeletionModal.constructor | src/components/DeletionModal.tsx:25-41 | after mounting, selection and snapshot both equal the terpene's lists, null lists read as [] |
| Deletion.DeletionModal.SyncTerpene | src/components/DeletionModal.tsx:33-41 | the sync effect maps null lists to [] for both the selection and the snapshot |
| Deletion.DeletionModal.DeleteTaste | src/components/DeletionModal.tsx:60-62 | the selected tastes lose the given taste and are a subsequence of the previous list |
| Deletion.DeletionModal.DeleteSmell | src/components/DeletionModal.tsx:64-66 | the selected smells lose the given smell and are a subsequence of the previous list |
| Deletion.DeletionModal.DeleteProperty | src/components/DeletionModal.tsx:68-70 | the selected properties lose the given property and are a subsequence of the previous list |
| Deletion.DeletionModal.TasteChange | src/components/DeletionModal.tsx:72-74 | the selected tastes become the dropdown's value; nothing else changes |
| Deletion.DeletionModal.SmellChange | src/components/DeletionModal.tsx:76-78 | the selected smells become the dropdown's value; nothing else changes |
| Deletion.DeletionModal.PropertyChange | src/components/DeletionModal.tsx:80-82 | the selected properties become the dropdown's value; nothing else changes |
| Deletion.DeletionModal.ResetSelections | src/components/DeletionModal.tsx:84-89 | each selected list is set back to its snapshot |
| Deletion.DeletionModal.SmellsValue | src/components/DeletionModal.tsx:107 | the smell dropdown shows exactly the catalogue smells whose ID is selected, in catalogue order |
| Deletion.DeletionModal.TastesValue | src/components/DeletionModal.tsx:138 | the taste dropdown shows exactly the catalogue tastes whose ID is selected, in catalogue order |
| Deletion.DeletionModal.PropertiesValue | src/components/DeletionModal.tsx:169 | the property dropdown shows exactly the catalogue properties whose ID is selected, in catalogue order |
| Deletion.DeletionModal.HandleDelete | src/components/DeletionModal.tsx:44-58 | the record sent is the prop with the current selected lists, citations unaltered and no re-fetch; the state is unchanged |
| Selection.BlankAll | src/components/SelectionModal.tsx:63 | the mapped list has the same length and each entry is the original with citation '' |
| Selection.SavedList | src/components/SelectionModal.tsx:62-78 | the saved list is the existing list followed by the selection, length the sum, every citation ''; with a null existing list it is the selection alone |
| Selection.SavedListCountsIds | src/components/SelectionModal.tsx:62-78 | no de-duplication: each ID occurs as often as in the existing list and the selection together |
| Selection.SaveRecord | src/components/SelectionModal.tsx:80-87 | the saved record copies ID, name and synonyms from the prop and saves each list by SavedList |
| Selection.SelectionModal.constructor | src/components/SelectionModal.tsx:27-29 | after mounting nothing is selected |
| Selection.SelectionModal.OpenChanged | src/components/SelectionModal.tsx:48-55 | closing the dialog empties all three selected lists; opening it leaves them |
| Selection.SelectionModal.ClearSelections | src/components/SelectionModal.tsx:122-126 | all three selected lists are empty |
| Selection.SelectionModal.DeleteTaste | src/components/SelectionModal.tsx:98-100 | the selected tastes lose the given taste and keep the order of the rest |
| Selection.SelectionModal.DeleteSmell | src/components/SelectionModal.tsx:102-104 | the selected smells lose the given smell and keep the order of the rest |
| Selection.SelectionModal.DeleteProperty | src/components/SelectionModal.tsx:106-108 | the selected properties lose the given property and keep the order of the rest |
| Selection.SelectionModal.TasteChange | src/components/SelectionModal.tsx:110-112 | the selected tastes become the dropdown's value; nothing else changes |
| Selection.SelectionModal.SmellChange | src/components/SelectionModal.tsx:114-116 | the selected smells become the dropdown's value; nothing else changes |
| Selection.SelectionModal.PropertyChange | src/components/SelectionModal.tsx:118-120 | the selected properties become the dropdown's value; nothing else changes |
| Selection.SelectionModal.HandleSave | src/components/SelectionModal.tsx:57-90 | the record sent is SaveRecord of the prop and the current selection; the state is unchanged |
| Citations.SetAt | src/components/CitationList.tsx:37 | replacing draft `index` keeps the length, puts the value at `index` and leaves every other position |
| Citations.SetAtSameValue | src/components/CitationList.tsx:49-52 | writing back the draft already at `index` leaves the list unchanged |
| Citations.CurrentCitation | src/components/CitationList.tsx:42 | the stored citation is that of the first item with the ID, with null or a missing item read as '' |
| Citations.CitationList.constructor | src/components/CitationList.tsx:19-20 | no drafts and no open editor at first |
| Citations.CitationList.ShowCitationInput | src/components/CitationList.tsx:22-32 | toggling the open item closes it and keeps the drafts; toggling another opens it and sets its drafts to [citation or ''], other items' drafts unchanged; the open item always has drafts |
| Citations.CitationList.TempCitationChange | src/components/CitationList.tsx:34-39 | only position `index` of the item's drafts changes; the length and every other item stay the same |
| Citations.CitationList.SaveCitation | src/components/CitationList.tsx:41-54 | a draft equal to the stored citation (null or missing read as '') invokes nothing; any other draft invokes the change callback once with the draft; the drafts stay as they were |
| Citations.CitationList.AddCitation | src/components/CitationList.tsx:56-61 | one '' is appended to the item's drafts, its length grows by one, other items untouched |
| Citations.CitationList.CancelCitation | src/components/CitationList.tsx:63-66 | the drafts map is empty and no editor is open |

## Left out

- Network I/O: the API client (src/api/api.ts) is not part of this model. The re-fetch before a save is the parameter `latest`, the write is the returned record, and whether `latest` really is the record with the prop's ID is not checked.
- Asynchrony: the re-fetch-then-write race and last-writer-wins between concurrent saves are concurrency and network behaviour; each handler is one atomic step on the current state, without React's batching or stale closures.
- Error handling and notifications: the try/catch, console logging, the snackbar messages and the `onClose` call after a save are UI side effects and are not modelled.
- Catalogue loading (src/hooks/useFetchTerpeneData.ts and the fetch effect of src/components/SelectionModal.tsx:31-46): catalogues are given sequences.
- The dropdown's own computation of its change value: the value it reports is a parameter of the change handlers.
- Reference identity: the chip delete filters compare object references with `!==`; `Lists.Without` compares values, so two equal but distinct objects would both be removed. `Lists.WithoutAt` states the position-exact behaviour when the element occurs once.
- Field names per kind (`SmellID`, `TasteID`, `PropertyID`, ...) and the descriptive text fields of a full catalogue property, which the "add" dialog's spread would carry into the saved record; the model has one three-field entry shape.
- The difference between a null and an absent list or citation: both are `None`.
- The state values before the first effect run (the edit and deletion dialogs start with an empty snapshot): the constructors model mounting including the first run of the sync effect.
- Citations.CitationList.TempCitationChange, SaveCitation and AddCitation: an ID without drafts makes the source throw a TypeError; the methods require the ID to have drafts (and SaveCitation a valid index) because only rendered drafts and the open item's "Add other" button can be clicked.
- Rendering: JSX layout, src/pages/index.tsx, src/components/UpdateTerpeneMappingsModal.tsx, src/components/SelectedItems.tsx, src/components/TerpeneSelect.tsx, src/components/Navbar.tsx and the styles are presentation only.
