# DrFlexLayout bookkeeping, modelled in Dafny

DrFlexLayout is an iOS flexbox layout library built on Yoga. This project models its
deterministic bookkeeping, which can be stated exactly. That bookkeeping sits around the
layout solver and UIKit but is not part of either:

- **The reactive data source** (`DrSource`, in the `Source` module's `source.dfy`).
  - It is a list of `SourceSection`s of items.
  - Every edit rewrites the sections, records the `Operate` that describes the change and
    advances a wrapping `UInt64` id.
  - Its guards, contiguous inserts and descending multi-delete are proved against
    sequence functions.
  - It uses the Swift array helpers in `array_edits.dfy`.
- **The change dispatcher** (`TableDataSource`). It ignores a source whose id was the last
  one handled. Otherwise it maps the source's `Operate` to one table command, and it
  answers the count, lookup and builder closures it binds.
- **The two generations of the flex table view.**
  - The core generation (`FlexTable`) caches cells, headers and footers in dictionaries
    keyed by section and row, with a set of views needing layout.
  - The older generation (`LegacyFlexTable`) caches them in arrays that are replaced or
    appended to.
- **The height memo of the table data sources** (`HeightCache`). The group source and the
  item source cache measured heights under a `"section-row"` key or a reuse id.
- **The style values.**
  - `CoreStyle` and `LegacyStyle` are the two generations of `DrStyle`.
  - `ViewStyle` holds the `dr_buildStyle` gate and the two paths that rebuild a view's
    layers.
- **The flex facade** (`FlexFacade`). A `DrFlex` writes its Yoga node's fields through
  fluent setters and read-modify-writes the view's style. It keeps the node's display and
  the view's `isHidden` in step.
- **The Yoga enum mappings** (`FlexEnums`, over the Yoga enums declared in `Yoga`).
- **The bubble mask's key points** (`BubbleMask`). These are the seven points of the arrow
  and the rotated body corners, and the arcs the outline draws through them.

`CGFloat` is `real` (no NaN or infinity). Views, colours and other UIKit objects are
opaque identities. Swift's `Int` is Dafny's unbounded `int`. An index that would trap when
negative is a `nat` parameter or a `requires`, because the source does not handle it.
Anything the code asks of UIKit, Yoga or a user closure is a parameter of the operation:
a frame height, whether a view is Yoga-enabled, what a builder returns, what
`updateCellData` answers.

The two table views, and likewise the two `DrStyle` files, are separate generations of
the library. Each is modelled on its own.

The older table view's `appendCell`, `appendHeaderView` and `appendFooterView` replace an
entry below the count and otherwise append. The model keeps that exactly:
`LegacyFlexTable.StoreOrAppend`.
- Because of it, an entry stored out of order lands at the end of the list, not at its
  own index. `LegacyFlexTable.MissingHeaderShiftsTheNext` and
  `LegacyFlexTable.MissingCellShiftsTheNext` exhibit this against the reference store
  `LegacyFlexTable.StoreAt`.
- The table asks for rows and sections in order, so the code may rely on that. This is
  therefore recorded as behaviour, not as a defect.

The dispatcher is written against the data source directly, with the source's
three-field `insertRows` case. In the Swift file its element type is `Source<Item>`, a
type that is not part of this model. Its `insertRows` case there has four fields and
passes an `afterNeedLayout:` argument, which neither `Operate` (Source.swift line 39) nor
the core table's `insertRows` has.

## Model

| member | source | states |
|---|---|---|
| ArrayEdits.InsertAt | DrFlexLayout/src/rx/Source.swift:433-439 | inserting a run at an index keeps the prefix, places the run contiguously and shifts the rest after it |
| ArrayEdits.RemoveAt | DrFlexLayout/src/rx/Source.swift:441-443 | `remove(at:)` drops exactly that entry; the prefix is kept and the suffix shifts down by one |
| ArrayEdits.RemoveAtUndoesInsertAt | DrFlexLayout/src/rx/Source.swift:433-443 | removing at the index just inserted at gives back the original array |
| ArrayEdits.InsertDescending | DrFlexLayout/src/rx/Source.swift:318 | one insertion step of the descending sort adds exactly that element (same multiset plus one) |
| ArrayEdits.InsertDescendingSorted | DrFlexLayout/src/rx/Source.swift:318 | inserting into a descending list keeps it descending |
| ArrayEdits.SortDescending | DrFlexLayout/src/rx/Source.swift:318 | `sorted(by: >)` is a permutation of its input |
| ArrayEdits.SortDescendingSorted | DrFlexLayout/src/rx/Source.swift:318 | the result of `sorted(by: >)` is descending |
| ArrayEdits.KeepBelow | DrFlexLayout/src/rx/Source.swift:319-321 | the filter keeps every occurrence of each value below the count, repeats included, and nothing else |
| ArrayEdits.KeepBelowSorted | DrFlexLayout/src/rx/Source.swift:319-321 | filtering a descending list keeps it descending |
| ArrayEdits.DescendingWithoutRepeatsIsStrict | DrFlexLayout/src/rx/Source.swift:318-321 | a descending list with no repeated value is strictly descending |
| ArrayEdits.RemoveEach | DrFlexLayout/src/rx/Source.swift:323-325 | removing each listed index in turn, when none traps, removes one item per index |
| ArrayEdits.Keep | DrFlexLayout/src/rx/Source.swift:323-325 | reference definition of an array with a set of indices dropped: never longer, and unchanged for the empty set |
| ArrayEdits.KeepPrefix | DrFlexLayout/src/rx/Source.swift:323-325 | dropping indices at or above b leaves the first b entries in place |
| ArrayEdits.RemoveAtKeep | DrFlexLayout/src/rx/Source.swift:323-325 | removing index i after indices above i were dropped is dropping i as well |
| ArrayEdits.RemoveEachKeep | DrFlexLayout/src/rx/Source.swift:323-325 | removing strictly descending in-range indices one by one never traps and drops exactly that set of indices |
| Source.NextId | DrFlexLayout/src/rx/Source.swift:362-368 | `updateId` adds one modulo 2^64, so `UInt64.max` wraps to 0 |
| Source.NextIdChangesAndSeparates | DrFlexLayout/src/rx/Source.swift:362-368 | every update changes the id, and distinct ids stay distinct after an update |
| Source.SourceSection.Append | DrFlexLayout/src/rx/Source.swift:425-427 | the item is added at the end; header and footer are kept |
| Source.SourceSection.AppendItems | DrFlexLayout/src/rx/Source.swift:429-431 | the old items followed by the new ones, in order |
| Source.SourceSection.Insert | DrFlexLayout/src/rx/Source.swift:433-435 | the item sits at the index, with the items before and after it kept in order |
| Source.SourceSection.InsertItems | DrFlexLayout/src/rx/Source.swift:437-439 | the new items sit contiguously at the index, with the old items around them |
| Source.SourceSection.RemoveItem | DrFlexLayout/src/rx/Source.swift:441-443 | exactly the item at the index is gone; the rest shift down |
| Source.SourceSection.RemoveAllItemAsWritten | DrFlexLayout/src/rx/Source.swift:445-448 | as written, `removeAllItem` traps on every input (`removeLast` on the array it just emptied) |
| Source.SourceSection.RemoveAllItem | DrFlexLayout/src/rx/Source.swift:445-448 | corrected: the section is left with no items, header and footer kept |
| Source.SourceSection.RemoveFirstItem | DrFlexLayout/src/rx/Source.swift:451-456 | empty section: unchanged and nil; otherwise the first item is returned and the rest remain |
| Source.SourceSection.RemoveLastItem | DrFlexLayout/src/rx/Source.swift:459-464 | empty section: unchanged and nil; otherwise the last item is returned and the rest remain |
| Source.RemoveLast | DrFlexLayout/src/rx/Source.swift:445-448 | Swift's `removeLast` traps exactly on an empty array; otherwise it splits off the last element |
| Source.NewSection | DrFlexLayout/src/rx/Source.swift:385-395 | `SourceSection(items:)` holds those items and no header or footer |
| Source.SectionRemovalsUndoInsertions | DrFlexLayout/src/rx/Source.swift:425-464 | remove-last undoes append, remove-first undoes insert at 0, and remove at an index undoes insert there |
| Source.AppendIsInsertAtEnd | DrFlexLayout/src/rx/Source.swift:425-439 | appending one item or a run is inserting it at the count |
| Source.RowSet | DrFlexLayout/src/rx/Source.swift:319-321 | the set of listed rows below the count |
| Source.RowsToRemoveAsWritten | DrFlexLayout/src/rx/Source.swift:316-321 | the recorded list is descending and holds each in-range row as often as it was passed, repeats included |
| Source.RemoveItemsAsWritten | DrFlexLayout/src/rx/Source.swift:312-329 | as written, when the loop does not trap it removes one item per recorded row, repeats included |
| Source.RemoveItemsAsWrittenWithoutRepeats | DrFlexLayout/src/rx/Source.swift:312-329 | without repeated rows the code is right: it removes exactly the in-range rows and records them strictly descending |
| Source.RepeatedRowTraps | DrFlexLayout/src/rx/Source.swift:316-325 | rows [3, 3] on four items: the second removal of index 3 traps |
| Source.RepeatedRowRemovesNeighbour | DrFlexLayout/src/rx/Source.swift:316-325 | rows [2, 2] on four items remove rows 2 and 3, and [2, 2] is recorded |
| Source.RowsToRemove | DrFlexLayout/src/rx/Source.swift:316-321 | corrected filter loop: strictly descending, all below the count, and exactly the in-range rows that were passed |
| Source.KeptRowsAreRowSet | DrFlexLayout/src/rx/Source.swift:316-321 | filtering a permutation of the rows keeps exactly the in-range rows |
| Source.RemoveRowsInTurn | DrFlexLayout/src/rx/Source.swift:323-325 | the removal loop over strictly descending rows leaves exactly the items at the other indices, in order |
| Source.DrSource.constructor | DrFlexLayout/src/rx/Source.swift:54-56 | no sections, the `init` operator and id 0 |
| Source.DrSource.Copy | DrFlexLayout/src/rx/Source.swift:58-62 | the copy shares the sections; the original's id advances and the copy takes that id, so the two compare equal |
| Source.DrSource.WithSections | DrFlexLayout/src/rx/Source.swift:64-67 | holds exactly the given sections; id 1 |
| Source.DrSource.WithItems | DrFlexLayout/src/rx/Source.swift:69-75 | nil gives no sections, a list gives one section of it; id 1 |
| Source.DrSource.WithSectionList | DrFlexLayout/src/rx/Source.swift:77-79 | one plain section per list, in order; id 1 |
| Source.DrSource.UpdateId | DrFlexLayout/src/rx/Source.swift:362-368 | only the id changes, to its wrapping successor |
| Source.DrSource.AppendSections | DrFlexLayout/src/rx/Source.swift:81-85 | sections appended at the end, `loadMore` recorded, id advanced |
| Source.DrSource.AppendModels | DrFlexLayout/src/rx/Source.swift:88-104 | fails iff section is out of range and not 0, changing nothing; empty source: one new section and `init`; otherwise only that section gets the models at its end and `loadMoreInSection` is recorded |
| Source.DrSource.AppendModel | DrFlexLayout/src/rx/Source.swift:107-123 | as `AppendModels`, for one model |
| Source.DrSource.InsertModels | DrFlexLayout/src/rx/Source.swift:126-141 | fails iff the section is out of range, the models are empty or the index is outside [0, count], changing nothing; otherwise the models sit contiguously at the index in that section only, `insertRows(section, insertIndex, count)` is recorded and the id advances once |
| Source.DrSource.InsertModel | DrFlexLayout/src/rx/Source.swift:144-159 | as `InsertModels`, for one model and a row count of 1 |
| Source.DrSource.ReplaceSections | DrFlexLayout/src/rx/Source.swift:170-174 | the sections become the given ones, `init` recorded, id advanced |
| Source.DrSource.ReplaceModels | DrFlexLayout/src/rx/Source.swift:177-193 | same guard as append; empty source: one new section; otherwise only that section's items are replaced and `reloadSection` is recorded |
| Source.DrSource.ReplaceModel | DrFlexLayout/src/rx/Source.swift:196-215 | fails iff the section or row is out of range (empty source: iff section > 0), changing nothing; otherwise exactly that item is replaced and `reloadRow` is recorded |
| Source.DrSource.Refresh | DrFlexLayout/src/rx/Source.swift:162-168 | as `ReplaceModel`, recording `refreshRow` |
| Source.DrSource.Clear | DrFlexLayout/src/rx/Source.swift:219-229 | fails iff the section is out of range; otherwise only that section is emptied and `reloadSection` is recorded |
| Source.DrSource.ClearFirstSection | DrFlexLayout/src/rx/Source.swift:233-243 | fails iff there are no sections; otherwise only the first section is emptied |
| Source.DrSource.ClearLastSection | DrFlexLayout/src/rx/Source.swift:247-258 | fails iff there are no sections; otherwise only the last section is emptied |
| Source.DrSource.RemoveFirstItem | DrFlexLayout/src/rx/Source.swift:262-275 | fails iff the section is missing or empty; otherwise its first item is gone and `deleteRow` with row 0 is recorded |
| Source.DrSource.RemoveLastItem | DrFlexLayout/src/rx/Source.swift:279-292 | fails iff the section is missing or empty; otherwise its last item is gone and `deleteRow` is recorded with row equal to the new count, the removed index |
| Source.DrSource.RemoveItem | DrFlexLayout/src/rx/Source.swift:296-309 | fails iff the section or row is out of range; otherwise exactly that item is gone and `deleteRow` is recorded |
| Source.DrSource.RemoveItems | DrFlexLayout/src/rx/Source.swift:312-329 | with no rows or a bad section nothing changes, id included; otherwise the corrected filter removes exactly the in-range rows and records them strictly descending. This matches the code only when no row is repeated; the code as written is `Source.RemoveItemsAsWritten` |
| Source.DrSource.Items | DrFlexLayout/src/rx/Source.swift:331-336 | a section's items iff it exists |
| Source.DrSource.ItemCount | DrFlexLayout/src/rx/Source.swift:338-343 | the item count of the section, 0 when it does not exist |
| Source.DrSource.Item | DrFlexLayout/src/rx/Source.swift:345-354 | an item iff the row is below the section's count, and then the item at that row |
| Source.DrSource.PerformBatchUpdates | DrFlexLayout/src/rx/Source.swift:357-360 | the operator becomes the one the batch returns and the id advances once; the sections are not touched by the call itself |
| Source.SameVersionSameHash | DrFlexLayout/src/rx/Source.swift:371-383 | sources equal under `==` (same id) hash alike, whatever their sections |
| TableDataSource.RowPaths | DrFlexLayout/src/rx/DrTableDataSource.swift:74-81 | one index path per row, in the rows' order, all in the given section |
| TableDataSource.RowPathsAppend | DrFlexLayout/src/rx/DrTableDataSource.swift:74-81 | mapping rows to paths distributes over concatenation |
| TableDataSource.SectionSet | DrFlexLayout/src/rx/DrTableDataSource.swift:53-63 | `IndexSet(sections)` holds exactly the listed sections |
| TableDataSource.Dispatch | DrFlexLayout/src/rx/DrTableDataSource.swift:49-91 | each operator maps to exactly one command kind (both directions): `init` reloads; `loadMore` refreshes without layout; the refresh cases lay out; `loadMoreInSection` refreshes its section without layout; the reload and delete cases carry their sections or paths in order; `insertRows` forwards its fields |
| TableDataSource.SingleIsListOfOne | DrFlexLayout/src/rx/DrTableDataSource.swift:49-91 | each single-section or single-row operator dispatches as its list form with one element |
| TableDataSource.RowPathsNameTheRows | DrFlexLayout/src/rx/DrTableDataSource.swift:74-81 | the paths sent for a row list name exactly those rows in that section and none in any other |
| TableDataSource.DrTableDataSource.constructor | DrFlexLayout/src/rx/DrTableDataSource.swift:33-39 | no source yet; the builders are stored |
| TableDataSource.DrTableDataSource.HandlerTable | DrFlexLayout/src/rx/DrTableDataSource.swift:42-92 | an element whose id equals the stored one is ignored with no command; any other (always the first) is stored with its id and dispatched; afterwards the element is the stored one |
| TableDataSource.DrTableDataSource.NumberOfSections | DrFlexLayout/src/rx/DrTableDataSource.swift:105 | the stored source's section count, 0 without one |
| TableDataSource.DrTableDataSource.NumberOfRows | DrFlexLayout/src/rx/DrTableDataSource.swift:106 | the section's item count, 0 when there is no source or no such section |
| TableDataSource.DrTableDataSource.ItemAt | DrFlexLayout/src/rx/DrTableDataSource.swift:107-113 | an item iff the row is below the section's row count, and then that item |
| TableDataSource.DrTableDataSource.CellInit | DrFlexLayout/src/rx/DrTableDataSource.swift:107-113 | a cell iff there is a builder and the item exists, and then the builder's cell for that item and path |
| TableDataSource.DrTableDataSource.CellUpdate | DrFlexLayout/src/rx/DrTableDataSource.swift:114-120 | true iff an updater is bound, the item exists and the updater answers true |
| TableDataSource.DrTableDataSource.HeaderInit | DrFlexLayout/src/rx/DrTableDataSource.swift:121-127 | a header iff there is a header builder and a source, built from that section |
| TableDataSource.DrTableDataSource.FooterInit | DrFlexLayout/src/rx/DrTableDataSource.swift:128-134 | a footer iff there is a footer builder and a source, built from that section |
| TableDataSource.DrTableDataSource.CellClick | DrFlexLayout/src/rx/DrTableDataSource.swift:135-140 | a click is emitted iff the item exists, with that item and path |
| TableDataSource.DrTableDataSource.LookupsWithinCounts | DrFlexLayout/src/rx/DrTableDataSource.swift:105-140 | the item lookup succeeds exactly within the section and row counts the table is given, and so do cell building and clicks |
| FlexTable.GroupViews | DrFlexLayout/src/core/UI/DrFlexTableView.swift:257-282 | every cell, header and footer view of a group |
| FlexTable.LookupCell | DrFlexLayout/src/core/UI/DrFlexTableView.swift:303-308 | a cell iff the section is cached, the row is below that section's entry count and the row is a key, and then that cell |
| FlexTable.CellCount | DrFlexLayout/src/core/UI/DrFlexTableView.swift:421-428 | the number of cached entries of a section, 0 when it is absent |
| FlexTable.Rows | DrFlexLayout/src/core/UI/DrFlexTableView.swift:265-275 | exactly the rows 0 to n-1 |
| FlexTable.RowsSize | DrFlexLayout/src/core/UI/DrFlexTableView.swift:265-275 | there are n of them |
| FlexTable.DenseSectionReachable | DrFlexLayout/src/core/UI/DrFlexTableView.swift:303-308 | in a section stored by `appendGroup` (rows 0 to n-1) every row's cell is found |
| FlexTable.SparseSectionHidesCell | DrFlexLayout/src/core/UI/DrFlexTableView.swift:303-308 | a cell cached at row 1 alone is not found, because the guard compares the row with the entry count |
| FlexTable.RowsIn | DrFlexLayout/src/core/UI/DrFlexTableView.swift:127-132 | the rows of a section that a list of index paths names |
| FlexTable.RowsInStep | DrFlexLayout/src/core/UI/DrFlexTableView.swift:127-132 | one more path adds its row to its own section and to no other |
| FlexTable.CellsOfSectionsStep | DrFlexLayout/src/core/UI/DrFlexTableView.swift:155-162 | the cells of one more section are added to those already gathered |
| FlexTable.MaxKey | DrFlexLayout/src/core/UI/DrFlexTableView.swift:259-263 | the loop finds the largest section key |
| FlexTable.InsertRows | DrFlexLayout/src/core/UI/DrFlexTableView.swift:199-211 | nothing for a row count of 0 or less; otherwise exactly the paths insertIndex to insertIndex+rowsCount-1 in the section, in order, with no cache touched |
| FlexTable.NextSectionIndex | DrFlexLayout/src/core/UI/DrFlexTableView.swift:259-264 | 0 for an empty cache, else one more than the largest key, which is above every key |
| FlexTable.IndexCells | DrFlexLayout/src/core/UI/DrFlexTableView.swift:265-275 | the loop stores cell i under row i for every i, and nothing else |
| FlexTable.DrFlexTableView.constructor | DrFlexLayout/src/core/UI/DrFlexTableView.swift:65-87 | empty caches, no marks, no group count, and the row height given |
| FlexTable.DrFlexTableView.Reload | DrFlexLayout/src/core/UI/DrFlexTableView.swift:109-114 | all three caches empty; nothing else changes |
| FlexTable.DrFlexTableView.ReloadSections | DrFlexLayout/src/core/UI/DrFlexTableView.swift:117-124 | exactly the listed sections leave the three caches |
| FlexTable.DrFlexTableView.DropCells | DrFlexLayout/src/core/UI/DrFlexTableView.swift:127-132 | exactly the listed (section, row) cells leave the cell cache; sections, headers and footers stay |
| FlexTable.DrFlexTableView.ReloadRows | DrFlexLayout/src/core/UI/DrFlexTableView.swift:127-132 | as `DropCells` on the listed paths |
| FlexTable.DrFlexTableView.DeleteRows | DrFlexLayout/src/core/UI/DrFlexTableView.swift:184-189 | as `DropCells` on the listed paths |
| FlexTable.DrFlexTableView.Refresh | DrFlexLayout/src/core/UI/DrFlexTableView.swift:139-146 | with layout, every cached cell, header and footer is marked; without, no mark changes; the caches stay |
| FlexTable.DrFlexTableView.RefreshSections | DrFlexLayout/src/core/UI/DrFlexTableView.swift:155-162 | with layout, exactly the cells of the listed sections are marked in addition |
| FlexTable.DrFlexTableView.RefreshRows | DrFlexLayout/src/core/UI/DrFlexTableView.swift:171-176 | with layout, exactly the cached cells at the listed paths are marked in addition |
| FlexTable.DrFlexTableView.Stored | DrFlexLayout/src/core/UI/DrFlexTableView.swift:171-176 | the unguarded `cellViewMap[section]?[row]` lookup `refreshRows` uses to mark cells: a cell iff the section is a key and the row is a key of that section (no row-count guard), and then exactly the stored cell |
| FlexTable.DrFlexTableView.AppendCell | DrFlexLayout/src/core/UI/DrFlexTableView.swift:402-410 | the cell is stored at its row of its section (a new section map when missing); nothing else changes |
| FlexTable.DrFlexTableView.AppendHeaderView | DrFlexLayout/src/core/UI/DrFlexTableView.swift:412-414 | only that section's header entry is set |
| FlexTable.DrFlexTableView.AppendFooterView | DrFlexLayout/src/core/UI/DrFlexTableView.swift:416-418 | only that section's footer entry is set |
| FlexTable.DrFlexTableView.AppendGroup | DrFlexLayout/src/core/UI/DrFlexTableView.swift:257-282 | the group goes to 0 or one past the largest section key; its cells sit at rows 0 to n-1, other sections kept; header and footer stored when present; all its views are marked; the group count is index + 1 |
| FlexTable.DrFlexTableView.StoreGroup | DrFlexLayout/src/core/UI/DrFlexTableView.swift:265-281 | the storing half of `appendGroup` at a given index, with the same frame |
| FlexTable.DrFlexTableView.HeaderView | DrFlexLayout/src/core/UI/DrFlexTableView.swift:333-338 | a header iff that section has one cached |
| FlexTable.DrFlexTableView.FooterView | DrFlexLayout/src/core/UI/DrFlexTableView.swift:347-352 | a footer iff that section has one cached |
| FlexTable.DrFlexTableView.NumberOfSections | DrFlexLayout/src/core/UI/DrFlexTableView.swift:1282-1290 | the bound closure's count, else the group count, else 1 |
| FlexTable.DrFlexTableView.NumberOfRowsInSection | DrFlexLayout/src/core/UI/DrFlexTableView.swift:1292-1297 | the bound closure's count, else the cached entry count (0 when the section is absent) |
| FlexTable.DrFlexTableView.HeightForRow | DrFlexLayout/src/core/UI/DrFlexTableView.swift:1439-1473 | a positive row height wins; a cached cell answers its height and loses its mark only when marked, Yoga-enabled and updated successfully; otherwise the built cell is cached and may fix the common height, or the height is 0 |
| FlexTable.DrFlexTableView.HeightForHeader | DrFlexLayout/src/core/UI/DrFlexTableView.swift:1475-1509 | a positive header height wins; a cached header answers its height and loses a mark when Yoga-enabled; otherwise the built header is stored, or the empty height of the style is answered |
| FlexTable.DrFlexTableView.HeightForFooter | DrFlexLayout/src/core/UI/DrFlexTableView.swift:1511-1545 | as `HeightForHeader`, for footers |
| FlexTable.DrFlexTableView.WillDisplay | DrFlexLayout/src/core/UI/DrFlexTableView.swift:1591-1605 | with a positive row height, a marked Yoga-enabled cached cell loses its mark before the update is asked, and is laid out iff the update succeeds; otherwise nothing changes |
| LegacyFlexTable.StoreOrAppend | DrFlexLayout/src/UI/DrFlexTableView.swift:165-194 | below the count: the entry at the index is replaced; otherwise the value is appended at the end, whatever the index |
| LegacyFlexTable.StoreAt | DrFlexLayout/src/UI/DrFlexTableView.swift:180-194 | reference store: the value at its own index, a filler between the old end and it, every other entry kept |
| LegacyFlexTable.EntryAt | DrFlexLayout/src/UI/DrFlexTableView.swift:143-162 | a view iff 0 ≤ section < count and the entry is a view |
| LegacyFlexTable.StoreAtIsReadBack | DrFlexLayout/src/UI/DrFlexTableView.swift:143-162 | against the reference store, a header stored at a section is read back there and no other section changes |
| LegacyFlexTable.MissingHeaderShiftsTheNext | DrFlexLayout/src/UI/DrFlexTableView.swift:180-186 | a header stored for section 1 of an empty list is answered for section 0 and not for 1; the reference store would answer it for 1 |
| LegacyFlexTable.CellAt | DrFlexLayout/src/UI/DrFlexTableView.swift:129-134 | a cell iff the section is cached, the row is below its count and the entry is not the placeholder |
| LegacyFlexTable.InOrderAppendIsReadBack | DrFlexLayout/src/UI/DrFlexTableView.swift:165-178 | a cell appended at the next row of its section is found again at that row |
| LegacyFlexTable.MissingCellShiftsTheNext | DrFlexLayout/src/UI/DrFlexTableView.swift:165-178 | a cell built for row 1 of an empty section is answered for row 0 and not for row 1 |
| LegacyFlexTable.DrFlexTableView.constructor | DrFlexLayout/src/UI/DrFlexTableView.swift:37-55 | empty caches and the style given |
| LegacyFlexTable.DrFlexTableView.Reload | DrFlexLayout/src/UI/DrFlexTableView.swift:76-81 | all three caches empty |
| LegacyFlexTable.DrFlexTableView.Refresh | DrFlexLayout/src/UI/DrFlexTableView.swift:84-86 | the caches are left intact |
| LegacyFlexTable.DrFlexTableView.Cell | DrFlexLayout/src/UI/DrFlexTableView.swift:117-134 | the cached cell per `CellAt`, only within the section's bounds |
| LegacyFlexTable.DrFlexTableView.HeaderView | DrFlexLayout/src/UI/DrFlexTableView.swift:143-148 | a header only for 0 ≤ section < count, and only when one is stored there |
| LegacyFlexTable.DrFlexTableView.FooterView | DrFlexLayout/src/UI/DrFlexTableView.swift:157-162 | a footer only for 0 ≤ section < count, and only when one is stored there |
| LegacyFlexTable.DrFlexTableView.AppendCell | DrFlexLayout/src/UI/DrFlexTableView.swift:165-178 | a missing cell is stored as the placeholder; an existing section is replaced-or-appended; a new section holds just this entry; nothing else changes |
| LegacyFlexTable.DrFlexTableView.AppendHeaderView | DrFlexLayout/src/UI/DrFlexTableView.swift:180-186 | the header list is replaced-or-appended at the section; cells and footers stay |
| LegacyFlexTable.DrFlexTableView.AppendFooterView | DrFlexLayout/src/UI/DrFlexTableView.swift:188-194 | the footer list is replaced-or-appended at the section; cells and headers stay |
| LegacyFlexTable.DrFlexTableView.NumberOfSections | DrFlexLayout/src/UI/DrFlexTableView.swift:449-451 | the bound closure's count, else 1 |
| LegacyFlexTable.DrFlexTableView.NumberOfRows | DrFlexLayout/src/UI/DrFlexTableView.swift:453-455 | the bound closure's count, else 0 |
| LegacyFlexTable.DrFlexTableView.HeightForRow | DrFlexLayout/src/UI/DrFlexTableView.swift:507-520 | the cached cell's height; otherwise the built cell is cached and its height answered, or 0 with nothing built |
| LegacyFlexTable.DrFlexTableView.HeightForHeader | DrFlexLayout/src/UI/DrFlexTableView.swift:522-540 | the cached header's height; otherwise the built header is stored, or the style's empty height is answered |
| LegacyFlexTable.DrFlexTableView.HeightForFooter | DrFlexLayout/src/UI/DrFlexTableView.swift:542-560 | as `HeightForHeader`, for footers |
| UIKitModel.EmptySupplementaryHeight | DrFlexLayout/src/UI/DrFlexTableView.swift:526-533 | 0 in a plain table, otherwise the smallest positive `CGFloat` |
| HeightCache.Remember | DrFlexLayout/src/components/tableView/DrTableViewDataSource.swift:155-175 | a hit answers the stored height with the cache unchanged; a miss answers the measured height and stores it under the key |
| HeightCache.RememberOnce | DrFlexLayout/src/components/tableView/DrTableViewDataSource.swift:155-175 | the second query under a key answers the first measurement, whatever the builder measures now |
| HeightCache.RememberAfterClean | DrFlexLayout/src/components/tableView/DrTableViewDataSource.swift:226-228 | after the cache is cleaned the next query measures again |
| HeightCache.DigitChar | DrFlexLayout/src/components/tableView/DrTableViewDataSource.swift:153-154 | a decimal digit character of that value |
| HeightCache.NatToString | DrFlexLayout/src/components/tableView/DrTableViewDataSource.swift:153-154 | string interpolation of a number is a non-empty run of digits |
| HeightCache.ParseNatToString | DrFlexLayout/src/components/tableView/DrTableViewDataSource.swift:153-154 | reading the digits back gives the number |
| HeightCache.NatToStringInjective | DrFlexLayout/src/components/tableView/DrTableViewDataSource.swift:153-154 | distinct numbers print differently |
| HeightCache.SplitAtDash | DrFlexLayout/src/components/tableView/DrTableViewDataSource.swift:153-154 | a digit string followed by `-` splits only one way |
| HeightCache.PathKeyInjective | DrFlexLayout/src/components/tableView/DrTableViewDataSource.swift:153-154 | two index paths share a `"section-row"` key only when they are equal |
| HeightCache.GroupSource.constructor | DrFlexLayout/src/components/tableView/DrTableViewDataSource.swift:59-68 | no source, nothing bound, an empty cache and the builders given |
| HeightCache.GroupSource.NumberOfSections | DrFlexLayout/src/components/tableView/DrTableViewDataSource.swift:134-136 | the bound groups' count, 1 when none is bound |
| HeightCache.GroupSource.NumberOfRows | DrFlexLayout/src/components/tableView/DrTableViewDataSource.swift:138-140 | the group's item count; exactly those rows are valid paths |
| HeightCache.GroupSource.ItemAt | DrFlexLayout/src/components/tableView/DrTableViewDataSource.swift:142-144 | the item at that row of that group |
| HeightCache.GroupSource.CellView | DrFlexLayout/src/components/tableView/DrTableViewDataSource.swift:146-149 | the builder applied to that item and path |
| HeightCache.GroupSource.CellKey | DrFlexLayout/src/components/tableView/DrTableViewDataSource.swift:151-176 | the `"section-row"` key when heights are mutable, the builder's reuse id otherwise |
| HeightCache.GroupSource.CellHeight | DrFlexLayout/src/components/tableView/DrTableViewDataSource.swift:151-176 | the memo under the cell key; the builder runs iff the key is missing |
| HeightCache.GroupSource.HeaderView | DrFlexLayout/src/components/tableView/DrTableViewDataSource.swift:178-184 | nothing without a header builder, otherwise what it builds for that group |
| HeightCache.GroupSource.FooterView | DrFlexLayout/src/components/tableView/DrTableViewDataSource.swift:186-192 | nothing without a footer builder, otherwise what it builds for that group |
| HeightCache.GroupSource.HeaderHeight | DrFlexLayout/src/components/tableView/DrTableViewDataSource.swift:194-208 | nil with no builder or no view; otherwise the memo under the reuse id, shared with the cells |
| HeightCache.GroupSource.FooterHeight | DrFlexLayout/src/components/tableView/DrTableViewDataSource.swift:210-224 | nil with no builder or no view; otherwise the memo under the reuse id |
| HeightCache.GroupSource.CleanCache | DrFlexLayout/src/components/tableView/DrTableViewDataSource.swift:226-228 | the cache is empty; nothing else changes |
| HeightCache.GroupSource.BindSource | DrFlexLayout/src/components/tableView/DrTableViewDataSource.swift:70-79 | the source becomes the groups given; the cache stays |
| HeightCache.GroupSource.OnClick | DrFlexLayout/src/components/tableView/DrTableViewDataSource.swift:81-88 | a click binder is set; the source, the cache and the display binder are untouched |
| HeightCache.GroupSource.OnWillDisplay | DrFlexLayout/src/components/tableView/DrTableViewDataSource.swift:91-98 | a display binder is set; the source, the cache and the click binder are untouched |
| HeightCache.GroupSource.Click | DrFlexLayout/src/components/tableView/DrTableViewDataSource.swift:230-236 | nothing without a click binder, otherwise the item, path and view |
| HeightCache.GroupSource.WillDisplay | DrFlexLayout/src/components/tableView/DrTableViewDataSource.swift:238-244 | nothing without a display binder, otherwise the item, path and view |
| HeightCache.ItemSource.constructor | DrFlexLayout/src/components/tableView/DrTableViewDataSource.swift:268-276 | no source, nothing bound, an empty cache and the builders given |
| HeightCache.ItemSource.NumberOfSections | DrFlexLayout/src/components/tableView/DrTableViewDataSource.swift:312-314 | always 1 |
| HeightCache.ItemSource.NumberOfRows | DrFlexLayout/src/components/tableView/DrTableViewDataSource.swift:316-318 | the item count, 0 when unbound; exactly those rows are valid paths in any section |
| HeightCache.ItemSource.ItemAt | DrFlexLayout/src/components/tableView/DrTableViewDataSource.swift:320-322 | the item at that row |
| HeightCache.ItemSource.ItemIgnoresSection | DrFlexLayout/src/components/tableView/DrTableViewDataSource.swift:320-322 | the lookup gives the same item whatever the section |
| HeightCache.ItemSource.CellView | DrFlexLayout/src/components/tableView/DrTableViewDataSource.swift:324-327 | the builder applied to that item and path |
| HeightCache.ItemSource.CellKey | DrFlexLayout/src/components/tableView/DrTableViewDataSource.swift:329-354 | the `"section-row"` key when heights are mutable, the reuse id otherwise |
| HeightCache.ItemSource.CellHeight | DrFlexLayout/src/components/tableView/DrTableViewDataSource.swift:329-354 | the memo under the cell key; the builder runs iff the key is missing |
| HeightCache.ItemSource.HeaderView | DrFlexLayout/src/components/tableView/DrTableViewDataSource.swift:356-358 | nothing without a header builder, otherwise what it builds |
| HeightCache.ItemSource.FooterView | DrFlexLayout/src/components/tableView/DrTableViewDataSource.swift:360-362 | nothing without a footer builder, otherwise what it builds |
| HeightCache.ItemSource.HeaderHeight | DrFlexLayout/src/components/tableView/DrTableViewDataSource.swift:364-378 | nil without a header view; otherwise the memo under the reuse id |
| HeightCache.ItemSource.FooterHeight | DrFlexLayout/src/components/tableView/DrTableViewDataSource.swift:380-394 | nil without a footer view; otherwise the memo under the reuse id |
| HeightCache.ItemSource.CleanCache | DrFlexLayout/src/components/tableView/DrTableViewDataSource.swift:396-398 | the cache is empty; nothing else changes |
| HeightCache.ItemSource.BindSource | DrFlexLayout/src/components/tableView/DrTableViewDataSource.swift:279-287 | the source becomes the items given; the cache stays |
| HeightCache.ItemSource.OnClick | DrFlexLayout/src/components/tableView/DrTableViewDataSource.swift:290-297 | a click binder is set; the source, the cache and the display binder are untouched |
| HeightCache.ItemSource.OnWillDisplay | DrFlexLayout/src/components/tableView/DrTableViewDataSource.swift:300-307 | a display binder is set; the source, the cache and the click binder are untouched |
| HeightCache.ItemSource.Click | DrFlexLayout/src/components/tableView/DrTableViewDataSource.swift:400-406 | nothing without a click binder, otherwise the item, path and view |
| HeightCache.ItemSource.WillDisplay | DrFlexLayout/src/components/tableView/DrTableViewDataSource.swift:408-414 | nothing without a display binder, otherwise the item, path and view |
| CoreStyle.IsSameRadius | DrFlexLayout/src/core/flex/DrStyle.swift:69-79 | true whenever `radius` is set; without it, iff all four corners are present and equal |
| CoreStyle.SameRadius | DrFlexLayout/src/core/flex/DrStyle.swift:81-87 | present iff `isSameRadius`; `radius` when set, else the common corner value |
| CoreStyle.UniformRound | DrFlexLayout/src/core/flex/DrStyle.swift:89-95 | only `radius` is set |
| CoreStyle.CornerRound | DrFlexLayout/src/core/flex/DrStyle.swift:97-103 | the four corners are set and `radius` is nil |
| CoreStyle.UniformRoundIsSame | DrFlexLayout/src/core/flex/DrStyle.swift:69-95 | a uniform round has the same radius everywhere, namely its radius |
| CoreStyle.CornerRoundIsSameIffEqual | DrFlexLayout/src/core/flex/DrStyle.swift:69-103 | a four-corner round is the same iff the four values are equal, and then reports that value |
| CoreStyle.NewShadow | DrFlexLayout/src/core/flex/DrStyle.swift:108-129 | the fields given |
| CoreStyle.ShadowDefaults | DrFlexLayout/src/core/flex/DrStyle.swift:121 | by default no spread radius and opacity 1 |
| CoreStyle.EmptyGradient | DrFlexLayout/src/core/flex/DrStyle.swift:131-145 | every gradient field nil |
| CoreStyle.ColorGradient | DrFlexLayout/src/core/flex/DrStyle.swift:139 | only the colours and locations given |
| CoreStyle.ComponentCount | DrFlexLayout/src/core/flex/DrStyle.swift:11-19 | how many of the four components are set: 0 iff none is |
| CoreStyle.EmptyStyle | DrFlexLayout/src/core/flex/DrStyle.swift:21 | no component set |
| CoreStyle.RoundedStyle | DrFlexLayout/src/core/flex/DrStyle.swift:23-26 | exactly one component, a uniform round of that radius |
| CoreStyle.BorderedStyle | DrFlexLayout/src/core/flex/DrStyle.swift:27-30 | exactly one component, that border |
| CoreStyle.ShadowedStyle | DrFlexLayout/src/core/flex/DrStyle.swift:31-33 | exactly one component, that shadow |
| CoreStyle.GradientFilledStyle | DrFlexLayout/src/core/flex/DrStyle.swift:35-37 | exactly one component, that gradient |
| CoreStyle.ConvenienceStylesAreDistinct | DrFlexLayout/src/core/flex/DrStyle.swift:21-37 | no two convenience initialisers produce equal styles, and each initialiser gives equal styles exactly for equal arguments |
| LegacyStyle.IsSameRadius | DrFlexLayout/src/flex/DrStyle.swift:93-102 | true whenever `radius` is set; without it, iff all four corners are present and equal |
| LegacyStyle.SameRadiusAsWritten | DrFlexLayout/src/flex/DrStyle.swift:105-111 | as written: `radius` when set, otherwise `topLeft` whatever the other corners |
| LegacyStyle.SameRadius | DrFlexLayout/src/flex/DrStyle.swift:105-111 | corrected: present iff `isSameRadius`, and then the common radius |
| LegacyStyle.CornerRound | DrFlexLayout/src/flex/DrStyle.swift:121-130 | the four corners are set and `radius` is nil |
| LegacyStyle.UniformRound | DrFlexLayout/src/flex/DrStyle.swift:113-119 | only `radius` is set |
| LegacyStyle.SameRadiusAsWrittenMisreports | DrFlexLayout/src/flex/DrStyle.swift:105-111 | corners 1, 2, 3, 4 are not the same, yet the code reports 1 |
| LegacyStyle.SameRadiusAsWrittenAgreesWhenSame | DrFlexLayout/src/flex/DrStyle.swift:93-111 | the written and corrected versions agree on same-radius rounds, and differ exactly when the corners differ and `topLeft` is set |
| LegacyStyle.ToCore | DrFlexLayout/src/flex/DrStyle.swift:80-130 | the same five fields in the core generation's type |
| LegacyStyle.GenerationsAgreeOnSameRadius | DrFlexLayout/src/flex/DrStyle.swift:93-111 | the older `isSameRadius` and the corrected `sameRadius` agree with the core generation's |
| LegacyStyle.WidthBorder | DrFlexLayout/src/flex/DrStyle.swift:57-60 | only the uniform width and the colour |
| LegacyStyle.EdgeBorder | DrFlexLayout/src/flex/DrStyle.swift:62-68 | left, top, right and bottom copied from the insets; width nil |
| LegacyStyle.AxisBorder | DrFlexLayout/src/flex/DrStyle.swift:70-76 | left = right = horizontal and top = bottom = vertical; width nil |
| LegacyStyle.SymmetricEdgeIsAxisBorder | DrFlexLayout/src/flex/DrStyle.swift:62-76 | symmetric insets give the same border as the horizontal/vertical initialiser |
| LegacyStyle.NewShadow | DrFlexLayout/src/flex/DrStyle.swift:145-151 | the fields given |
| LegacyStyle.ShadowDefaults | DrFlexLayout/src/flex/DrStyle.swift:145-151 | spread radius defaults to 0 and opacity to 1 |
| LegacyStyle.EmptyStyle | DrFlexLayout/src/flex/DrStyle.swift:23-41 | no component set |
| LegacyStyle.RoundedStyle | DrFlexLayout/src/flex/DrStyle.swift:23-41 | only a uniform round, whose radius both versions of `sameRadius` report |
| LegacyStyle.BorderedStyle | DrFlexLayout/src/flex/DrStyle.swift:23-41 | only a uniform-width border |
| LegacyStyle.ShadowedStyle | DrFlexLayout/src/flex/DrStyle.swift:23-41 | only that shadow |
| LegacyStyle.GradientFilledStyle | DrFlexLayout/src/flex/DrStyle.swift:23-41 | only that gradient |
| ViewStyle.Gate | DrFlexLayout/src/UI/UIView+Style.swift:119-133 | skip iff both styles are nil, or the built style equals the requested one and the frame is unchanged; the custom path iff not skipped and the style's round has differing corners; the system path otherwise |
| ViewStyle.GateSkipsOnceRecorded | DrFlexLayout/src/UI/UIView+Style.swift:119-133 | once the style and bounds are recorded the gate skips |
| ViewStyle.GateSkipsExactlyForSameComponents | DrFlexLayout/src/UI/UIView+Style.swift:121-125 | with the frame unchanged, the build is skipped exactly when the requested style agrees with the built one in round, border, shadow and gradient; changing any one of them rebuilds |
| ViewStyle.GateRebuildsOnResize | DrFlexLayout/src/UI/UIView+Style.swift:121-125 | a changed frame with a style always rebuilds |
| ViewStyle.CornersOf | DrFlexLayout/src/UI/UIView+Style.swift:198-213 | each missing corner radius counts as 0 |
| ViewStyle.Painted | DrFlexLayout/src/UI/UIView+Style.swift:139-159 | the gradient layer takes the bounds, colours and locations, and keeps its start, end and type unless the style sets them |
| ViewStyle.GradientFor | DrFlexLayout/src/UI/UIView+Style.swift:262-282 | a gradient layer exists iff the style has a gradient |
| ViewStyle.Shadowed | DrFlexLayout/src/UI/UIView+Style.swift:238-248 | the shadow fields come from the style or are cleared; a shadow path exists iff a spread radius is given, and is the bounds grown by it |
| ViewStyle.SystemCornerRadius | DrFlexLayout/src/UI/UIView+Style.swift:284-294 | the common radius when the round has one, 0 otherwise |
| ViewStyle.SystemAppearance | DrFlexLayout/src/UI/UIView+Style.swift:252-310 | background, round and border layers removed; a gradient layer iff the style has a gradient, with the layer's corner radius; corner radius `sameRadius ?? 0`; the border on the layer itself; the shadow applied |
| ViewStyle.CustomAppearance | DrFlexLayout/src/UI/UIView+Style.swift:136-249 | a gradient layer iff a gradient, a background layer iff none; a round layer from the corners; a border layer iff a border; the host layer's own corner and border cleared; the shadow applied |
| ViewStyle.PathsAreIdempotent | DrFlexLayout/src/UI/UIView+Style.swift:136-310 | running either path twice gives what running it once gives |
| ViewStyle.SystemPathUsesCommonRadius | DrFlexLayout/src/UI/UIView+Style.swift:128-132 | when the gate picks the system path for a round, the round has a common radius and it becomes the layer's corner radius |
| ViewStyle.StyledView.SetStyle | DrFlexLayout/src/UI/UIView+Style.swift:22-33 | afterwards the stored style is the new one and nothing else changed (the equal case skips the store) |
| ViewStyle.StyledView.SetOldStyle | DrFlexLayout/src/UI/UIView+Style.swift:35-46 | the same for the built style |
| ViewStyle.StyledView.BuildStyle | DrFlexLayout/src/UI/UIView+Style.swift:119-133 | a skip changes nothing; otherwise the style and frame are recorded and the chosen path's appearance results; either way the gate skips afterwards, so a second call is a no-op |
| ViewStyle.StyledView.BuildStyleWith | DrFlexLayout/src/UI/UIView+Style.swift:114-117 | the style is requested, then built as `BuildStyle` says |
| ViewStyle.StyledView.ResetByOther | DrFlexLayout/src/UI/UIView+Style.swift:136-249 | the layers become the custom appearance of the built style |
| ViewStyle.StyledView.ResetBySystem | DrFlexLayout/src/UI/UIView+Style.swift:252-310 | the layers become the system appearance of the built style |
| FlexEnums.Direction.YogaValue | DrFlexLayout/src/core/flex/DrFlextLayout+Enums.swift:10-19 | the case-for-case mapping, inverted by `DirectionOf` |
| FlexEnums.JustifyContent.YogaValue | DrFlexLayout/src/core/flex/DrFlextLayout+Enums.swift:21-32 | the case-for-case mapping, inverted by `JustifyOf` |
| FlexEnums.AlignContent.YogaValue | DrFlexLayout/src/core/flex/DrFlextLayout+Enums.swift:34-45 | the case-for-case mapping, inverted by `AlignContentOf` |
| FlexEnums.AlignItems.YogaValue | DrFlexLayout/src/core/flex/DrFlextLayout+Enums.swift:47-57 | the case-for-case mapping, inverted by `AlignItemsOf` |
| FlexEnums.AlignSelf.YogaValue | DrFlexLayout/src/core/flex/DrFlextLayout+Enums.swift:59-70 | the case-for-case mapping, inverted by `AlignSelfOf` |
| FlexEnums.Wrap.YogaValue | DrFlexLayout/src/core/flex/DrFlextLayout+Enums.swift:72-80 | the case-for-case mapping, inverted by `WrapOf` |
| FlexEnums.Position.YogaValue | DrFlexLayout/src/core/flex/DrFlextLayout+Enums.swift:82-89 | the case-for-case mapping, inverted by `PositionOf` |
| FlexEnums.LayoutDirection.YogaValue | DrFlexLayout/src/core/flex/DrFlextLayout+Enums.swift:91-99 | ltr iff LTR, rtl iff RTL, inherit otherwise |
| FlexEnums.Display.YogaValue | DrFlexLayout/src/core/flex/DrFlextLayout+Enums.swift:101-108 | flex and none case for case; none iff Yoga's none |
| FlexEnums.Flexibility | DrFlexLayout/src/core/flex/DrFlexLayout.swift:130-136 | fitContainer iff no flexibility, adjustWidth iff flexible width, adjustHeight iff flexible height |
| FlexEnums.MappingsAreInjective | DrFlexLayout/src/core/flex/DrFlextLayout+Enums.swift:10-108 | distinct cases of every enum map to distinct Yoga values |
| FlexEnums.AlignItemsAgreeWithContent | DrFlexLayout/src/core/flex/DrFlextLayout+Enums.swift:34-57 | an `AlignItems` and an `AlignContent` case give the same Yoga value iff they are the shared stretch, start, center or end |
| FlexEnums.AlignSelfExtendsAlignItems | DrFlexLayout/src/core/flex/DrFlextLayout+Enums.swift:47-70 | `auto` maps to auto and every other case maps as the `AlignItems` case of its name |
| FlexFacade.EdgeValues.With | DrFlexLayout/src/core/flex/DrFlexLayout.swift:778-900 | setting one edge changes that edge alone |
| FlexFacade.ValueOrAuto | DrFlexLayout/src/core/flex/DrFlexLayout+Private.swift:20-26 | a point value when given; auto when nil |
| FlexFacade.ValueOrUndefined | DrFlexLayout/src/core/flex/DrFlexLayout+Private.swift:12-18 | a point value when given; undefined when nil |
| FlexFacade.MissingSizeIsAutoMissingBoundIsUndefined | DrFlexLayout/src/core/flex/DrFlexLayout+Private.swift:12-26 | nil means auto for sizes and undefined for bounds; given values agree |
| FlexFacade.DrFlex.constructor | DrFlexLayout/src/core/flex/DrFlexLayout.swift:31-37 | the node is enabled for Yoga; no callbacks registered |
| FlexFacade.DrFlex.IsIncludedInLayout | DrFlexLayout/src/core/flex/DrFlexLayout.swift:155-162 | the node's inclusion flag |
| FlexFacade.DrFlex.SetIncludedInLayout | DrFlexLayout/src/core/flex/DrFlexLayout.swift:172-175 | only the inclusion flag changes, and reads back |
| FlexFacade.DrFlex.Direction | DrFlexLayout/src/core/flex/DrFlexLayout.swift:218-221 | only the flex direction changes, to the mapped value |
| FlexFacade.DrFlex.Wrap | DrFlexLayout/src/core/flex/DrFlexLayout.swift:229-232 | only the wrap changes |
| FlexFacade.DrFlex.LayoutDirection | DrFlexLayout/src/core/flex/DrFlexLayout.swift:243-258 | only the layout direction changes |
| FlexFacade.DrFlex.JustifyContent | DrFlexLayout/src/core/flex/DrFlexLayout.swift:270-273 | only the justification changes |
| FlexFacade.DrFlex.AlignItems | DrFlexLayout/src/core/flex/DrFlexLayout.swift:283-286 | only the item alignment changes |
| FlexFacade.DrFlex.AlignSelf | DrFlexLayout/src/core/flex/DrFlexLayout.swift:296-299 | only the self alignment changes |
| FlexFacade.DrFlex.AlignContent | DrFlexLayout/src/core/flex/DrFlexLayout.swift:308-311 | only the content alignment changes |
| FlexFacade.DrFlex.Grow | DrFlexLayout/src/core/flex/DrFlexLayout.swift:323-326 | only the grow factor changes |
| FlexFacade.DrFlex.Shrink | DrFlexLayout/src/core/flex/DrFlexLayout.swift:341-344 | only the shrink factor changes |
| FlexFacade.DrFlex.Basis | DrFlexLayout/src/core/flex/DrFlexLayout.swift:356-359 | only the basis changes; nil means auto |
| FlexFacade.DrFlex.BasisPercent | DrFlexLayout/src/core/flex/DrFlexLayout.swift:369-372 | only the basis changes, to a percentage |
| FlexFacade.DrFlex.Flex | DrFlexLayout/src/core/flex/DrFlexLayout.swift:379-382 | only the flex factor changes |
| FlexFacade.DrFlex.Width | DrFlexLayout/src/core/flex/DrFlexLayout.swift:390-393 | only the width changes; nil means auto |
| FlexFacade.DrFlex.WidthPercent | DrFlexLayout/src/core/flex/DrFlexLayout.swift:400-403 | only the width changes, to a percentage |
| FlexFacade.DrFlex.Height | DrFlexLayout/src/core/flex/DrFlexLayout.swift:409-412 | only the height changes; nil means auto |
| FlexFacade.DrFlex.HeightPercent | DrFlexLayout/src/core/flex/DrFlexLayout.swift:419-422 | only the height changes, to a percentage |
| FlexFacade.DrFlex.SizeWidthHeight | DrFlexLayout/src/core/flex/DrFlexLayout.swift:446-450 | only width and height change, each nil meaning auto |
| FlexFacade.DrFlex.Size | DrFlexLayout/src/core/flex/DrFlexLayout.swift:428-430 | a size sets both sides; nil sets both to auto |
| FlexFacade.DrFlex.SizeSide | DrFlexLayout/src/core/flex/DrFlexLayout.swift:436-440 | width = height = the side length |
| FlexFacade.DrFlex.SizePercent | DrFlexLayout/src/core/flex/DrFlexLayout.swift:457-461 | only width and height change, to percentages |
| FlexFacade.DrFlex.MinWidth | DrFlexLayout/src/core/flex/DrFlexLayout.swift:467-470 | only the minimum width changes; nil means undefined |
| FlexFacade.DrFlex.MinWidthPercent | DrFlexLayout/src/core/flex/DrFlexLayout.swift:476-479 | only the minimum width changes, to a percentage |
| FlexFacade.DrFlex.MaxWidth | DrFlexLayout/src/core/flex/DrFlexLayout.swift:485-488 | only the maximum width changes; nil means undefined |
| FlexFacade.DrFlex.MaxWidthPercent | DrFlexLayout/src/core/flex/DrFlexLayout.swift:494-497 | only the maximum width changes, to a percentage |
| FlexFacade.DrFlex.MinHeight | DrFlexLayout/src/core/flex/DrFlexLayout.swift:503-506 | only the minimum height changes; nil means undefined |
| FlexFacade.DrFlex.MinHeightPercent | DrFlexLayout/src/core/flex/DrFlexLayout.swift:512-515 | only the minimum height changes, to a percentage |
| FlexFacade.DrFlex.MaxHeight | DrFlexLayout/src/core/flex/DrFlexLayout.swift:521-525 | only the maximum height changes; nil means undefined |
| FlexFacade.DrFlex.MaxHeightPercent | DrFlexLayout/src/core/flex/DrFlexLayout.swift:531-534 | only the maximum height changes, to a percentage |
| FlexFacade.DrFlex.AspectRatio | DrFlexLayout/src/core/flex/DrFlexLayout.swift:545-548 | only the aspect ratio changes |
| FlexFacade.DrFlex.Position | DrFlexLayout/src/core/flex/DrFlexLayout.swift:574-577 | only the position type changes |
| FlexFacade.DrFlex.Offset | DrFlexLayout/src/core/flex/DrFlexLayout.swift:584-688 | `left` … `end`: only that side's offset changes, to points |
| FlexFacade.DrFlex.OffsetPercent | DrFlexLayout/src/core/flex/DrFlexLayout.swift:594-699 | the percentage variants: only that side's offset changes |
| FlexFacade.DrFlex.Horizontally | DrFlexLayout/src/core/flex/DrFlexLayout.swift:706-710 | left = right = the value; other offsets kept |
| FlexFacade.DrFlex.HorizontallyPercent | DrFlexLayout/src/core/flex/DrFlexLayout.swift:717-721 | left and right become that percentage |
| FlexFacade.DrFlex.Vertically | DrFlexLayout/src/core/flex/DrFlexLayout.swift:728-732 | top = bottom = the value; other offsets kept |
| FlexFacade.DrFlex.VerticallyPercent | DrFlexLayout/src/core/flex/DrFlexLayout.swift:739-743 | top and bottom become that percentage |
| FlexFacade.DrFlex.AllOffsets | DrFlexLayout/src/core/flex/DrFlexLayout.swift:750-756 | the four edges become equal to the value |
| FlexFacade.DrFlex.AllOffsetsPercent | DrFlexLayout/src/core/flex/DrFlexLayout.swift:763-769 | the four edges become that percentage |
| FlexFacade.DrFlex.Margin | DrFlexLayout/src/core/flex/DrFlexLayout.swift:778-938 | `marginTop` … `marginVertical` and `margin(_ value:)`: only that edge's margin changes |
| FlexFacade.DrFlex.MarginPercent | DrFlexLayout/src/core/flex/DrFlexLayout.swift:784-944 | the percentage variants: only that edge's margin changes |
| FlexFacade.DrFlex.MarginInsets | DrFlexLayout/src/core/flex/DrFlexLayout.swift:907-913 | top, left, bottom and right margins from the insets |
| FlexFacade.DrFlex.MarginDirectional | DrFlexLayout/src/core/flex/DrFlexLayout.swift:923-929 | top, start, bottom and end margins from the directional insets |
| FlexFacade.DrFlex.MarginVerticalHorizontal | DrFlexLayout/src/core/flex/DrFlexLayout.swift:949-953 | only the vertical and horizontal margins change |
| FlexFacade.DrFlex.MarginVerticalHorizontalPercent | DrFlexLayout/src/core/flex/DrFlexLayout.swift:955-959 | the same with percentages |
| FlexFacade.DrFlex.MarginTopHorizontalBottom | DrFlexLayout/src/core/flex/DrFlexLayout.swift:964-969 | only the top, horizontal and bottom margins change |
| FlexFacade.DrFlex.MarginTopHorizontalBottomPercent | DrFlexLayout/src/core/flex/DrFlexLayout.swift:971-976 | the same with percentages |
| FlexFacade.DrFlex.MarginEdges | DrFlexLayout/src/core/flex/DrFlexLayout.swift:982-988 | only the four edge margins change |
| FlexFacade.DrFlex.MarginEdgesPercent | DrFlexLayout/src/core/flex/DrFlexLayout.swift:991-997 | the same with percentages |
| FlexFacade.DrFlex.Padding | DrFlexLayout/src/core/flex/DrFlexLayout.swift:1005-1117 | `paddingTop` … `paddingVertical` and `padding(_ value:)`: only that edge's padding changes |
| FlexFacade.DrFlex.PaddingInsets | DrFlexLayout/src/core/flex/DrFlexLayout.swift:1086-1092 | top, left, bottom and right padding from the insets |
| FlexFacade.DrFlex.PaddingDirectional | DrFlexLayout/src/core/flex/DrFlexLayout.swift:1102-1108 | top, start, bottom and end padding from the directional insets |
| FlexFacade.DrFlex.PaddingVerticalHorizontal | DrFlexLayout/src/core/flex/DrFlexLayout.swift:1122-1126 | only the vertical and horizontal padding change |
| FlexFacade.DrFlex.PaddingTopHorizontalBottom | DrFlexLayout/src/core/flex/DrFlexLayout.swift:1131-1136 | only the top, horizontal and bottom padding change |
| FlexFacade.DrFlex.PaddingEdges | DrFlexLayout/src/core/flex/DrFlexLayout.swift:1142-1148 | only the four edge paddings change |
| FlexFacade.DrFlex.BorderWidth | DrFlexLayout/src/core/flex/DrFlexLayout.swift:1156-1213 | only that edge's border width changes (`borderWidth` sets the all-edges one) |
| FlexFacade.DrFlex.BackgroundColor | DrFlexLayout/src/core/flex/DrFlexLayout.swift:1224-1231 | only the view's background colour changes |
| FlexFacade.DrFlex.Style | DrFlexLayout/src/core/flex/DrFlexLayout.swift:1240-1251 | the whole style is replaced; the node's border width changes iff the style has a border; the style key is registered |
| FlexFacade.DrFlex.CornerRadii | DrFlexLayout/src/core/flex/DrFlexLayout.swift:1263-1279 | only the round of the style (or of an empty one) changes, to the four corners; the style key is registered |
| FlexFacade.DrFlex.CornerRadius | DrFlexLayout/src/core/flex/DrFlexLayout.swift:1288-1301 | only the round changes, to a uniform one; the style key is registered |
| FlexFacade.DrFlex.Border | DrFlexLayout/src/core/flex/DrFlexLayout.swift:1311-1325 | both the node's border width and the style's border are set; nothing else of the style changes |
| FlexFacade.DrFlex.Shadow | DrFlexLayout/src/core/flex/DrFlexLayout.swift:1338-1355 | only the shadow of the style changes; the style key is registered |
| FlexFacade.DrFlex.Gradient | DrFlexLayout/src/core/flex/DrFlexLayout.swift:1368-1381 | only the gradient of the style changes; the style key is registered |
| FlexFacade.DrFlex.Display | DrFlexLayout/src/core/flex/DrFlexLayout.swift:1390-1394 | the node's display, and the view hidden iff `none` |
| FlexFacade.DrFlex.DisplayShown | DrFlexLayout/src/core/flex/DrFlexLayout.swift:1400-1404 | flex iff true, the view hidden iff false |
| FlexFacade.DrFlex.IsHidden | DrFlexLayout/src/core/flex/DrFlexLayout.swift:1414-1416 | hidden iff the node's display is none |
| FlexFacade.DrFlex.SetHidden | DrFlexLayout/src/core/flex/DrFlexLayout.swift:1409-1413 | display none or flex and the view's `isHidden` follow, and the getter reads the value back |
| BubbleMask.ArrowDirection.RawValue | DrFlexLayout/src/components/bubble/BubbleMaskLayer.swift:11-16 | the raw value is in 0..3 and determines the direction |
| BubbleMask.Corners | DrFlexLayout/src/components/bubble/BubbleMaskLayer.swift:140-146 | the four corners of the body rectangle |
| BubbleMask.KeyPoints | DrFlexLayout/src/components/bubble/BubbleMaskLayer.swift:86-160 | seven points: arrow begin, tip and end, then the corners read from the arrow's raw value on |
| BubbleMask.Turn | DrFlexLayout/src/components/bubble/BubbleMaskLayer.swift:153-157 | the corner index `(rawValue + i) % 4` |
| BubbleMask.CornersAreRotated | DrFlexLayout/src/components/bubble/BubbleMaskLayer.swift:146-156 | the four corners are `[bottomRight, bottomLeft, topLeft, topRight]` rotated to start at the raw value |
| BubbleMask.FirstCornerFollowsArrow | DrFlexLayout/src/components/bubble/BubbleMaskLayer.swift:140-156 | the first corner after the arrow, for each direction |
| BubbleMask.HorizontalArrowPlacement | DrFlexLayout/src/components/bubble/BubbleMaskLayer.swift:105-125 | right: tip on the right edge and a narrower body; left: tip at 0 and the body starts after the arrow |
| BubbleMask.VerticalArrowPlacement | DrFlexLayout/src/components/bubble/BubbleMaskLayer.swift:112-133 | bottom: tip on the bottom edge and a shorter body; top: tip at 0 and the body starts below the arrow |
| BubbleMask.ArrowBaseShape | DrFlexLayout/src/components/bubble/BubbleMaskLayer.swift:105-133 | the base endpoints are the arrow's width apart, at its depth from the tip, with the tip midway |
| BubbleMask.TipOffsetFromCentre | DrFlexLayout/src/components/bubble/BubbleMaskLayer.swift:93-133 | the tip is range × (position − 0.5) from the middle of its side; 0.5 centres it |
| BubbleMask.TipWithinRange | DrFlexLayout/src/components/bubble/BubbleMaskLayer.swift:93-133 | with position in [0, 1] the tip stays within half the range of the middle |
| BubbleMask.SideArrowClearsCorners | DrFlexLayout/src/components/bubble/BubbleMaskLayer.swift:93-125 | with position in [0, 1] and room for the arrow, a side arrow's base stays between the rounded corners |
| BubbleMask.EdgeArrowClearsCorners | DrFlexLayout/src/components/bubble/BubbleMaskLayer.swift:93-133 | the same for an arrow at the top or bottom |
| BubbleMask.NextCorner | DrFlexLayout/src/components/bubble/BubbleMaskLayer.swift:69-80 | the next point index `(i + 1) % 7` |
| BubbleMask.OutlineThrough | DrFlexLayout/src/components/bubble/BubbleMaskLayer.swift:60-83 | starts at the last point and is closed; seven arcs, arc i from point i towards point i+1 with the last wrapping to point 0; arrow radius for the first three, corner radius for the rest |
| BubbleMask.BubbleMaskLayer.constructor | DrFlexLayout/src/components/bubble/BubbleMaskLayer.swift:38-47 | the arrow's defaults and no path yet |
| BubbleMask.BubbleMaskLayer.BubblePoints | DrFlexLayout/src/components/bubble/BubbleMaskLayer.swift:86-160 | the accumulating loop builds exactly the key points of the layer's geometry |
| BubbleMask.BubbleMaskLayer.BubblePath | DrFlexLayout/src/components/bubble/BubbleMaskLayer.swift:60-83 | the counting loop builds exactly the outline through those points |
| BubbleMask.BubbleMaskLayer.SetFrame | DrFlexLayout/src/components/bubble/BubbleMaskLayer.swift:53-57 | the bounds take the frame's size and the path is rebuilt for them |

## Left out

- The Yoga solver and layout passes: `applyLayout`, `calculateLayout`, `markDirty`, `sizeThatFits`, `intrinsicSize`. `layoutByAsync` is left out too, because it is concurrency. Every height a layout pass would produce is a parameter.
- View hierarchy operations of the facade (`addItem`, `define`, `removeFromSuperview`): these are UIKit.
- FlexFacade.DrFlex.Style: the `layoutFinished` callbacks are recorded only as the set of keys they are registered under (`finishedKeys`). The callback list itself is declared in Objective-C headers whose bodies are not part of this model. The same holds for `CornerRadii`, `CornerRadius`, `Border`, `Shadow` and `Gradient`.
- The facade's view is held weakly, and a missing view is a `preconditionFailure` in the style mutators. The model states this as `requires view != null`.
- `aspectRatio(of:)` is left out, because it reads a `UIImageView`'s image size. Converting percentages to Yoga's `Float` is also left out: percentages are reals.
- Layer construction is reduced to the fields the paths set: `CAShapeLayer` masks, sublayer order, `UIBezierPath` shapes and `CGPath` construction. The same holds for the `Float` narrowing of the shadow opacity. `insetBy` on a rectangle too small to inset (a null rectangle) is not modelled.
- The bubble's `CGPath` drawing is reduced to the points and the arcs' tangent points and radii.
- The data-source and delegate forwarding of both table views is left out, because it is UIKit calls. So are the table's `visibleCells`, cell editing, selection styles and the older table's `layoutTableHeaderView`/`layoutTableFooterView`. Closures that the table would call are parameters or optional values.
- FlexTable.DrFlexTableView.HeightForRow: `dr_resetWidth`, `layout(mode:)` and `frame.height` are represented by a `frameHeight` function and a Yoga-enabled predicate. The same holds for the header, footer and display variants.
- The scroll views, the Rx binders, `DrTableView.swift`, the demo application and the path-drawing helpers are not part of this model.
- The `Source<Item>` element type that the dispatcher is declared with is not part of this model, and neither is its four-field `insertRows` case. The dispatcher is modelled over `DrSource` and its three-field case.
- Source.DrSource.PerformBatchUpdates: the batch closure is not run. The model takes the operator it returns as a parameter; the edits the closure makes are the other operations, made before the call.
- HeightCache.GroupSource.CellHeight: a builder that is run is represented by its `builtHeight`, the height measured after layout. The same holds for `ItemSource.CellHeight` and the header and footer heights.
- Source.DrSource.RemoveItems: the method uses the corrected filter. For a repeated row the code as written traps or removes the row after it, and records the repeats. That behaviour is modelled by `Source.RemoveItemsAsWritten` and exhibited by `Source.RepeatedRowTraps` and `Source.RepeatedRowRemovesNeighbour`, not by the method's new state.
- HeightCache.GroupSource.BindSource: in the code `source` is a computed property that calls the source binder again on every access, so it follows whatever the bound target holds at that moment. The model records one answer of the binder when `BindSource` is called. It does not capture a target changing or being released later. The same holds for `ItemSource.BindSource`.
- HeightCache.GroupSource.OnClick: the binder holds its target weakly, and a call after the target is gone does nothing. The model records only that a binder is set, and `Click` answers the call it would make. The same holds for `OnWillDisplay` and for the item source.
- The source's integer indices trap when negative: array access below 0, or `remove(at:)` of a negative row in `removeItems`. These traps are stated as `requires` or as `nat` parameters rather than modelled as errors.

## Findings

| source | as written | input that shows it | evidently intended | confidence | as-written member | corrected member |
|---|---|---|---|---|---|---|
| DrFlexLayout/src/rx/Source.swift:445-448 | `removeAllItem` empties the items, then calls `removeLast` on the empty array | any section: `removeLast` of `[]` traps | the section is left with no items | high, not executed | Source.SourceSection.RemoveAllItemAsWritten | Source.SourceSection.RemoveAllItem |
| DrFlexLayout/src/rx/Source.swift:316-325 | `removeItems` filters the descending rows but keeps repeats, then removes each listed index in turn | rows [3, 3] on four items: the second `remove(at: 3)` traps; rows [2, 2] remove rows 2 and 3 and record [2, 2] | each listed row removed once, recorded strictly descending | medium, not executed | Source.RemoveItemsAsWritten | Source.RowsToRemove |
| DrFlexLayout/src/flex/DrStyle.swift:105-111 | the older `sameRadius` returns `topLeft` whenever `radius` is nil | corners 1, 2, 3, 4: `isSameRadius` is false yet `sameRadius` is 1 | nil unless `isSameRadius`, as in the core generation | high, not executed | LegacyStyle.SameRadiusAsWritten | LegacyStyle.SameRadius |
