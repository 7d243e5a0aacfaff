// The data source of the reactive table binding (rx/Source.swift): a list of
// sections of items, the operator describing the last edit, and a version id
// that every edit bumps so that a subscriber can tell a new snapshot from one
// it has already rendered.
module Source {
  import opened Wrappers
  import opened ArrayEdits

  const UINT64_MAX: int := 0xFFFF_FFFF_FFFF_FFFF

  newtype u64 = x: int | 0 <= x <= 0xFFFF_FFFF_FFFF_FFFF

  /** The id `updateId` moves to: one more, wrapping from `UInt64.max` back to 0. */
  function NextId(id: u64): (r: u64)
    ensures r as int == (id as int + 1) % (UINT64_MAX + 1)
  {
    if id as int == UINT64_MAX then 0 else id + 1
  }

  /** Every bump changes the id, and different ids bump to different ids. */
  lemma NextIdChangesAndSeparates(a: u64, b: u64)
    ensures NextId(a) != a
    ensures NextId(a) == NextId(b) ==> a == b
  {
  }

  /** What the last edit of a source did, for the table to redraw only that. */
  datatype Operate =
    | Init
    | RefreshSection(section: int)
    | RefreshSections(sections: seq<int>)
    | RefreshRow(section: int, row: int)
    | RefreshRows(section: int, rows: seq<int>)
    | ReloadSection(section: int)
    | ReloadSections(sections: seq<int>)
    | ReloadRow(section: int, row: int)
    | ReloadRows(section: int, rows: seq<int>)
    | DeleteRow(section: int, row: int)
    | DeleteRows(section: int, rows: seq<int>)
    | LoadMoreInSection(section: int)
    | LoadMore
    | InsertRows(section: int, insertIndex: int, rowCount: int)

  /** The untyped header or footer value a section may carry. */
  datatype Attachment = Attachment(id: nat)

  /** `SourceSection`: a value holding the items of one section. Every edit keeps the
      header and the footer. */
  datatype SourceSection<Item> = SourceSection(items: seq<Item>, header: Option<Attachment>, footer: Option<Attachment>)
  {
    function Append(item: Item): (r: SourceSection<Item>)
      ensures r.items == items + [item]
      ensures r.header == header && r.footer == footer
    {
      this.(items := items + [item])
    }

    function AppendItems(more: seq<Item>): (r: SourceSection<Item>)
      ensures |r.items| == |items| + |more|
      ensures r.items[..|items|] == items && r.items[|items|..] == more
      ensures r.header == header && r.footer == footer
    {
      this.(items := items + more)
    }

    /** `insert(_:at:)`; Swift traps unless `0 <= at <= items.count`. */
    function Insert(item: Item, at: int): (r: SourceSection<Item>)
      requires 0 <= at <= |items|
      ensures |r.items| == |items| + 1 && r.items[at] == item
      ensures r.items[..at] == items[..at] && r.items[at + 1..] == items[at..]
      ensures r.header == header && r.footer == footer
    {
      this.(items := InsertAt(items, at, [item]))
    }

    /** `insert(items:at:)`; Swift traps unless `0 <= at <= items.count`. */
    function InsertItems(more: seq<Item>, at: int): (r: SourceSection<Item>)
      requires 0 <= at <= |items|
      ensures |r.items| == |items| + |more|
      ensures r.items[..at] == items[..at] && r.items[at..at + |more|] == more
      ensures r.items[at + |more|..] == items[at..]
      ensures r.header == header && r.footer == footer
    {
      this.(items := InsertAt(items, at, more))
    }

    /** `removeItem(at:)`; Swift traps unless `0 <= at < items.count`. */
    function RemoveItem(at: int): (r: SourceSection<Item>)
      requires 0 <= at < |items|
      ensures |r.items| == |items| - 1
      ensures r.items[..at] == items[..at] && r.items[at..] == items[at + 1..]
      ensures r.header == header && r.footer == footer
    {
      this.(items := RemoveAt(items, at))
    }

    /** `removeAllItem` as written: it empties the items and then removes the last of
        them, which traps on an empty array; `None` stands for that trap. */
    function RemoveAllItemAsWritten(): (r: Option<SourceSection<Item>>)
      ensures r.None?
    {
      var emptied := this.(items := []);
      match RemoveLast(emptied.items)
      case None => None
      case Some(left) => Some(emptied.(items := left))
    }

    /** `removeAllItem` as evidently intended: no items left. */
    function RemoveAllItem(): (r: SourceSection<Item>)
      ensures r.items == []
      ensures r.header == header && r.footer == footer
    {
      this.(items := [])
    }

    /** `removeFirstItem`: the first item and the section without it, or nothing when empty. */
    function RemoveFirstItem(): (r: (SourceSection<Item>, Option<Item>))
      ensures |items| == 0 ==> r == (this, None)
      ensures |items| > 0 ==> r.1 == Some(items[0]) && [items[0]] + r.0.items == items
      ensures r.0.header == header && r.0.footer == footer
    {
      if |items| > 0 then (this.(items := items[1..]), Some(items[0])) else (this, None)
    }

    /** `removeLastItem`: the last item and the section without it, or nothing when empty. */
    function RemoveLastItem(): (r: (SourceSection<Item>, Option<Item>))
      ensures |items| == 0 ==> r == (this, None)
      ensures |items| > 0 ==> r.1 == Some(items[|items| - 1]) && r.0.items + [items[|items| - 1]] == items
      ensures r.0.header == header && r.0.footer == footer
    {
      if |items| > 0 then (this.(items := items[..|items| - 1]), Some(items[|items| - 1]))
      else (this, None)
    }
  }

  /** `Array.removeLast()`: the array without its last element; `None` where Swift traps
      on an empty array. */
  function RemoveLast<T>(xs: seq<T>): (r: Option<seq<T>>)
    ensures r.Some? <==> |xs| > 0
    ensures r.Some? ==> r.value + [xs[|xs| - 1]] == xs
  {
    if |xs| > 0 then Some(xs[..|xs| - 1]) else None
  }

  /** `SourceSection(items:)`: a section without header or footer. */
  function NewSection<Item>(items: seq<Item>): (r: SourceSection<Item>)
    ensures r.items == items && r.header.None? && r.footer.None?
  {
    SourceSection(items, None, None)
  }

  /** The removals undo the insertions. */
  lemma SectionRemovalsUndoInsertions<Item>(s: SourceSection<Item>, x: Item, at: int)
    requires 0 <= at <= |s.items|
    ensures s.Append(x).RemoveLastItem() == (s, Some(x))
    ensures s.Insert(x, 0).RemoveFirstItem() == (s, Some(x))
    ensures s.Insert(x, at).RemoveItem(at) == s
  {
    assert s.Append(x).items[..|s.items|] == s.items;
    assert s.Insert(x, 0).items[1..] == s.items;
    RemoveAtUndoesInsertAt(s.items, at, x);
  }

  /** Appending is inserting at the end. */
  lemma AppendIsInsertAtEnd<Item>(s: SourceSection<Item>, x: Item, more: seq<Item>)
    ensures s.Append(x) == s.Insert(x, |s.items|)
    ensures s.AppendItems(more) == s.InsertItems(more, |s.items|)
  {
    assert s.items[|s.items|..] == [];
  }

  /** The in-range rows of `rows` for a section of `count` items. */
  function RowSet(rows: seq<int>, count: int): (r: set<int>)
    ensures forall x :: x in r <==> x in rows && x < count
  {
    set k | 0 <= k < |rows| && rows[k] < count :: rows[k]
  }

  /** The rows `removeItems(rows:section:)` removes, and records, as written: `rows`
      sorted in descending order, keeping those below the item count, repeats included. */
  function RowsToRemoveAsWritten(rows: seq<int>, count: int): (r: seq<int>)
    ensures Descending(r)
    ensures forall x :: multiset(r)[x] == if x < count then multiset(rows)[x] else 0
  {
    SortDescendingSorted(rows);
    KeepBelowSorted(SortDescending(rows), count);
    KeepBelow(SortDescending(rows), count)
  }

  /** Lines 316-325 of `removeItems` as written: the items left and the rows recorded,
      or `None` where one of the removals traps. */
  function RemoveItemsAsWritten<Item>(items: seq<Item>, rows: seq<int>): (r: Option<(seq<Item>, seq<int>)>)
    ensures r.Some? ==> r.value.1 == RowsToRemoveAsWritten(rows, |items|)
    ensures r.Some? ==> |r.value.0| + |r.value.1| == |items|
  {
    var kept := RowsToRemoveAsWritten(rows, |items|);
    match RemoveEach(items, kept)
    case None => None
    case Some(left) => Some((left, kept))
  }

  /** Where no row is listed twice, the removal as written never traps and removes
      exactly the listed rows that exist. */
  lemma {:induction false} RemoveItemsAsWrittenWithoutRepeats<Item>(items: seq<Item>, rows: seq<int>)
    requires forall k :: 0 <= k < |rows| ==> rows[k] >= 0
    requires forall x :: multiset(rows)[x] <= 1
    ensures StrictlyDescending(RowsToRemoveAsWritten(rows, |items|))
    ensures RemoveItemsAsWritten(items, rows)
         == Some((Keep(items, RowSet(rows, |items|)), RowsToRemoveAsWritten(rows, |items|)))
  {
    var kept := RowsToRemoveAsWritten(rows, |items|);
    DescendingWithoutRepeatsIsStrict(kept);
    WrittenRowsInRange(rows, |items|);
    RemoveEachKeep(items, {}, kept);
    WrittenRowsAreRowSet(rows, |items|);
    assert {} + (set k | 0 <= k < |kept| :: kept[k]) == RowSet(rows, |items|);
  }

  /** The rows recorded as written are existing rows. */
  lemma WrittenRowsInRange(rows: seq<int>, count: int)
    requires forall k :: 0 <= k < |rows| ==> rows[k] >= 0
    ensures forall k :: 0 <= k < |RowsToRemoveAsWritten(rows, count)| ==>
      0 <= RowsToRemoveAsWritten(rows, count)[k] < count
  {
    var kept := RowsToRemoveAsWritten(rows, count);
    forall k | 0 <= k < |kept| ensures 0 <= kept[k] < count {
      assert kept[k] in multiset(kept);
      assert kept[k] in multiset(rows);
    }
  }

  /** The rows recorded as written, as a set, are the in-range rows. */
  lemma WrittenRowsAreRowSet(rows: seq<int>, count: int)
    ensures (set k | 0 <= k < |RowsToRemoveAsWritten(rows, count)| :: RowsToRemoveAsWritten(rows, count)[k])
         == RowSet(rows, count)
  {
    var kept := RowsToRemoveAsWritten(rows, count);
    var keptSet := set k | 0 <= k < |kept| :: kept[k];
    forall x | x in RowSet(rows, count) ensures x in keptSet {
      assert x in multiset(rows);
      assert x in multiset(kept);
      var k :| 0 <= k < |kept| && kept[k] == x;
    }
    forall x | x in keptSet ensures x in RowSet(rows, count) {
      var k :| 0 <= k < |kept| && kept[k] == x;
      assert x in multiset(kept);
      assert x in multiset(rows);
    }
  }

  /** A row listed twice makes the second removal run past the end and trap ... */
  lemma RepeatedRowTraps()
    ensures RemoveItemsAsWritten([10, 11, 12, 13], [3, 3]) == None
  {
    assert [3, 3][1..] == [3];
    assert SortDescending([3]) == [3];
    assert SortDescending([3, 3]) == [3, 3];
    assert KeepBelow([3, 3], 4) == [3, 3] by {
      assert [3, 3][1..] == [3] && [3][1..] == [];
    }
    var after := RemoveAt([10, 11, 12, 13], 3);
    assert after == [10, 11, 12];
    assert RemoveEach(after, [3]) == None;
  }

  /** ... or remove the row after it, which was not listed. */
  lemma RepeatedRowRemovesNeighbour()
    ensures RemoveItemsAsWritten([10, 11, 12, 13], [2, 2]) == Some(([10, 11], [2, 2]))
  {
    assert [2, 2][1..] == [2];
    assert SortDescending([2]) == [2];
    assert SortDescending([2, 2]) == [2, 2];
    assert KeepBelow([2, 2], 4) == [2, 2] by {
      assert [2, 2][1..] == [2] && [2][1..] == [];
    }
    var once := RemoveAt([10, 11, 12, 13], 2);
    assert once == [10, 11, 13];
    var twice := RemoveAt(once, 2);
    assert twice == [10, 11];
    assert RemoveEach(twice, []) == Some(twice);
    assert RemoveEach(once, [2]) == Some(twice);
  }

  /** The first loop of `removeItems`: walks `rows` sorted in descending order and keeps
      each row below `count`, skipping a row equal to the one kept just before. The result
      is strictly descending and holds exactly the listed rows below `count`. */
  method RowsToRemove(rows: seq<int>, count: nat) returns (kept: seq<int>)
    requires forall k :: 0 <= k < |rows| ==> rows[k] >= 0
    ensures StrictlyDescending(kept)
    ensures forall k :: 0 <= k < |kept| ==> 0 <= kept[k] < count
    ensures (set k | 0 <= k < |kept| :: kept[k]) == RowSet(rows, count)
  {
    var sorted := SortDescending(rows);
    SortDescendingSorted(rows);
    SortedRowsNonNegative(rows);
    kept := [];
    var j := 0;
    while j < |sorted|
      invariant 0 <= j <= |sorted|
      invariant StrictlyDescending(kept)
      invariant forall x :: x in kept <==> x in sorted[..j] && x < count
      invariant forall k :: 0 <= k < |kept| ==> 0 <= kept[k] < count
    {
      var i := sorted[j];
      ghost var before := kept;
      if i < count && (kept == [] || kept[|kept| - 1] != i) {
        KeepingNextRowStaysStrict(sorted, j, kept);
        kept := kept + [i];
      }
      WalkKeepsInRangeRows(sorted, j, before, kept, count);
      j := j + 1;
    }
    assert sorted[..j] == sorted;
    KeptRowsAreRowSet(kept, sorted, rows, count);
  }

  /** Sorting keeps rows non-negative. */
  lemma SortedRowsNonNegative(rows: seq<int>)
    requires forall k :: 0 <= k < |rows| ==> rows[k] >= 0
    ensures forall k :: 0 <= k < |SortDescending(rows)| ==> SortDescending(rows)[k] >= 0
  {
    var sorted := SortDescending(rows);
    forall k | 0 <= k < |sorted| ensures sorted[k] >= 0 {
      assert sorted[k] in multiset(sorted);
      assert sorted[k] in multiset(rows);
    }
  }

  /** One step of the walk keeps `kept` holding exactly the in-range rows seen so far. */
  lemma WalkKeepsInRangeRows(sorted: seq<int>, j: int, before: seq<int>, after: seq<int>, count: int)
    requires 0 <= j < |sorted|
    requires forall x :: x in before <==> x in sorted[..j] && x < count
    requires after == if sorted[j] < count && (before == [] || before[|before| - 1] != sorted[j])
                      then before + [sorted[j]] else before
    ensures forall x :: x in after <==> x in sorted[..j + 1] && x < count
  {
    assert sorted[..j + 1] == sorted[..j] + [sorted[j]];
    if sorted[j] < count && before != [] && before[|before| - 1] == sorted[j] {
      assert sorted[j] in before;
    }
  }

  /** A row of the descending walk that differs from the last one kept is below it. */
  lemma KeepingNextRowStaysStrict(sorted: seq<int>, j: int, kept: seq<int>)
    requires Descending(sorted) && 0 <= j < |sorted|
    requires StrictlyDescending(kept)
    requires forall x :: x in kept ==> x in sorted[..j]
    requires kept != [] ==> kept[|kept| - 1] != sorted[j]
    ensures StrictlyDescending(kept + [sorted[j]])
  {
    if kept != [] {
      var last := kept[|kept| - 1];
      assert last in sorted[..j];
      var p :| 0 <= p < j && sorted[p] == last;
    }
  }

  /** The rows kept from a permutation of `rows` are the in-range rows of `rows`. */
  lemma KeptRowsAreRowSet(kept: seq<int>, sorted: seq<int>, rows: seq<int>, count: int)
    requires multiset(sorted) == multiset(rows)
    requires forall x :: x in kept <==> x in sorted && x < count
    ensures (set k | 0 <= k < |kept| :: kept[k]) == RowSet(rows, count)
  {
    var keptSet := set k | 0 <= k < |kept| :: kept[k];
    forall x | x in RowSet(rows, count) ensures x in keptSet {
      assert x in multiset(rows);
      assert x in multiset(sorted);
      assert x in kept;
      var k :| 0 <= k < |kept| && kept[k] == x;
    }
    forall x | x in keptSet ensures x in RowSet(rows, count) {
      var k :| 0 <= k < |kept| && kept[k] == x;
      assert x in kept;
      assert x in multiset(sorted);
      assert x in multiset(rows);
    }
  }

  /** The second loop of `removeItems`: removes the rows one after another. For strictly
      descending rows in range this removes exactly that set of rows. */
  method RemoveRowsInTurn<Item>(items: seq<Item>, rows: seq<int>) returns (left: seq<Item>)
    requires StrictlyDescending(rows)
    requires forall k :: 0 <= k < |rows| ==> 0 <= rows[k] < |items|
    ensures left == Keep(items, set k | 0 <= k < |rows| :: rows[k])
  {
    var drop := set k | 0 <= k < |rows| :: rows[k];
    RemoveEachKeep(items, {}, rows);
    assert {} + drop == drop;
    left := items;
    var k := 0;
    assert rows[0..] == rows;
    while k < |rows|
      invariant 0 <= k <= |rows|
      invariant RemoveEach(left, rows[k..]) == Some(Keep(items, drop))
    {
      assert rows[k..][1..] == rows[k + 1..];
      left := RemoveAt(left, rows[k]);
      k := k + 1;
    }
    assert rows[k..] == [];
  }

  /** `DrSource`: the sections, the operator of the last edit and the version id. */
  class DrSource<Item> {
    var id: u64
    var operate: Operate
    var sections: seq<SourceSection<Item>>

    /** `init()`: empty, id 0. */
    constructor ()
      ensures sections == [] && operate == Init && id == 0
    {
      id := 0;
      operate := Init;
      sections := [];
    }

    /** `init(_ source:)`: takes the other source's sections, bumps the other source's id
        and adopts it, so that the two compare equal. */
    constructor Copy(source: DrSource<Item>)
      modifies source
      ensures sections == old(source.sections) && operate == Init
      ensures source.id == NextId(old(source.id)) && id == source.id
      ensures source.sections == old(source.sections) && source.operate == old(source.operate)
    {
      sections := source.sections;
      operate := Init;
      source.id := NextId(source.id);
      id := source.id;
    }

    /** `init(sections:)`: the id is bumped once from 0. */
    constructor WithSections(sections: seq<SourceSection<Item>>)
      ensures this.sections == sections && operate == Init && id == 1
    {
      this.sections := sections;
      operate := Init;
      id := NextId(0);
    }

    /** `init(items:)`: one section of the items, or no section when there are none. */
    constructor WithItems(items: Option<seq<Item>>)
      ensures items.None? ==> sections == []
      ensures items.Some? ==> sections == [NewSection(items.value)]
      ensures operate == Init && id == 1
    {
      sections := if items.Some? then [NewSection(items.value)] else [];
      operate := Init;
      id := NextId(0);
    }

    /** `init(sectionList:)`: one section per list. */
    constructor WithSectionList(lists: seq<seq<Item>>)
      ensures |sections| == |lists|
      ensures forall k :: 0 <= k < |lists| ==> sections[k] == NewSection(lists[k])
      ensures operate == Init && id == 1
    {
      sections := seq(|lists|, k requires 0 <= k < |lists| => NewSection(lists[k]));
      operate := Init;
      id := NextId(0);
    }

    /** `updateId`. */
    method UpdateId()
      modifies this
      ensures id == NextId(old(id))
      ensures sections == old(sections) && operate == old(operate)
    {
      if id as int == UINT64_MAX {
        id := 0;
      } else {
        id := id + 1;
      }
    }

    /** `append(sections:)`. */
    method AppendSections(more: seq<SourceSection<Item>>)
      modifies this
      ensures sections == old(sections) + more
      ensures operate == LoadMore && id == NextId(old(id))
    {
      sections := sections + more;
      operate := LoadMore;
      UpdateId();
    }

    /** `append(models:section:)`. A negative section traps unless there are no sections. */
    method AppendModels(models: seq<Item>, section: int) returns (ok: bool)
      requires 0 <= section || |sections| == 0
      modifies this
      ensures ok <==> section < |old(sections)| || section == 0
      ensures !ok ==> sections == old(sections) && operate == old(operate) && id == old(id)
      ensures ok ==> id == NextId(old(id))
      ensures ok && |old(sections)| == 0 ==> sections == [NewSection(models)] && operate == Init
      ensures ok && |old(sections)| > 0 ==>
        sections == old(sections)[section := old(sections)[section].AppendItems(models)]
        && operate == LoadMoreInSection(section)
    {
      if !(section < |sections| || section == 0) {
        return false;
      }
      if |sections| == 0 {
        sections := [NewSection(models)];
        operate := Init;
        UpdateId();
        return true;
      }
      sections := sections[section := sections[section].AppendItems(models)];
      operate := LoadMoreInSection(section);
      UpdateId();
      return true;
    }

    /** `append(model:section:)`. */
    method AppendModel(model: Item, section: int) returns (ok: bool)
      requires 0 <= section || |sections| == 0
      modifies this
      ensures ok <==> section < |old(sections)| || section == 0
      ensures !ok ==> sections == old(sections) && operate == old(operate) && id == old(id)
      ensures ok ==> id == NextId(old(id))
      ensures ok && |old(sections)| == 0 ==> sections == [NewSection([model])] && operate == Init
      ensures ok && |old(sections)| > 0 ==>
        sections == old(sections)[section := old(sections)[section].Append(model)]
        && operate == LoadMoreInSection(section)
    {
      if !(section < |sections| || section == 0) {
        return false;
      }
      if |sections| == 0 {
        sections := [NewSection([model])];
        operate := Init;
        UpdateId();
        return true;
      }
      sections := sections[section := sections[section].Append(model)];
      operate := LoadMoreInSection(section);
      UpdateId();
      return true;
    }

    /** `insert(models:section:insertIndex:)`. A negative section traps unless `models` is empty. */
    method InsertModels(models: seq<Item>, section: int, insertIndex: int) returns (ok: bool)
      requires 0 <= section || |models| == 0
      modifies this
      ensures ok <==> (section < |old(sections)| && |models| > 0
                       && 0 <= insertIndex <= |old(sections)[section].items|)
      ensures !ok ==> sections == old(sections) && operate == old(operate) && id == old(id)
      ensures ok ==>
        sections == old(sections)[section := old(sections)[section].InsertItems(models, insertIndex)]
        && operate == InsertRows(section, insertIndex, |models|)
        && id == NextId(old(id))
    {
      if !(section < |sections| && |models| > 0) {
        return false;
      }
      var sec := sections[section];
      if !(insertIndex <= |sec.items| && insertIndex >= 0) {
        return false;
      }
      sections := sections[section := sec.InsertItems(models, insertIndex)];
      operate := InsertRows(section, insertIndex, |models|);
      UpdateId();
      return true;
    }

    /** `insert(model:section:insertIndex:)`. */
    method InsertModel(model: Item, section: nat, insertIndex: int) returns (ok: bool)
      modifies this
      ensures ok <==> section < |old(sections)| && 0 <= insertIndex <= |old(sections)[section].items|
      ensures !ok ==> sections == old(sections) && operate == old(operate) && id == old(id)
      ensures ok ==>
        sections == old(sections)[section := old(sections)[section].Insert(model, insertIndex)]
        && operate == InsertRows(section, insertIndex, 1)
        && id == NextId(old(id))
    {
      if !(section < |sections|) {
        return false;
      }
      var sec := sections[section];
      if !(insertIndex <= |sec.items| && insertIndex >= 0) {
        return false;
      }
      sections := sections[section := sec.Insert(model, insertIndex)];
      operate := InsertRows(section, insertIndex, 1);
      UpdateId();
      return true;
    }

    /** `replace(sections:)`. */
    method ReplaceSections(all: seq<SourceSection<Item>>)
      modifies this
      ensures sections == all && operate == Init && id == NextId(old(id))
    {
      sections := all;
      operate := Init;
      UpdateId();
    }

    /** `replace(models:section:)`. */
    method ReplaceModels(models: seq<Item>, section: int) returns (ok: bool)
      requires 0 <= section || |sections| == 0
      modifies this
      ensures ok <==> section < |old(sections)| || section == 0
      ensures !ok ==> sections == old(sections) && operate == old(operate) && id == old(id)
      ensures ok ==> id == NextId(old(id))
      ensures ok && |old(sections)| == 0 ==> sections == [NewSection(models)] && operate == Init
      ensures ok && |old(sections)| > 0 ==>
        sections == old(sections)[section := old(sections)[section].(items := models)]
        && operate == ReloadSection(section)
    {
      if !(section < |sections| || section == 0) {
        return false;
      }
      if |sections| == 0 {
        sections := [NewSection(models)];
        operate := Init;
        UpdateId();
        return true;
      }
      sections := sections[section := sections[section].(items := models)];
      operate := ReloadSection(section);
      UpdateId();
      return true;
    }

    /** `replace(model:row:section:)`. On a source without sections the row is ignored and
        the model becomes the only item. */
    method ReplaceModel(model: Item, row: int, section: int) returns (ok: bool)
      requires |sections| == 0 || (0 <= section && (section < |sections| ==> 0 <= row))
      modifies this
      ensures ok <==> if |old(sections)| == 0 then section <= 0
                      else 0 <= section < |old(sections)| && row < |old(sections)[section].items|
      ensures !ok ==> sections == old(sections) && operate == old(operate) && id == old(id)
      ensures ok ==> id == NextId(old(id))
      ensures ok && |old(sections)| == 0 ==> sections == [NewSection([model])] && operate == Init
      ensures ok && |old(sections)| > 0 ==>
        sections == old(sections)[section := old(sections)[section].(items := old(sections)[section].items[row := model])]
        && operate == ReloadRow(section, row)
    {
      if !(section < |sections| || section == 0) {
        return false;
      }
      if |sections| == 0 {
        sections := [NewSection([model])];
        operate := Init;
        UpdateId();
        return true;
      }
      var sec := sections[section];
      if !(row < |sec.items|) {
        return false;
      }
      sections := sections[section := sec.(items := sec.items[row := model])];
      operate := ReloadRow(section, row);
      UpdateId();
      return true;
    }

    /** `refresh(model:row:section:)`: a successful replacement recorded as a row refresh,
        also on a source that had no sections. The id is bumped once. */
    method Refresh(model: Item, row: int, section: int) returns (ok: bool)
      requires |sections| == 0 || (0 <= section && (section < |sections| ==> 0 <= row))
      modifies this
      ensures ok <==> if |old(sections)| == 0 then section <= 0
                      else 0 <= section < |old(sections)| && row < |old(sections)[section].items|
      ensures !ok ==> sections == old(sections) && operate == old(operate) && id == old(id)
      ensures ok ==> id == NextId(old(id)) && operate == RefreshRow(section, row)
      ensures ok && |old(sections)| == 0 ==> sections == [NewSection([model])]
      ensures ok && |old(sections)| > 0 ==>
        sections == old(sections)[section := old(sections)[section].(items := old(sections)[section].items[row := model])]
    {
      ok := ReplaceModel(model, row, section);
      if ok {
        operate := RefreshRow(section, row);
      }
    }

    /** `clear(section:)`: the section stays, without items. */
    method Clear(section: nat) returns (ok: bool)
      modifies this
      ensures ok <==> section < |old(sections)|
      ensures !ok ==> sections == old(sections) && operate == old(operate) && id == old(id)
      ensures ok ==>
        sections == old(sections)[section := old(sections)[section].(items := [])]
        && operate == ReloadSection(section)
        && id == NextId(old(id))
    {
      if !(section < |sections|) {
        return false;
      }
      sections := sections[section := sections[section].(items := [])];
      operate := ReloadSection(section);
      UpdateId();
      return true;
    }

    /** `clearFirstSection`. */
    method ClearFirstSection() returns (ok: bool)
      modifies this
      ensures ok <==> |old(sections)| > 0
      ensures !ok ==> sections == old(sections) && operate == old(operate) && id == old(id)
      ensures ok ==>
        sections == old(sections)[0 := old(sections)[0].(items := [])]
        && operate == ReloadSection(0)
        && id == NextId(old(id))
    {
      if !(|sections| > 0) {
        return false;
      }
      sections := sections[0 := sections[0].(items := [])];
      operate := ReloadSection(0);
      UpdateId();
      return true;
    }

    /** `clearLastSection`. */
    method ClearLastSection() returns (ok: bool)
      modifies this
      ensures ok <==> |old(sections)| > 0
      ensures !ok ==> sections == old(sections) && operate == old(operate) && id == old(id)
      ensures ok ==>
        var last := |old(sections)| - 1;
        sections == old(sections)[last := old(sections)[last].(items := [])]
        && operate == ReloadSection(last)
        && id == NextId(old(id))
    {
      if !(|sections| > 0) {
        return false;
      }
      var count := |sections|;
      sections := sections[count - 1 := sections[count - 1].(items := [])];
      operate := ReloadSection(count - 1);
      UpdateId();
      return true;
    }

    /** `removeFirstItem(section:)`. */
    method RemoveFirstItem(section: nat) returns (ok: bool)
      modifies this
      ensures ok <==> section < |old(sections)| && |old(sections)[section].items| > 0
      ensures !ok ==> sections == old(sections) && operate == old(operate) && id == old(id)
      ensures ok ==>
        sections == old(sections)[section := old(sections)[section].(items := old(sections)[section].items[1..])]
        && operate == DeleteRow(section, 0)
        && id == NextId(old(id))
    {
      if !(section < |sections|) {
        return false;
      }
      var sec := sections[section];
      if !(|sec.items| > 0) {
        return false;
      }
      sections := sections[section := sec.(items := sec.items[1..])];
      operate := DeleteRow(section, 0);
      UpdateId();
      return true;
    }

    /** `removeLastItem(section:)`: the recorded row is the index the removed item had. */
    method RemoveLastItem(section: nat) returns (ok: bool)
      modifies this
      ensures ok <==> section < |old(sections)| && |old(sections)[section].items| > 0
      ensures !ok ==> sections == old(sections) && operate == old(operate) && id == old(id)
      ensures ok ==>
        var n := |old(sections)[section].items|;
        sections == old(sections)[section := old(sections)[section].(items := old(sections)[section].items[..n - 1])]
        && operate == DeleteRow(section, n - 1)
        && id == NextId(old(id))
    {
      if !(section < |sections|) {
        return false;
      }
      var sec := sections[section];
      if !(|sec.items| > 0) {
        return false;
      }
      var left := sec.items[..|sec.items| - 1];
      sections := sections[section := sec.(items := left)];
      operate := DeleteRow(section, |left|);
      UpdateId();
      return true;
    }

    /** `removeItem(row:section:)`. */
    method RemoveItem(row: nat, section: nat) returns (ok: bool)
      modifies this
      ensures ok <==> section < |old(sections)| && row < |old(sections)[section].items|
      ensures !ok ==> sections == old(sections) && operate == old(operate) && id == old(id)
      ensures ok ==>
        sections == old(sections)[section := old(sections)[section].RemoveItem(row)]
        && operate == DeleteRow(section, row)
        && id == NextId(old(id))
    {
      if !(section < |sections|) {
        return false;
      }
      var sec := sections[section];
      if !(row < |sec.items|) {
        return false;
      }
      sections := sections[section := sec.RemoveItem(row)];
      operate := DeleteRow(section, row);
      UpdateId();
      return true;
    }

    /** `removeItems(rows:section:)`, with a row listed twice removed once (see
        `RemoveItemsAsWritten` for the code as written): removes exactly the listed rows
        that exist, records them in descending order, and bumps the id even when none of
        them exists. A negative section or row traps once the guard has passed. */
    method RemoveItems(rows: seq<int>, section: int)
      requires section < |sections| && |rows| > 0 ==>
        0 <= section && forall k :: 0 <= k < |rows| ==> rows[k] >= 0
      modifies this
      ensures !(section < |old(sections)| && |rows| > 0) ==>
        sections == old(sections) && operate == old(operate) && id == old(id)
      ensures section < |old(sections)| && |rows| > 0 ==>
        var before := old(sections)[section].items;
        && sections == old(sections)[section := old(sections)[section].(items := Keep(before, RowSet(rows, |before|)))]
        && operate.DeleteRows? && operate.section == section
        && StrictlyDescending(operate.rows)
        && (forall x :: x in operate.rows <==> x in RowSet(rows, |before|))
        && id == NextId(old(id))
    {
      if !(section < |sections| && |rows| > 0) {
        return;
      }
      var sec := sections[section];
      var kept := RowsToRemove(rows, |sec.items|);
      var left := RemoveRowsInTurn(sec.items, kept);
      sections := sections[section := sec.(items := left)];
      operate := DeleteRows(section, kept);
      UpdateId();
    }

    /** `items(section:)`. */
    function Items(section: nat): (r: Option<seq<Item>>)
      reads this
      ensures r.Some? <==> section < |sections|
      ensures r.Some? ==> r.value == sections[section].items
    {
      if section < |sections| then Some(sections[section].items) else None
    }

    /** `itemCount(section:)`: 0 for a section that does not exist. */
    function ItemCount(section: nat): (r: nat)
      reads this
      ensures r == |Items(section).GetOr([])|
    {
      if section < |sections| then |sections[section].items| else 0
    }

    /** `item(row:section:)`. */
    function Item(row: nat, section: nat): (r: Option<Item>)
      reads this
      ensures r.Some? <==> row < ItemCount(section)
      ensures r.Some? ==> Items(section).Some? && r.value == Items(section).value[row]
    {
      if section < |sections| && row < |sections[section].items| then Some(sections[section].items[row])
      else None
    }

    /** `performBatchUpdates`: the edits are made on the source before the call (each
        bumping the id); `op` is the operator the closure returns. */
    method PerformBatchUpdates(op: Operate)
      modifies this
      ensures sections == old(sections) && operate == op && id == NextId(old(id))
    {
      operate := op;
      UpdateId();
    }
  }

  /** `==` on sources: the ids alone decide. */
  predicate SameVersion<Item>(a: DrSource<Item>, b: DrSource<Item>)
    reads a, b
  {
    a.id == b.id
  }

  /** `hash(into:)` combines the id alone. */
  function HashValue<Item>(a: DrSource<Item>): (r: u64)
    reads a
  {
    a.id
  }

  /** Sources that compare equal hash alike, whatever their sections. */
  lemma SameVersionSameHash<Item>(a: DrSource<Item>, b: DrSource<Item>)
    requires SameVersion(a, b)
    ensures HashValue(a) == HashValue(b)
  {
  }
}
