// The view caches of the table view in core/UI/DrFlexTableView.swift: the
// built cells by section and row, the headers and footers by section, and the
// views marked as needing a new layout pass.
module FlexTable {
  import opened Wrappers
  import opened UIKitModel

  /** The cells of one section by row (an `NSMutableDictionary`). */
  type CellMap = map<int, View>

  /** `DRFlexTableGroup`: a header, a footer and the cells of one section. */
  datatype TableGroup = TableGroup(header: Option<View>, footer: Option<View>, cells: seq<View>)

  /** The views of a group: its cells, and its header and footer when it has them. */
  function GroupViews(group: TableGroup): (r: set<View>)
    ensures forall v :: v in r <==> v in group.cells || group.header == Some(v) || group.footer == Some(v)
  {
    (set v | v in group.cells) + (if group.header.Some? then {group.header.value} else {})
      + (if group.footer.Some? then {group.footer.value} else {})
  }

  /** `cell(atRow:atSection:)` on a cell cache: the guard compares `row` with the number
      of cells cached for the section, not with the rows present. */
  function LookupCell(cells: map<int, CellMap>, row: int, section: int): (r: Option<View>)
    ensures r.Some? <==> section in cells && row < |cells[section]| && row in cells[section]
    ensures r.Some? ==> r.value == cells[section][row]
  {
    if section in cells && |cells[section]| > row && row in cells[section] then Some(cells[section][row])
    else None
  }

  /** `cellCount(group:)`: the number of cells cached for a section, 0 when it has none. */
  function CellCount(cells: map<int, CellMap>, group: int): (r: nat)
    ensures group !in cells ==> r == 0
    ensures group in cells ==> r == |cells[group].Keys|
  {
    if group in cells then |cells[group]| else 0
  }

  /** The indices `0 ..< n`. */
  function Rows(n: int): (r: set<int>)
    ensures forall i :: i in r <==> 0 <= i < n
    decreases n
  {
    if n <= 0 then {} else Rows(n - 1) + {n - 1}
  }

  lemma {:induction false} RowsSize(n: nat)
    ensures |Rows(n)| == n
  {
    if n > 0 {
      RowsSize(n - 1);
      var below := Rows(n - 1);
      assert n - 1 !in below;
      assert |below + {n - 1}| == |below| + 1;
    }
  }

  /** Dropping one more key from a map is dropping the larger set of keys. */
  lemma MinusOneMore<V>(m: map<int, V>, done: set<int>, key: int)
    ensures m - done - {key} == m - (done + {key})
  {
  }

  /** In a section whose rows are exactly `0 ..< n` every row below `n` is found. */
  lemma DenseSectionReachable(cells: map<int, CellMap>, section: int, n: nat, row: int)
    requires section in cells && cells[section].Keys == Rows(n)
    requires 0 <= row < n
    ensures LookupCell(cells, row, section) == Some(cells[section][row])
  {
    RowsSize(n);
    assert |cells[section]| == |cells[section].Keys|;
  }

  /** ... but once a lower row has gone, the highest cached row is no longer found. */
  lemma SparseSectionHidesCell(v: View)
    ensures LookupCell(map[0 := map[1 := v]], 1, 0) == None
  {
    assert |map[1 := v]| == 1;
  }

  /** The rows of `section` that `paths` lists. */
  function RowsIn(paths: seq<IndexPath>, section: int): (r: set<int>)
    ensures forall row :: row in r <==> IndexPath(row, section) in paths
  {
    set k | 0 <= k < |paths| && paths[k].section == section :: paths[k].row
  }

  lemma RowsInStep(paths: seq<IndexPath>, k: int, section: int)
    requires 0 <= k < |paths|
    ensures RowsIn(paths[..k + 1], section)
         == RowsIn(paths[..k], section) + (if paths[k].section == section then {paths[k].row} else {})
  {
    assert paths[..k + 1] == paths[..k] + [paths[k]];
  }

  /** Dropping the cell at path `k` extends the drop to the first `k + 1` paths. */
  lemma DropCellStep(orig: map<int, CellMap>, before: map<int, CellMap>, after: map<int, CellMap>,
                     paths: seq<IndexPath>, k: int)
    requires 0 <= k < |paths|
    requires before.Keys == orig.Keys
    requires forall s :: s in before ==> before[s] == orig[s] - RowsIn(paths[..k], s)
    requires after == if paths[k].section in before
                      then before[paths[k].section := before[paths[k].section] - {paths[k].row}]
                      else before
    ensures after.Keys == orig.Keys
    ensures forall s :: s in after ==> after[s] == orig[s] - RowsIn(paths[..k + 1], s)
  {
    forall s | s in after ensures after[s] == orig[s] - RowsIn(paths[..k + 1], s) {
      RowsInStep(paths, k, s);
    }
  }

  /** The views cached for one section. */
  function CellsOf(cells: map<int, CellMap>, section: int): set<View>
  {
    if section in cells then cells[section].Values else {}
  }

  /** A non-empty set of keys has an element, so that `k :| k in keys` can pick one. */
  lemma HasKey(keys: set<int>)
    requires keys != {}
    ensures exists k: int :: k in keys
  {
    if forall k: int :: k !in keys {
      assert false;
    }
  }

  /** The views cached for a set of sections. */
  function CellsOfSections(cells: map<int, CellMap>, sections: set<int>): set<View>
  {
    set s, v | s in sections && s in cells && v in cells[s].Values :: v
  }

  lemma CellsOfSectionsStep(cells: map<int, CellMap>, sections: set<int>, s: int)
    ensures CellsOfSections(cells, sections + {s}) == CellsOfSections(cells, sections) + CellsOf(cells, s)
  {
  }

  /** The largest key of a non-empty set, as `keys.max()`. */
  method MaxKey(keys: set<int>) returns (m: int)
    requires keys != {}
    ensures m in keys && forall k :: k in keys ==> k <= m
  {
    var rest := keys;
    HasKey(rest);
    m :| m in rest;
    rest := rest - {m};
    while rest != {}
      invariant m in keys && rest <= keys
      invariant forall k :: k in keys && k !in rest ==> k <= m
      decreases |rest|
    {
      HasKey(rest);
      var k :| k in rest;
      if k > m {
        m := k;
      }
      rest := rest - {k};
    }
  }

  /** `insertRows(rowsCount:section:at:)`: the index paths passed to the inner table,
      `None` when nothing is inserted. The caches are not touched. */
  method InsertRows(rowsCount: int, section: int, insertIndex: int) returns (paths: Option<seq<IndexPath>>)
    ensures rowsCount <= 0 ==> paths.None?
    ensures rowsCount > 0 ==> paths.Some? && |paths.value| == rowsCount
    ensures rowsCount > 0 ==> forall i :: 0 <= i < rowsCount ==> paths.value[i] == IndexPath(insertIndex + i, section)
  {
    if !(rowsCount > 0) {
      return None;
    }
    var indxs: seq<IndexPath> := [];
    var i := 0;
    while i < rowsCount
      invariant 0 <= i <= rowsCount
      invariant |indxs| == i
      invariant forall j :: 0 <= j < i ==> indxs[j] == IndexPath(insertIndex + j, section)
    {
      indxs := indxs + [IndexPath(insertIndex + i, section)];
      i := i + 1;
    }
    return Some(indxs);
  }

  /** The index `appendGroup` gives a new section: one past the highest cached, else 0. */
  method NextSectionIndex(keys: set<int>) returns (sectionIndex: int)
    ensures keys == {} ==> sectionIndex == 0
    ensures keys != {} ==> sectionIndex - 1 in keys && forall s :: s in keys ==> s < sectionIndex
  {
    if keys != {} {
      var maxKey := MaxKey(keys);
      sectionIndex := maxKey + 1;
    } else {
      sectionIndex := 0;
    }
  }

  /** The cell map of a new section: cell `i` under row `i`. */
  method IndexCells(cells: seq<View>) returns (m: CellMap)
    ensures m.Keys == Rows(|cells|)
    ensures forall i :: 0 <= i < |cells| ==> m[i] == cells[i]
  {
    m := map[];
    var i := 0;
    while i < |cells|
      invariant 0 <= i <= |cells|
      invariant m.Keys == Rows(i)
      invariant forall j :: 0 <= j < i ==> m[j] == cells[j]
    {
      m := m[i := cells[i]];
      i := i + 1;
    }
  }

  /** The row and section heights a table may fix, and whether the first one built fixes
      them for all. */
  datatype HeightSettings = HeightSettings(
    rowHeight: real, isSameHeight: bool,
    sectionHeaderHeight: real, isSameSectionHeaderHeight: bool,
    sectionFooterHeight: real, isSameSectionFooterHeight: bool)

  class DrFlexTableView {
    var cellViewMap: map<int, CellMap>
    var headerViewMap: map<int, View>
    var footerViewMap: map<int, View>
    /** The views whose `dr_needLayout` flag is set. */
    var needLayout: set<View>
    var groupCount: Option<int>
    /** The height settings; `rowHeight` is the inner table's. */
    var heights: HeightSettings
    const style: TableStyle

    /** `init(style:)`; `rowHeight` is the inner table's initial row height. */
    constructor (style: TableStyle, rowHeight: real)
      ensures cellViewMap == map[] && headerViewMap == map[] && footerViewMap == map[]
      ensures needLayout == {} && groupCount.None?
      ensures heights == HeightSettings(rowHeight, false, 0.0, false, 0.0, false) && this.style == style
    {
      cellViewMap := map[];
      headerViewMap := map[];
      footerViewMap := map[];
      needLayout := {};
      groupCount := None;
      heights := HeightSettings(rowHeight, false, 0.0, false, 0.0, false);
      this.style := style;
    }

    /** `reload()`: every cached cell, header and footer is dropped, to be built anew. */
    method Reload()
      modifies this
      ensures cellViewMap == map[] && headerViewMap == map[] && footerViewMap == map[]
      ensures needLayout == old(needLayout) && groupCount == old(groupCount) && heights == old(heights)
    {
      cellViewMap := map[];
      headerViewMap := map[];
      footerViewMap := map[];
    }

    /** `reloadSections`: drops the listed sections from the three caches, nothing else. */
    method ReloadSections(sections: set<int>)
      modifies this
      ensures cellViewMap == old(cellViewMap) - sections
      ensures headerViewMap == old(headerViewMap) - sections
      ensures footerViewMap == old(footerViewMap) - sections
      ensures needLayout == old(needLayout) && groupCount == old(groupCount) && heights == old(heights)
    {
      var rest := sections;
      while rest != {}
        invariant rest <= sections
        invariant cellViewMap == old(cellViewMap) - (sections - rest)
        invariant headerViewMap == old(headerViewMap) - (sections - rest)
        invariant footerViewMap == old(footerViewMap) - (sections - rest)
        invariant needLayout == old(needLayout) && groupCount == old(groupCount) && heights == old(heights)
        decreases |rest|
      {
        HasKey(rest);
        var section :| section in rest;
        MinusOneMore(old(cellViewMap), sections - rest, section);
        MinusOneMore(old(headerViewMap), sections - rest, section);
        MinusOneMore(old(footerViewMap), sections - rest, section);
        assert sections - (rest - {section}) == (sections - rest) + {section};
        cellViewMap := cellViewMap - {section};
        headerViewMap := headerViewMap - {section};
        footerViewMap := footerViewMap - {section};
        rest := rest - {section};
      }
    }

    /** The loop shared by `reloadRows` and `deleteRows`: drops the listed cells of
        cached sections; a section stays cached when its last cell goes. */
    method DropCells(paths: seq<IndexPath>)
      modifies this
      ensures cellViewMap.Keys == old(cellViewMap).Keys
      ensures forall s :: s in cellViewMap ==> cellViewMap[s] == old(cellViewMap)[s] - RowsIn(paths, s)
      ensures headerViewMap == old(headerViewMap) && footerViewMap == old(footerViewMap)
      ensures needLayout == old(needLayout) && groupCount == old(groupCount) && heights == old(heights)
    {
      var k := 0;
      while k < |paths|
        invariant 0 <= k <= |paths|
        invariant cellViewMap.Keys == old(cellViewMap).Keys
        invariant forall s :: s in cellViewMap ==> cellViewMap[s] == old(cellViewMap)[s] - RowsIn(paths[..k], s)
        invariant headerViewMap == old(headerViewMap) && footerViewMap == old(footerViewMap)
        invariant needLayout == old(needLayout) && groupCount == old(groupCount) && heights == old(heights)
      {
        var p := paths[k];
        ghost var before := cellViewMap;
        if p.section in cellViewMap {
          cellViewMap := cellViewMap[p.section := cellViewMap[p.section] - {p.row}];
        }
        DropCellStep(old(cellViewMap), before, cellViewMap, paths, k);
        k := k + 1;
      }
      assert paths[..k] == paths;
    }

    /** `reloadRows(at:)`. */
    method ReloadRows(paths: seq<IndexPath>)
      modifies this
      ensures cellViewMap.Keys == old(cellViewMap).Keys
      ensures forall s :: s in cellViewMap ==> cellViewMap[s] == old(cellViewMap)[s] - RowsIn(paths, s)
      ensures headerViewMap == old(headerViewMap) && footerViewMap == old(footerViewMap)
      ensures needLayout == old(needLayout) && groupCount == old(groupCount) && heights == old(heights)
    {
      DropCells(paths);
    }

    /** `deleteRows(at:)`: the cells of later rows keep their old row keys. */
    method DeleteRows(paths: seq<IndexPath>)
      modifies this
      ensures cellViewMap.Keys == old(cellViewMap).Keys
      ensures forall s :: s in cellViewMap ==> cellViewMap[s] == old(cellViewMap)[s] - RowsIn(paths, s)
      ensures headerViewMap == old(headerViewMap) && footerViewMap == old(footerViewMap)
      ensures needLayout == old(needLayout) && groupCount == old(groupCount) && heights == old(heights)
    {
      DropCells(paths);
    }

    /** Every cached cell, header and footer. */
    function CachedViews(): set<View>
      reads this
    {
      (set s, v | s in cellViewMap && v in cellViewMap[s].Values :: v) + headerViewMap.Values + footerViewMap.Values
    }

    /** `refresh(needLayout:)`: with `needLayout` every cached view is marked; the caches
        stay as they are. */
    method Refresh(layout: bool)
      modifies this
      ensures needLayout == if layout then old(needLayout) + old(CachedViews()) else old(needLayout)
      ensures cellViewMap == old(cellViewMap) && headerViewMap == old(headerViewMap) && footerViewMap == old(footerViewMap)
      ensures groupCount == old(groupCount) && heights == old(heights)
    {
      if layout {
        needLayout := needLayout + CachedViews();
      }
    }

    /** `refreshSections(_:needLayout:)`: with `needLayout` the cells of the listed sections
        are marked, but not their headers or footers. */
    method RefreshSections(sections: set<int>, layout: bool)
      modifies this
      ensures needLayout == if layout then old(needLayout) + CellsOfSections(cellViewMap, sections) else old(needLayout)
      ensures !layout ==> needLayout == old(needLayout)
      ensures cellViewMap == old(cellViewMap) && headerViewMap == old(headerViewMap) && footerViewMap == old(footerViewMap)
      ensures groupCount == old(groupCount) && heights == old(heights)
    {
      if layout {
        var rest := sections;
        while rest != {}
          invariant rest <= sections
          invariant needLayout == old(needLayout) + CellsOfSections(cellViewMap, sections - rest)
          invariant cellViewMap == old(cellViewMap) && headerViewMap == old(headerViewMap) && footerViewMap == old(footerViewMap)
          invariant groupCount == old(groupCount) && heights == old(heights)
          decreases |rest|
        {
          HasKey(rest);
          var section :| section in rest;
          CellsOfSectionsStep(cellViewMap, sections - rest, section);
          assert sections - (rest - {section}) == (sections - rest) + {section};
          needLayout := needLayout + CellsOf(cellViewMap, section);
          rest := rest - {section};
        }
      }
    }

    /** `refreshRows(at:needLayout:)`: with `needLayout` the listed cells that are cached
        are marked. */
    method RefreshRows(paths: seq<IndexPath>, layout: bool)
      modifies this
      ensures layout ==> forall v :: v in needLayout <==>
        v in old(needLayout) || exists k :: 0 <= k < |paths| && Stored(paths[k]) == Some(v)
      ensures !layout ==> needLayout == old(needLayout)
      ensures cellViewMap == old(cellViewMap) && headerViewMap == old(headerViewMap) && footerViewMap == old(footerViewMap)
      ensures groupCount == old(groupCount) && heights == old(heights)
    {
      if layout {
        var k := 0;
        while k < |paths|
          invariant 0 <= k <= |paths|
          invariant forall v :: v in needLayout <==>
            v in old(needLayout) || exists j :: 0 <= j < k && Stored(paths[j]) == Some(v)
          invariant cellViewMap == old(cellViewMap) && headerViewMap == old(headerViewMap) && footerViewMap == old(footerViewMap)
          invariant groupCount == old(groupCount) && heights == old(heights)
        {
          var stored := Stored(paths[k]);
          if stored.Some? {
            needLayout := needLayout + {stored.value};
          }
          k := k + 1;
        }
      }
    }

    /** The cell stored under a path, unguarded (`cellViewMap[section]?[row]`). */
    function Stored(p: IndexPath): (r: Option<View>)
      reads this
      ensures r.Some? <==> p.section in cellViewMap && p.row in cellViewMap[p.section]
      ensures r.Some? ==> r.value == cellViewMap[p.section][p.row]
    {
      if p.section in cellViewMap && p.row in cellViewMap[p.section] then Some(cellViewMap[p.section][p.row])
      else None
    }

    /** `appendCell(cell:atIndexPath:)`: stores the cell under its row, or removes the row
        when there is no cell; a section not yet cached is created even then. */
    method AppendCell(cell: Option<View>, path: IndexPath)
      modifies this
      ensures var before := if path.section in old(cellViewMap) then old(cellViewMap)[path.section] else map[];
        cellViewMap == old(cellViewMap)[path.section := if cell.Some? then before[path.row := cell.value] else before - {path.row}]
      ensures headerViewMap == old(headerViewMap) && footerViewMap == old(footerViewMap)
      ensures needLayout == old(needLayout) && groupCount == old(groupCount) && heights == old(heights)
    {
      var section := if path.section in cellViewMap then cellViewMap[path.section] else map[];
      section := if cell.Some? then section[path.row := cell.value] else section - {path.row};
      cellViewMap := cellViewMap[path.section := section];
    }

    /** `appendHeaderView(header:section:)`. */
    method AppendHeaderView(header: View, section: int)
      modifies this
      ensures headerViewMap == old(headerViewMap)[section := header]
      ensures cellViewMap == old(cellViewMap) && footerViewMap == old(footerViewMap)
      ensures needLayout == old(needLayout) && groupCount == old(groupCount) && heights == old(heights)
    {
      headerViewMap := headerViewMap[section := header];
    }

    /** `appendFooterView(footer:section:)`. */
    method AppendFooterView(footer: View, section: int)
      modifies this
      ensures footerViewMap == old(footerViewMap)[section := footer]
      ensures cellViewMap == old(cellViewMap) && headerViewMap == old(headerViewMap)
      ensures needLayout == old(needLayout) && groupCount == old(groupCount) && heights == old(heights)
    {
      footerViewMap := footerViewMap[section := footer];
    }

    /** `appendGroup(_:immediateRefresh:)`: the group becomes the section after the
        highest one cached, its cells rows `0 ..< n`, every view of it marked, and the
        section count one more than its index. */
    method AppendGroup(group: TableGroup) returns (sectionIndex: int)
      modifies this
      ensures old(cellViewMap) == map[] ==> sectionIndex == 0
      ensures old(cellViewMap) != map[] ==>
        sectionIndex - 1 in old(cellViewMap) && forall s :: s in old(cellViewMap) ==> s < sectionIndex
      ensures sectionIndex in cellViewMap && cellViewMap == old(cellViewMap)[sectionIndex := cellViewMap[sectionIndex]]
      ensures cellViewMap[sectionIndex].Keys == Rows(|group.cells|)
      ensures forall i :: 0 <= i < |group.cells| ==> cellViewMap[sectionIndex][i] == group.cells[i]
      ensures headerViewMap == if group.header.Some? then old(headerViewMap)[sectionIndex := group.header.value] else old(headerViewMap)
      ensures footerViewMap == if group.footer.Some? then old(footerViewMap)[sectionIndex := group.footer.value] else old(footerViewMap)
      ensures needLayout == old(needLayout) + GroupViews(group)
      ensures groupCount == Some(sectionIndex + 1) && heights == old(heights)
    {
      sectionIndex := NextSectionIndex(cellViewMap.Keys);
      StoreGroup(group, sectionIndex);
    }

    /** The stores of `appendGroup` once the section index is chosen. */
    method StoreGroup(group: TableGroup, sectionIndex: int)
      modifies this
      ensures sectionIndex in cellViewMap && cellViewMap == old(cellViewMap)[sectionIndex := cellViewMap[sectionIndex]]
      ensures cellViewMap[sectionIndex].Keys == Rows(|group.cells|)
      ensures forall i :: 0 <= i < |group.cells| ==> cellViewMap[sectionIndex][i] == group.cells[i]
      ensures headerViewMap == if group.header.Some? then old(headerViewMap)[sectionIndex := group.header.value] else old(headerViewMap)
      ensures footerViewMap == if group.footer.Some? then old(footerViewMap)[sectionIndex := group.footer.value] else old(footerViewMap)
      ensures needLayout == old(needLayout) + GroupViews(group)
      ensures groupCount == Some(sectionIndex + 1) && heights == old(heights)
    {
      var cellMap := IndexCells(group.cells);
      cellViewMap := cellViewMap[sectionIndex := cellMap];
      needLayout := needLayout + GroupViews(group);
      if group.header.Some? {
        headerViewMap := headerViewMap[sectionIndex := group.header.value];
      }
      if group.footer.Some? {
        footerViewMap := footerViewMap[sectionIndex := group.footer.value];
      }
      groupCount := Some(sectionIndex + 1);
    }

    /** `headerView(atSection:)`. */
    function HeaderView(section: int): (r: Option<View>)
      reads this
      ensures r.Some? <==> section in headerViewMap
      ensures r.Some? ==> r.value == headerViewMap[section]
    {
      if section in headerViewMap then Some(headerViewMap[section]) else None
    }

    /** `footerView(atSection:)`. */
    function FooterView(section: int): (r: Option<View>)
      reads this
      ensures r.Some? <==> section in footerViewMap
      ensures r.Some? ==> r.value == footerViewMap[section]
    {
      if section in footerViewMap then Some(footerViewMap[section]) else None
    }

    /** `numberOfSections(in:)`: the bound closure's answer (`bound`), else the count
        `appendGroup` left, else 1. */
    function NumberOfSections(bound: Option<int>): (r: int)
      reads this
      ensures bound.Some? ==> r == bound.value
      ensures bound.None? && groupCount.Some? ==> r == groupCount.value
      ensures bound.None? && groupCount.None? ==> r == 1
    {
      if bound.Some? then bound.value else if groupCount.Some? then groupCount.value else 1
    }

    /** `numberOfRowsInSection`: the bound closure's answer, else the cells cached. */
    function NumberOfRowsInSection(section: int, bound: Option<int>): (r: int)
      reads this
      ensures bound.Some? ==> r == bound.value
      ensures bound.None? ==> r == CellCount(cellViewMap, section)
    {
      if bound.Some? then bound.value else CellCount(cellViewMap, section)
    }

    /** `heightForRowAt`. `isYogaEnabled` and `frameHeight` describe the views (heights
        after any layout pass), `update` is what `updateCellData` answers (`None` when it
        is not bound), and `built` is what `cellInit` returns. A positive `rowHeight` wins.
        A cached cell keeps its mark unless it is laid out anew, which needs a marked,
        Yoga-enabled cell and an update that succeeds. Otherwise a new cell is built and
        cached, or the height is 0. */
    method HeightForRow(path: IndexPath, isYogaEnabled: View -> bool, update: Option<bool>,
                        built: Option<View>, frameHeight: View -> real) returns (h: real)
      modifies this
      ensures old(heights.rowHeight) > 0.0 ==> h == old(heights.rowHeight) && cellViewMap == old(cellViewMap) && needLayout == old(needLayout) && heights == old(heights)
      ensures old(heights.rowHeight) <= 0.0 && old(LookupCell(cellViewMap, path.row, path.section)).Some? ==>
        var c := old(LookupCell(cellViewMap, path.row, path.section)).value;
        && h == frameHeight(c)
        && cellViewMap == old(cellViewMap)
        && needLayout == (if c in old(needLayout) && isYogaEnabled(c) && update == Some(true) then old(needLayout) - {c} else old(needLayout))
        && heights == old(heights)
      ensures old(heights.rowHeight) <= 0.0 && old(LookupCell(cellViewMap, path.row, path.section)).None? && built.None? ==>
        h == 0.0 && cellViewMap == old(cellViewMap) && needLayout == old(needLayout) && heights == old(heights)
      ensures old(heights.rowHeight) <= 0.0 && old(LookupCell(cellViewMap, path.row, path.section)).None? && built.Some? ==>
        var before := if path.section in old(cellViewMap) then old(cellViewMap)[path.section] else map[];
        && h == frameHeight(built.value)
        && cellViewMap == old(cellViewMap)[path.section := before[path.row := built.value]]
        && needLayout == old(needLayout)
        && heights == (if old(heights.isSameHeight) then old(heights).(rowHeight := frameHeight(built.value)) else old(heights))
      ensures headerViewMap == old(headerViewMap) && footerViewMap == old(footerViewMap) && groupCount == old(groupCount)
    {
      if !(heights.rowHeight <= 0.0) {
        return heights.rowHeight;
      }
      var cached := LookupCell(cellViewMap, path.row, path.section);
      if cached.Some? {
        var cell := cached.value;
        if cell in needLayout && isYogaEnabled(cell) {
          if update.GetOr(false) {
            needLayout := needLayout - {cell};
          }
        }
        return frameHeight(cell);
      }
      if built.None? {
        return 0.0;
      }
      var cell := built.value;
      AppendCell(Some(cell), path);
      if heights.isSameHeight {
        heights := heights.(rowHeight := frameHeight(cell));
      }
      return frameHeight(cell);
    }

    /** `heightForHeaderInSection`: a positive `sectionHeaderHeight` wins; a cached header
        answers its height, losing its mark when it is marked and Yoga-enabled (it is laid out
        anew, with no update step); otherwise the header `headerInit` builds is stored and
        may fix the height for every section; without one the height depends on the style. */
    method HeightForHeader(section: int, isYogaEnabled: View -> bool, built: Option<View>,
                           frameHeight: View -> real) returns (h: real)
      modifies this
      ensures old(heights.sectionHeaderHeight) > 0.0 ==>
        h == old(heights.sectionHeaderHeight) && headerViewMap == old(headerViewMap)
        && needLayout == old(needLayout) && heights == old(heights)
      ensures old(heights.sectionHeaderHeight) <= 0.0 && section in old(headerViewMap) ==>
        var v := old(headerViewMap)[section];
        && h == frameHeight(v)
        && headerViewMap == old(headerViewMap)
        && needLayout == (if isYogaEnabled(v) then old(needLayout) - {v} else old(needLayout))
        && heights == old(heights)
      ensures old(heights.sectionHeaderHeight) <= 0.0 && section !in old(headerViewMap) && built.None? ==>
        h == EmptySupplementaryHeight(style) && headerViewMap == old(headerViewMap)
        && needLayout == old(needLayout) && heights == old(heights)
      ensures old(heights.sectionHeaderHeight) <= 0.0 && section !in old(headerViewMap) && built.Some? ==>
        && h == frameHeight(built.value)
        && headerViewMap == old(headerViewMap)[section := built.value]
        && needLayout == old(needLayout)
        && heights == (if old(heights.isSameSectionHeaderHeight)
                       then old(heights).(sectionHeaderHeight := frameHeight(built.value)) else old(heights))
      ensures cellViewMap == old(cellViewMap) && footerViewMap == old(footerViewMap) && groupCount == old(groupCount)
    {
      if heights.sectionHeaderHeight > 0.0 {
        return heights.sectionHeaderHeight;
      }
      var cached := HeaderView(section);
      if cached.Some? {
        var header := cached.value;
        if header in needLayout && isYogaEnabled(header) {
          needLayout := needLayout - {header};
        }
        return frameHeight(header);
      }
      if built.None? {
        return EmptySupplementaryHeight(style);
      }
      var header := built.value;
      AppendHeaderView(header, section);
      if heights.isSameSectionHeaderHeight {
        heights := heights.(sectionHeaderHeight := frameHeight(header));
      }
      return frameHeight(header);
    }

    /** `heightForFooterInSection`, as `heightForHeaderInSection` on the footers. */
    method HeightForFooter(section: int, isYogaEnabled: View -> bool, built: Option<View>,
                           frameHeight: View -> real) returns (h: real)
      modifies this
      ensures old(heights.sectionFooterHeight) > 0.0 ==>
        h == old(heights.sectionFooterHeight) && footerViewMap == old(footerViewMap)
        && needLayout == old(needLayout) && heights == old(heights)
      ensures old(heights.sectionFooterHeight) <= 0.0 && section in old(footerViewMap) ==>
        var v := old(footerViewMap)[section];
        && h == frameHeight(v)
        && footerViewMap == old(footerViewMap)
        && needLayout == (if isYogaEnabled(v) then old(needLayout) - {v} else old(needLayout))
        && heights == old(heights)
      ensures old(heights.sectionFooterHeight) <= 0.0 && section !in old(footerViewMap) && built.None? ==>
        h == EmptySupplementaryHeight(style) && footerViewMap == old(footerViewMap)
        && needLayout == old(needLayout) && heights == old(heights)
      ensures old(heights.sectionFooterHeight) <= 0.0 && section !in old(footerViewMap) && built.Some? ==>
        && h == frameHeight(built.value)
        && footerViewMap == old(footerViewMap)[section := built.value]
        && needLayout == old(needLayout)
        && heights == (if old(heights.isSameSectionFooterHeight)
                       then old(heights).(sectionFooterHeight := frameHeight(built.value)) else old(heights))
      ensures cellViewMap == old(cellViewMap) && headerViewMap == old(headerViewMap) && groupCount == old(groupCount)
    {
      if heights.sectionFooterHeight > 0.0 {
        return heights.sectionFooterHeight;
      }
      var cached := FooterView(section);
      if cached.Some? {
        var footer := cached.value;
        if footer in needLayout && isYogaEnabled(footer) {
          needLayout := needLayout - {footer};
        }
        return frameHeight(footer);
      }
      if built.None? {
        return EmptySupplementaryHeight(style);
      }
      var footer := built.value;
      AppendFooterView(footer, section);
      if heights.isSameSectionFooterHeight {
        heights := heights.(sectionFooterHeight := frameHeight(footer));
      }
      return frameHeight(footer);
    }

    /** `willDisplay`: with a positive `rowHeight`, a marked, Yoga-enabled cached cell loses
        its mark before `updateCellData` is asked; `relayout` tells whether it is then laid
        out. */
    method WillDisplay(path: IndexPath, isYogaEnabled: View -> bool, update: Option<bool>) returns (relayout: bool)
      modifies this
      ensures var c := old(LookupCell(cellViewMap, path.row, path.section));
        if old(heights.rowHeight) > 0.0 && c.Some? && isYogaEnabled(c.value) && c.value in old(needLayout) then
          needLayout == old(needLayout) - {c.value} && relayout == (update == Some(true))
        else
          needLayout == old(needLayout) && !relayout
      ensures cellViewMap == old(cellViewMap) && headerViewMap == old(headerViewMap) && footerViewMap == old(footerViewMap)
      ensures groupCount == old(groupCount) && heights == old(heights)
    {
      relayout := false;
      var cached := LookupCell(cellViewMap, path.row, path.section);
      if heights.rowHeight > 0.0 && cached.Some? && isYogaEnabled(cached.value) && cached.value in needLayout {
        needLayout := needLayout - {cached.value};
        relayout := update.GetOr(false);
      }
    }
  }
}
