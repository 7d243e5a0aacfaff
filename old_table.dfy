// The earlier generation of the table view (UI/DrFlexTableView.swift): the
// built cells of each section in an array, and the headers and footers in two
// arrays indexed by section, each written by "replace the entry if the index
// is inside, append otherwise".
module LegacyFlexTable {
  import opened Wrappers
  import opened UIKitModel

  /** An entry of a section's cell array: a view, or the `NSNull` stored for a missing one. */
  datatype Slot = Placeholder | Stored(view: View)

  /** The append-or-replace store of all three caches: the entry at `index` is replaced when
      it exists, otherwise `x` goes at the end, whatever `index` was. A negative index
      inside the guard traps. */
  function StoreOrAppend<T>(list: seq<T>, index: int, x: T): (r: seq<T>)
    requires index < |list| ==> 0 <= index
    ensures index < |list| ==>
      |r| == |list| && r[index] == x && forall i :: 0 <= i < |list| && i != index ==> r[i] == list[i]
    ensures index >= |list| ==> |r| == |list| + 1 && r[|list|] == x && r[..|list|] == list
  {
    if index < |list| then list[index := x] else list + [x]
  }

  /** The store the lookups evidently expect: `x` lands at `index` itself, the array padded
      with `fill` when it is too short. */
  function StoreAt<T>(list: seq<T>, index: nat, x: T, fill: T): (r: seq<T>)
    ensures |r| == if index < |list| then |list| else index + 1
    ensures r[index] == x
    ensures forall i :: 0 <= i < |list| && i != index ==> r[i] == list[i]
    ensures forall i :: |list| <= i < index ==> r[i] == fill
    decreases index - |list|
  {
    if index < |list| then list[index := x]
    else if index == |list| then list + [x]
    else StoreAt(list + [fill], index, x, fill)
  }

  /** `headerView(atSection:)` and `footerView(atSection:)` on one array: nil outside
      `0 ..< count` or for a missing entry. */
  function EntryAt(list: seq<Option<View>>, section: int): (r: Option<View>)
    ensures r.Some? <==> 0 <= section < |list| && list[section].Some?
    ensures r.Some? ==> r == list[section]
  {
    if 0 <= section < |list| then list[section] else None
  }

  /** Storing by index is what the lookup reads back. */
  lemma StoreAtIsReadBack(list: seq<Option<View>>, section: nat, v: View, other: int)
    requires other != section
    ensures EntryAt(StoreAt(list, section, Some(v), None), section) == Some(v)
    ensures EntryAt(StoreAt(list, section, Some(v), None), other) == EntryAt(list, other)
  {
  }

  /** The shift the append-or-replace store causes: when the header of section 0 is not
      built, the header built for section 1 is appended at index 0, so the lookup answers it
      for section 0 and answers nothing for section 1. */
  lemma MissingHeaderShiftsTheNext(h: View)
    ensures EntryAt(StoreOrAppend([], 1, Some(h)), 0) == Some(h)
    ensures EntryAt(StoreOrAppend([], 1, Some(h)), 1) == None
    ensures EntryAt(StoreAt([], 1, Some(h), None), 0) == None
    ensures EntryAt(StoreAt([], 1, Some(h), None), 1) == Some(h)
  {
    assert StoreAt([], 1, Some(h), None) == [None, Some(h)];
  }

  /** `cell(atRow:atSection:)`: nil when the section has no array, the row is past its end,
      or the entry is the placeholder. `NSMutableArray` traps on a negative row. */
  function CellAt(cells: map<int, seq<Slot>>, row: int, section: int): (r: Option<View>)
    requires section in cells && row < |cells[section]| ==> 0 <= row
    ensures r.Some? <==> section in cells && row < |cells[section]| && cells[section][row].Stored?
    ensures r.Some? ==> r.value == cells[section][row].view
  {
    if section !in cells || row >= |cells[section]| then None
    else match cells[section][row]
      case Placeholder => None
      case Stored(v) => Some(v)
  }

  class DrFlexTableView {
    var cellViewMap: map<int, seq<Slot>>
    var headerViewList: seq<Option<View>>
    var footerViewList: seq<Option<View>>
    const style: TableStyle

    constructor (style: TableStyle)
      ensures cellViewMap == map[] && headerViewList == [] && footerViewList == []
      ensures this.style == style
    {
      cellViewMap := map[];
      headerViewList := [];
      footerViewList := [];
      this.style := style;
    }

    /** `reload()`: the three caches are emptied. */
    method Reload()
      modifies this
      ensures cellViewMap == map[] && headerViewList == [] && footerViewList == []
    {
      cellViewMap := map[];
      headerViewList := [];
      footerViewList := [];
    }

    /** `refresh()`: only the inner table redraws; no cache changes. */
    method Refresh()
      modifies this
      ensures cellViewMap == old(cellViewMap) && headerViewList == old(headerViewList)
      ensures footerViewList == old(footerViewList)
    {
    }

    /** `cell(at:)`. */
    function Cell(path: IndexPath): (r: Option<View>)
      requires path.section in cellViewMap && path.row < |cellViewMap[path.section]| ==> 0 <= path.row
      reads this
      ensures r == CellAt(cellViewMap, path.row, path.section)
      ensures r.Some? ==> path.section in cellViewMap && 0 <= path.row < |cellViewMap[path.section]|
    {
      CellAt(cellViewMap, path.row, path.section)
    }

    /** `headerView(atSection:)`. */
    function HeaderView(section: int): (r: Option<View>)
      reads this
      ensures r.Some? ==> 0 <= section < |headerViewList|
      ensures r == EntryAt(headerViewList, section)
    {
      EntryAt(headerViewList, section)
    }

    /** `footerView(atSection:)`. */
    function FooterView(section: int): (r: Option<View>)
      reads this
      ensures r.Some? ==> 0 <= section < |footerViewList|
      ensures r == EntryAt(footerViewList, section)
    {
      EntryAt(footerViewList, section)
    }

    /** `appendCell(cell:atIndexPath:)`: a missing cell is stored as the placeholder; a new
        section gets an array holding just this entry, whatever its row. */
    method AppendCell(cell: Option<View>, path: IndexPath)
      requires path.section in cellViewMap && path.row < |cellViewMap[path.section]| ==> 0 <= path.row
      modifies this
      ensures var slot := if cell.Some? then Stored(cell.value) else Placeholder;
        cellViewMap == old(cellViewMap)[path.section :=
          if path.section in old(cellViewMap) then StoreOrAppend(old(cellViewMap)[path.section], path.row, slot)
          else [slot]]
      ensures headerViewList == old(headerViewList) && footerViewList == old(footerViewList)
    {
      var slot := if cell.Some? then Stored(cell.value) else Placeholder;
      if path.section in cellViewMap {
        cellViewMap := cellViewMap[path.section := StoreOrAppend(cellViewMap[path.section], path.row, slot)];
      } else {
        cellViewMap := cellViewMap[path.section := [slot]];
      }
    }

    /** `appendHeaderView(header:section:)`. */
    method AppendHeaderView(header: Option<View>, section: int)
      requires section < |headerViewList| ==> 0 <= section
      modifies this
      ensures headerViewList == StoreOrAppend(old(headerViewList), section, header)
      ensures cellViewMap == old(cellViewMap) && footerViewList == old(footerViewList)
    {
      headerViewList := StoreOrAppend(headerViewList, section, header);
    }

    /** `appendFooterView(footer:section:)`. */
    method AppendFooterView(footer: Option<View>, section: int)
      requires section < |footerViewList| ==> 0 <= section
      modifies this
      ensures footerViewList == StoreOrAppend(old(footerViewList), section, footer)
      ensures cellViewMap == old(cellViewMap) && headerViewList == old(headerViewList)
    {
      footerViewList := StoreOrAppend(footerViewList, section, footer);
    }

    /** `numberOfSections(in:)`: the bound closure's answer, 1 without one. */
    static function NumberOfSections(bound: Option<int>): (r: int)
      ensures bound.None? ==> r == 1
      ensures bound.Some? ==> r == bound.value
    {
      bound.GetOr(1)
    }

    /** `numberOfRowsInSection`: the bound closure's answer, 0 without one. */
    static function NumberOfRows(bound: Option<int>): (r: int)
      ensures bound.None? ==> r == 0
      ensures bound.Some? ==> r == bound.value
    {
      bound.GetOr(0)
    }

    /** `heightForRowAt`: a cached cell answers its frame height; otherwise the cell `cellInit`
        builds (`built`) is stored and answers its height, and without one the height is 0 and
        nothing is stored. `frameHeight` gives the heights after any layout pass. */
    method HeightForRow(path: IndexPath, built: Option<View>, frameHeight: View -> real) returns (h: real)
      requires path.section in cellViewMap && path.row < |cellViewMap[path.section]| ==> 0 <= path.row
      modifies this
      ensures old(Cell(path)).Some? ==> h == frameHeight(old(Cell(path)).value) && cellViewMap == old(cellViewMap)
      ensures old(Cell(path)).None? && built.None? ==> h == 0.0 && cellViewMap == old(cellViewMap)
      ensures old(Cell(path)).None? && built.Some? ==>
        h == frameHeight(built.value) &&
        cellViewMap == old(cellViewMap)[path.section :=
          if path.section in old(cellViewMap) then StoreOrAppend(old(cellViewMap)[path.section], path.row, Stored(built.value))
          else [Stored(built.value)]]
      ensures headerViewList == old(headerViewList) && footerViewList == old(footerViewList)
    {
      var cached := Cell(path);
      if cached.Some? {
        return frameHeight(cached.value);
      }
      if built.None? {
        return 0.0;
      }
      AppendCell(built, path);
      return frameHeight(built.value);
    }

    /** `heightForHeaderInSection`: as `heightForRowAt`, the height of a header that is not
        built depending on the table style. */
    method HeightForHeader(section: int, built: Option<View>, frameHeight: View -> real) returns (h: real)
      requires section < |headerViewList| ==> 0 <= section
      modifies this
      ensures old(HeaderView(section)).Some? ==>
        h == frameHeight(old(HeaderView(section)).value) && headerViewList == old(headerViewList)
      ensures old(HeaderView(section)).None? && built.None? ==>
        h == EmptySupplementaryHeight(style) && headerViewList == old(headerViewList)
      ensures old(HeaderView(section)).None? && built.Some? ==>
        h == frameHeight(built.value) && headerViewList == StoreOrAppend(old(headerViewList), section, built)
      ensures cellViewMap == old(cellViewMap) && footerViewList == old(footerViewList)
    {
      var cached := HeaderView(section);
      if cached.Some? {
        return frameHeight(cached.value);
      }
      if built.None? {
        return EmptySupplementaryHeight(style);
      }
      AppendHeaderView(built, section);
      return frameHeight(built.value);
    }

    /** `heightForFooterInSection`. */
    method HeightForFooter(section: int, built: Option<View>, frameHeight: View -> real) returns (h: real)
      requires section < |footerViewList| ==> 0 <= section
      modifies this
      ensures old(FooterView(section)).Some? ==>
        h == frameHeight(old(FooterView(section)).value) && footerViewList == old(footerViewList)
      ensures old(FooterView(section)).None? && built.None? ==>
        h == EmptySupplementaryHeight(style) && footerViewList == old(footerViewList)
      ensures old(FooterView(section)).None? && built.Some? ==>
        h == frameHeight(built.value) && footerViewList == StoreOrAppend(old(footerViewList), section, built)
      ensures cellViewMap == old(cellViewMap) && headerViewList == old(headerViewList)
    {
      var cached := FooterView(section);
      if cached.Some? {
        return frameHeight(cached.value);
      }
      if built.None? {
        return EmptySupplementaryHeight(style);
      }
      AppendFooterView(built, section);
      return frameHeight(built.value);
    }
  }

  /** A cell stored while the table asks rows in order is found again under its own row:
      appending row `|list|` of a section is storing at that row. */
  lemma InOrderAppendIsReadBack(cells: map<int, seq<Slot>>, section: int, v: View)
    requires section in cells
    ensures var list := cells[section];
      CellAt(cells[section := StoreOrAppend(list, |list|, Stored(v))], |list|, section) == Some(v)
  {
  }

  /** ... but a row whose cell is not built leaves no entry, so the next row's cell is
      appended in its place and answered for the row before. */
  lemma MissingCellShiftsTheNext(v: View)
    ensures CellAt(map[0 := []][0 := StoreOrAppend([], 1, Stored(v))], 0, 0) == Some(v)
    ensures CellAt(map[0 := []][0 := StoreOrAppend([], 1, Stored(v))], 1, 0) == None
  {
  }
}
