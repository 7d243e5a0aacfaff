// The reactive table binding (rx/DrTableDataSource.swift): it remembers the
// last source snapshot it rendered, turns the operator of each new snapshot
// into one call on the table, and answers the table's count and lookup
// questions from the stored snapshot.
module TableDataSource {
  import opened Wrappers
  import opened UIKitModel
  import Source
  import FlexTable

  /** The call `handlerTable` makes on the table view. */
  datatype TableCommand =
    | Reload
    | RefreshSections(sections: set<int>, needLayout: bool)
    | RefreshRows(paths: seq<IndexPath>, needLayout: bool)
    | ReloadSections(sections: set<int>)
    | ReloadRows(paths: seq<IndexPath>)
    | DeleteRows(paths: seq<IndexPath>)
    | Refresh(needLayout: bool)
    | InsertRows(rowsCount: int, section: int, insertIndex: int)

  /** `rows.map { IndexPath(row: $0, section: section) }`. */
  function RowPaths(section: int, rows: seq<int>): (r: seq<IndexPath>)
    ensures |r| == |rows|
    ensures forall k :: 0 <= k < |rows| ==> r[k].row == rows[k] && r[k].section == section
    decreases |rows|
  {
    if rows == [] then [] else [IndexPath(rows[0], section)] + RowPaths(section, rows[1..])
  }

  /** Mapping rows to paths commutes with joining row lists, so the order of the rows is
      the order of the paths. */
  lemma {:induction false} RowPathsAppend(section: int, a: seq<int>, b: seq<int>)
    ensures RowPaths(section, a + b) == RowPaths(section, a) + RowPaths(section, b)
    decreases |a|
  {
    if a != [] {
      assert (a + b)[1..] == a[1..] + b;
      RowPathsAppend(section, a[1..], b);
    }
  }

  /** `IndexSet(sections)`. */
  function SectionSet(sections: seq<int>): (r: set<int>)
    ensures forall s :: s in r <==> s in sections
  {
    set k | 0 <= k < |sections| :: sections[k]
  }

  /** The `switch` of `handlerTable`. */
  function Dispatch(op: Source.Operate): (r: TableCommand)
    ensures r.Reload? <==> op.Init?
    ensures r.Refresh? <==> op.LoadMore?
    ensures r.Refresh? ==> !r.needLayout
    ensures r.RefreshSections? <==> op.RefreshSection? || op.RefreshSections? || op.LoadMoreInSection?
    ensures r.RefreshSections? ==> (r.needLayout <==> !op.LoadMoreInSection?)
    ensures r.RefreshRows? <==> op.RefreshRow? || op.RefreshRows?
    ensures r.RefreshRows? ==> r.needLayout
    ensures r.ReloadSections? <==> op.ReloadSection? || op.ReloadSections?
    ensures r.ReloadRows? <==> op.ReloadRow? || op.ReloadRows?
    ensures r.DeleteRows? <==> op.DeleteRow? || op.DeleteRows?
    ensures op.RefreshSection? || op.ReloadSection? || op.LoadMoreInSection? ==> SectionsOf(r) == {op.section}
    ensures op.RefreshSections? || op.ReloadSections? ==> SectionsOf(r) == SectionSet(op.sections)
    ensures op.RefreshRow? || op.ReloadRow? || op.DeleteRow? ==> PathsOf(r) == [IndexPath(op.row, op.section)]
    ensures op.RefreshRows? || op.ReloadRows? || op.DeleteRows? ==> PathsOf(r) == RowPaths(op.section, op.rows)
    ensures r.InsertRows? <==> op.InsertRows?
    ensures op.InsertRows? ==> r == InsertRows(op.rowCount, op.section, op.insertIndex)
  {
    match op
    case Init => Reload
    case RefreshSection(section) => RefreshSections({section}, true)
    case RefreshSections(sections) => RefreshSections(SectionSet(sections), true)
    case RefreshRow(section, row) => RefreshRows([IndexPath(row, section)], true)
    case RefreshRows(section, rows) => RefreshRows(RowPaths(section, rows), true)
    case ReloadSection(section) => ReloadSections({section})
    case ReloadSections(sections) => ReloadSections(SectionSet(sections))
    case ReloadRow(section, row) => ReloadRows([IndexPath(row, section)])
    case ReloadRows(section, rows) => ReloadRows(RowPaths(section, rows))
    case DeleteRow(section, row) => DeleteRows([IndexPath(row, section)])
    case DeleteRows(section, rows) => DeleteRows(RowPaths(section, rows))
    case LoadMoreInSection(section) => RefreshSections({section}, false)
    case LoadMore => Refresh(false)
    case InsertRows(section, insertIndex, rowCount) => InsertRows(rowCount, section, insertIndex)
  }

  /** The sections a command names, `{}` for one that names none. */
  function SectionsOf(c: TableCommand): set<int>
  {
    match c
    case RefreshSections(sections, _) => sections
    case ReloadSections(sections) => sections
    case _ => {}
  }

  /** The index paths a command names, `[]` for one that names none. */
  function PathsOf(c: TableCommand): seq<IndexPath>
  {
    match c
    case RefreshRows(paths, _) => paths
    case ReloadRows(paths) => paths
    case DeleteRows(paths) => paths
    case _ => []
  }

  /** Each single-row or single-section operator is dispatched as its list form with one
      entry. */
  lemma SingleIsListOfOne(section: int, row: int)
    ensures Dispatch(Source.RefreshSection(section)) == Dispatch(Source.RefreshSections([section]))
    ensures Dispatch(Source.ReloadSection(section)) == Dispatch(Source.ReloadSections([section]))
    ensures Dispatch(Source.RefreshRow(section, row)) == Dispatch(Source.RefreshRows(section, [row]))
    ensures Dispatch(Source.ReloadRow(section, row)) == Dispatch(Source.ReloadRows(section, [row]))
    ensures Dispatch(Source.DeleteRow(section, row)) == Dispatch(Source.DeleteRows(section, [row]))
  {
    assert SectionSet([section]) == {section};
  }

  /** The paths a row operator is dispatched with name exactly its rows, in its section:
      `deleteRows` and `reloadRows` of the table then drop exactly those cells. */
  lemma RowPathsNameTheRows(section: int, rows: seq<int>, other: int)
    requires other != section
    ensures FlexTable.RowsIn(RowPaths(section, rows), section) == SectionSet(rows)
    ensures FlexTable.RowsIn(RowPaths(section, rows), other) == {}
  {
    var paths := RowPaths(section, rows);
    forall r | r in SectionSet(rows) ensures r in FlexTable.RowsIn(paths, section) {
      var k :| 0 <= k < |rows| && rows[k] == r;
      assert paths[k] == IndexPath(r, section);
    }
    forall r | r in FlexTable.RowsIn(paths, section) ensures r in SectionSet(rows) {
      var k :| 0 <= k < |paths| && paths[k] == IndexPath(r, section);
      assert rows[k] == r;
    }
    assert forall p :: p in paths ==> p.section == section;
  }

  class DrTableDataSource<Item> {
    var source: Source.DrSource?<Item>
    var sourceId: Source.u64
    var cellBuilder: Option<(Item, IndexPath) -> View>
    var headerBuilder: Option<(Source.SourceSection<Item>, int) -> View>
    var footerBuilder: Option<(Source.SourceSection<Item>, int) -> View>

    /** `init(cellBuilder:headerBuilder:footerBuilder:)`. */
    constructor (cellBuilder: (Item, IndexPath) -> View,
                 headerBuilder: Option<(Source.SourceSection<Item>, int) -> View>,
                 footerBuilder: Option<(Source.SourceSection<Item>, int) -> View>)
      ensures source == null && sourceId == 0
      ensures this.cellBuilder == Some(cellBuilder)
      ensures this.headerBuilder == headerBuilder && this.footerBuilder == footerBuilder
    {
      source := null;
      sourceId := 0;
      this.cellBuilder := Some(cellBuilder);
      this.headerBuilder := headerBuilder;
      this.footerBuilder := footerBuilder;
    }

    /** Whether `handlerTable` lets `element` through: always when nothing has been rendered
        yet, otherwise only a snapshot with another id. */
    predicate Accepts(element: Source.DrSource<Item>)
      reads this, element
    {
      source == null || sourceId != element.id
    }

    /** `handlerTable(_:element:)`: an element already rendered is ignored (`None`, no
        table call); any other is stored with its id and its operator dispatched. */
    method HandlerTable(element: Source.DrSource<Item>) returns (cmd: Option<TableCommand>)
      modifies this
      ensures !old(Accepts(element)) ==> cmd.None? && source == old(source) && sourceId == old(sourceId)
      ensures old(Accepts(element)) ==>
        cmd == Some(Dispatch(element.operate)) && source == element && sourceId == element.id
      ensures source != null && sourceId == element.id && !Accepts(element)
      ensures cellBuilder == old(cellBuilder) && headerBuilder == old(headerBuilder) && footerBuilder == old(footerBuilder)
    {
      if !(source == null || sourceId != element.id) {
        return None;
      }
      source := element;
      sourceId := element.id;
      return Some(Dispatch(element.operate));
    }

    /** The `numberOfSections` closure: `source?.sections.count ?? 0`. */
    function NumberOfSections(): (r: nat)
      reads this, source
      ensures source == null ==> r == 0
      ensures source != null ==> r == |source.sections|
    {
      if source == null then 0 else |source.sections|
    }

    /** The `numberOfRowsInSection` closure: `source?.items(section:)?.count ?? 0`. */
    function NumberOfRows(section: nat): (r: nat)
      reads this, source
      ensures section >= NumberOfSections() ==> r == 0
      ensures source != null && section < |source.sections| ==> r == |source.sections[section].items|
    {
      if source == null then 0 else |source.Items(section).GetOr([])|
    }

    /** The item under a path of the table (whose rows and sections are never negative). */
    function ItemAt(path: IndexPath): (r: Option<Item>)
      requires path.row >= 0 && path.section >= 0
      reads this, source
      ensures r.Some? <==> path.row < NumberOfRows(path.section)
      ensures r.Some? ==> r.value == source.sections[path.section].items[path.row]
    {
      if source == null then None else source.Item(path.row, path.section)
    }

    /** The `cellInit` closure: nil without a cell builder or without an item there. */
    function CellInit(path: IndexPath): (r: Option<View>)
      requires path.row >= 0 && path.section >= 0
      reads this, source
      ensures r.Some? <==> cellBuilder.Some? && ItemAt(path).Some?
      ensures r.Some? ==> r.value == cellBuilder.value(ItemAt(path).value, path)
    {
      if cellBuilder.None? then None
      else match ItemAt(path)
        case None => None
        case Some(item) => Some(cellBuilder.value(item, path))
    }

    /** The `cellUpdate` closure; `update` is the cell's `updateItem`, `None` when the cell
        does not conform to `DrTableCellUpdateable`. */
    function CellUpdate(update: Option<(Item, IndexPath) -> bool>, path: IndexPath): (r: bool)
      requires path.row >= 0 && path.section >= 0
      reads this, source
      ensures r <==> update.Some? && ItemAt(path).Some? && update.value(ItemAt(path).value, path)
    {
      if update.Some? && ItemAt(path).Some? then update.value(ItemAt(path).value, path) else false
    }

    /** The `headerInit` closure. With a builder and a source, `sections[section]` traps for a
        section out of range. */
    function HeaderInit(section: int): (r: Option<View>)
      requires headerBuilder.Some? && source != null ==> 0 <= section < |source.sections|
      reads this, source
      ensures r.Some? <==> headerBuilder.Some? && source != null
      ensures r.Some? ==> r.value == headerBuilder.value(source.sections[section], section)
    {
      if headerBuilder.None? || source == null then None
      else Some(headerBuilder.value(source.sections[section], section))
    }

    /** The `footerInit` closure, as `headerInit` with the footer builder. */
    function FooterInit(section: int): (r: Option<View>)
      requires footerBuilder.Some? && source != null ==> 0 <= section < |source.sections|
      reads this, source
      ensures r.Some? <==> footerBuilder.Some? && source != null
      ensures r.Some? ==> r.value == footerBuilder.value(source.sections[section], section)
    {
      if footerBuilder.None? || source == null then None
      else Some(footerBuilder.value(source.sections[section], section))
    }

    /** The `cellClick` closure: the event emitted, only when there is an item there. */
    function CellClick(path: IndexPath): (r: Option<(Item, IndexPath)>)
      requires path.row >= 0 && path.section >= 0
      reads this, source
      ensures r.Some? <==> ItemAt(path).Some?
      ensures r.Some? ==> r.value == (ItemAt(path).value, path)
    {
      match ItemAt(path)
      case None => None
      case Some(item) => Some((item, path))
    }

    /** The counts and the lookups agree: a path has an item, a cell and a click event
        exactly when it lies inside the counts reported. */
    lemma LookupsWithinCounts(path: IndexPath)
      requires path.row >= 0 && path.section >= 0
      ensures ItemAt(path).Some? <==> path.section < NumberOfSections() && path.row < NumberOfRows(path.section)
      ensures cellBuilder.Some? ==> (CellInit(path).Some? <==> ItemAt(path).Some?)
      ensures CellClick(path).Some? ==> path.section < NumberOfSections()
    {
    }
  }
}
