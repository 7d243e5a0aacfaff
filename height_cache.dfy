// The table data sources of components/tableView/DrTableViewDataSource.swift:
// a grouped source and a flat item source, each answering counts and items
// from what its binder returns, building views through `DrViewBuilder`s and
// remembering each measured height under a string key until `cleanCache`.
module HeightCache {
  import opened Wrappers
  import opened UIKitModel

  /** `DrViewBuilder`: a reuse id and the view its closure builds, known here by the height
      it takes once laid out at the table's width. */
  datatype ViewBuilder = ViewBuilder(reuseId: string, builtHeight: real)

  /** `Group<Item>`: the items of one section and the untyped header and footer values. */
  datatype Group<Item> = Group(items: seq<Item>, header: Option<nat>, footer: Option<nat>)

  /** The memo step shared by every height query: a key already cached answers its height
      and leaves the cache alone; a new key stores the height just measured. */
  function Remember(cache: map<string, real>, key: string, measured: real): (r: (real, map<string, real>))
    ensures key in cache ==> r.0 == cache[key] && r.1 == cache
    ensures key !in cache ==> r.0 == measured && r.1 == cache[key := measured]
  {
    if key in cache then (cache[key], cache) else (measured, cache[key := measured])
  }

  /** A second query under the same key answers the first height, whatever is measured
      then, and changes nothing. */
  lemma RememberOnce(cache: map<string, real>, key: string, first: real, second: real)
    ensures Remember(Remember(cache, key, first).1, key, second) == (Remember(cache, key, first).0, Remember(cache, key, first).1)
  {
  }

  /** After `cleanCache` every key is measured again. */
  lemma RememberAfterClean(key: string, measured: real)
    ensures Remember(map[], key, measured) == (measured, map[key := measured])
  {
  }

  function DigitChar(d: nat): (c: char)
    requires d < 10
    ensures '0' <= c <= '9' && c as int - '0' as int == d
  {
    "0123456789"[d]
  }

  /** The decimal text of a non-negative `Int`, as string interpolation writes it. */
  function NatToString(n: nat): (r: string)
    ensures |r| >= 1
    ensures forall i :: 0 <= i < |r| ==> '0' <= r[i] <= '9'
  {
    if n < 10 then [DigitChar(n)] else NatToString(n / 10) + [DigitChar(n % 10)]
  }

  /** The value of a string of decimal digits. */
  function ParseDigits(s: string): nat
    requires forall i :: 0 <= i < |s| ==> '0' <= s[i] <= '9'
  {
    if s == [] then 0 else ParseDigits(s[..|s| - 1]) * 10 + (s[|s| - 1] as int - '0' as int)
  }

  lemma {:induction false} ParseNatToString(n: nat)
    ensures ParseDigits(NatToString(n)) == n
  {
    if n >= 10 {
      ParseNatToString(n / 10);
      var s := NatToString(n);
      assert s[..|s| - 1] == NatToString(n / 10);
    }
  }

  /** Different numbers are written differently. */
  lemma NatToStringInjective(a: nat, b: nat)
    requires NatToString(a) == NatToString(b)
    ensures a == b
  {
    ParseNatToString(a);
    ParseNatToString(b);
  }

  /** The key of a cell's height when heights vary by cell: `"\(section)-\(row)"`. */
  function PathKey(section: nat, row: nat): string
  {
    NatToString(section) + "-" + NatToString(row)
  }

  /** Two joins of digit strings around one dash are equal only when both sides are. */
  lemma SplitAtDash(a: string, b: string, c: string, d: string)
    requires forall i :: 0 <= i < |a| ==> '0' <= a[i] <= '9'
    requires forall i :: 0 <= i < |c| ==> '0' <= c[i] <= '9'
    requires a + "-" + b == c + "-" + d
    ensures a == c && b == d
  {
    var l := a + "-" + b;
    assert l == c + "-" + d;
    assert l[|a|] == '-' && l[|c|] == '-';
    assert forall i :: 0 <= i < |a| ==> l[i] == a[i] != '-';
    assert forall i :: 0 <= i < |c| ==> l[i] == c[i] != '-';
    assert |a| == |c|;
    assert a == l[..|a|] == c;
    assert b == l[|a| + 1..] == d;
  }

  /** Distinct cells never share a height entry. */
  lemma PathKeyInjective(s1: nat, r1: nat, s2: nat, r2: nat)
    requires PathKey(s1, r1) == PathKey(s2, r2)
    ensures s1 == s2 && r1 == r2
  {
    SplitAtDash(NatToString(s1), NatToString(r1), NatToString(s2), NatToString(r2));
    NatToStringInjective(s1, s2);
    NatToStringInjective(r1, r2);
  }

  /** `DrTableViewGroupSource`. `source` is what the source binder answers now (`None`
      when none is bound or its target is gone). */
  class GroupSource<Item> {
    var source: Option<seq<Group<Item>>>
    const cellBuilder: (Item, IndexPath) -> ViewBuilder
    const headerBuilder: Option<(Group<Item>, int) -> Option<ViewBuilder>>
    const footerBuilder: Option<(Group<Item>, int) -> Option<ViewBuilder>>
    var clickBound: bool
    var willDisplayBound: bool
    var heightCaches: map<string, real>
    const isMutableHeight: bool

    constructor (isMutableHeight: bool, cellBuilder: (Item, IndexPath) -> ViewBuilder,
                 headerBuilder: Option<(Group<Item>, int) -> Option<ViewBuilder>>,
                 footerBuilder: Option<(Group<Item>, int) -> Option<ViewBuilder>>)
      ensures source.None? && !clickBound && !willDisplayBound && heightCaches == map[]
      ensures this.isMutableHeight == isMutableHeight && this.cellBuilder == cellBuilder
      ensures this.headerBuilder == headerBuilder && this.footerBuilder == footerBuilder
    {
      source := None;
      this.cellBuilder := cellBuilder;
      this.headerBuilder := headerBuilder;
      this.footerBuilder := footerBuilder;
      clickBound := false;
      willDisplayBound := false;
      heightCaches := map[];
      this.isMutableHeight := isMutableHeight;
    }

    /** A path whose item exists; `source![section][row]` traps for any other. */
    predicate ValidPath(path: IndexPath)
      reads this
    {
      source.Some? && 0 <= path.section < |source.value| && 0 <= path.row < |source.value[path.section].items|
    }

    /** `numberOfSections`: the groups bound, 1 when there are none. */
    function NumberOfSections(): (r: int)
      reads this
      ensures source.None? ==> r == 1
      ensures source.Some? ==> r == |source.value|
    {
      if source.Some? then |source.value| else 1
    }

    /** `numberOfRowsInSection(section:)`. */
    function NumberOfRows(section: int): (r: nat)
      requires source.Some? && 0 <= section < |source.value|
      reads this
      ensures r == |source.value[section].items|
      ensures forall row :: 0 <= row < r <==> ValidPath(IndexPath(row, section))
    {
      |source.value[section].items|
    }

    /** `item(row:section:)`. */
    function ItemAt(path: IndexPath): (r: Item)
      requires ValidPath(path)
      reads this
      ensures r == source.value[path.section].items[path.row]
    {
      source.value[path.section].items[path.row]
    }

    /** `cellView(indexPath:)`. */
    function CellView(path: IndexPath): (r: ViewBuilder)
      requires ValidPath(path)
      reads this
      ensures r == cellBuilder(ItemAt(path), path)
    {
      cellBuilder(ItemAt(path), path)
    }

    /** The key of a cell's height: its path when heights vary by cell, its reuse id
        otherwise. */
    function CellKey(path: IndexPath): (r: string)
      requires ValidPath(path)
      reads this
      ensures isMutableHeight ==> r == PathKey(path.section, path.row)
      ensures !isMutableHeight ==> r == CellView(path).reuseId
    {
      if isMutableHeight then PathKey(path.section, path.row) else CellView(path).reuseId
    }

    /** `cellHeight(indexPath:in:)`: `built` tells whether the builder ran, which is exactly
        on a cache miss. */
    method CellHeight(path: IndexPath) returns (h: real, built: bool)
      requires ValidPath(path)
      modifies this
      ensures source == old(source) && clickBound == old(clickBound) && willDisplayBound == old(willDisplayBound)
      ensures built <==> CellKey(path) !in old(heightCaches)
      ensures (h, heightCaches) == Remember(old(heightCaches), CellKey(path), CellView(path).builtHeight)
    {
      var viewBuilder := CellView(path);
      var tag := CellKey(path);
      if tag !in heightCaches {
        heightCaches := heightCaches[tag := viewBuilder.builtHeight];
        return viewBuilder.builtHeight, true;
      }
      return heightCaches[tag], false;
    }

    /** `headerView(section:)`: nil without a header builder; with one, `source![section]`
        traps outside the groups. */
    function HeaderView(section: int): (r: Option<ViewBuilder>)
      requires headerBuilder.Some? ==> source.Some? && 0 <= section < |source.value|
      reads this
      ensures headerBuilder.None? ==> r.None?
      ensures headerBuilder.Some? ==> r == headerBuilder.value(source.value[section], section)
    {
      if headerBuilder.None? then None else headerBuilder.value(source.value[section], section)
    }

    /** `footerView(section:)`. */
    function FooterView(section: int): (r: Option<ViewBuilder>)
      requires footerBuilder.Some? ==> source.Some? && 0 <= section < |source.value|
      reads this
      ensures footerBuilder.None? ==> r.None?
      ensures footerBuilder.Some? ==> r == footerBuilder.value(source.value[section], section)
    {
      if footerBuilder.None? then None else footerBuilder.value(source.value[section], section)
    }

    /** `headerHeight(section:in:)`: nil without a header view; otherwise cached under its
        reuse id, in the same cache as the cells. */
    method HeaderHeight(section: int) returns (h: Option<real>, built: bool)
      requires headerBuilder.Some? ==> source.Some? && 0 <= section < |source.value|
      modifies this
      ensures source == old(source) && clickBound == old(clickBound) && willDisplayBound == old(willDisplayBound)
      ensures HeaderView(section).None? ==> h.None? && !built && heightCaches == old(heightCaches)
      ensures HeaderView(section).Some? ==>
        var vb := HeaderView(section).value;
        && (built <==> vb.reuseId !in old(heightCaches))
        && h.Some?
        && (h.value, heightCaches) == Remember(old(heightCaches), vb.reuseId, vb.builtHeight)
    {
      var viewBuilder := HeaderView(section);
      if viewBuilder.None? {
        return None, false;
      }
      var vb := viewBuilder.value;
      if vb.reuseId !in heightCaches {
        heightCaches := heightCaches[vb.reuseId := vb.builtHeight];
        return Some(vb.builtHeight), true;
      }
      return Some(heightCaches[vb.reuseId]), false;
    }

    /** `footerHeight(section:in:)`. */
    method FooterHeight(section: int) returns (h: Option<real>, built: bool)
      requires footerBuilder.Some? ==> source.Some? && 0 <= section < |source.value|
      modifies this
      ensures source == old(source) && clickBound == old(clickBound) && willDisplayBound == old(willDisplayBound)
      ensures FooterView(section).None? ==> h.None? && !built && heightCaches == old(heightCaches)
      ensures FooterView(section).Some? ==>
        var vb := FooterView(section).value;
        && (built <==> vb.reuseId !in old(heightCaches))
        && h.Some?
        && (h.value, heightCaches) == Remember(old(heightCaches), vb.reuseId, vb.builtHeight)
    {
      var viewBuilder := FooterView(section);
      if viewBuilder.None? {
        return None, false;
      }
      var vb := viewBuilder.value;
      if vb.reuseId !in heightCaches {
        heightCaches := heightCaches[vb.reuseId := vb.builtHeight];
        return Some(vb.builtHeight), true;
      }
      return Some(heightCaches[vb.reuseId]), false;
    }

    /** `cleanCache()`. */
    method CleanCache()
      modifies this
      ensures source == old(source) && clickBound == old(clickBound) && willDisplayBound == old(willDisplayBound)
      ensures heightCaches == map[]
    {
      heightCaches := map[];
    }

    /** `bindSource(_:binding:)`, with the binder's current answer. */
    method BindSource(groups: Option<seq<Group<Item>>>)
      modifies this
      ensures source == groups
      ensures heightCaches == old(heightCaches) && clickBound == old(clickBound) && willDisplayBound == old(willDisplayBound)
    {
      source := groups;
    }

    /** `onClick(_:binding:)`: a click binder is set; nothing else changes. */
    method OnClick()
      modifies this
      ensures clickBound
      ensures source == old(source) && heightCaches == old(heightCaches) && willDisplayBound == old(willDisplayBound)
    {
      clickBound := true;
    }

    /** `onWillDisplay(_:binding:)`: a display binder is set; nothing else changes. */
    method OnWillDisplay()
      modifies this
      ensures willDisplayBound
      ensures source == old(source) && heightCaches == old(heightCaches) && clickBound == old(clickBound)
    {
      willDisplayBound := true;
    }

    /** `click(view:indexPath:)`: the call of the click binder, none when no binder is set. */
    function Click(view: View, path: IndexPath): (r: Option<(Item, IndexPath, View)>)
      requires clickBound ==> ValidPath(path)
      reads this
      ensures r.Some? <==> clickBound
      ensures r.Some? ==> r.value == (ItemAt(path), path, view)
    {
      if clickBound then Some((ItemAt(path), path, view)) else None
    }

    /** `willDisplay(view:indexPath:)`. */
    function WillDisplay(view: View, path: IndexPath): (r: Option<(Item, IndexPath, View)>)
      requires willDisplayBound ==> ValidPath(path)
      reads this
      ensures r.Some? <==> willDisplayBound
      ensures r.Some? ==> r.value == (ItemAt(path), path, view)
    {
      if willDisplayBound then Some((ItemAt(path), path, view)) else None
    }
  }

  /** `DrTableViewItemSource`: one section of items. */
  class ItemSource<Item> {
    var source: Option<seq<Item>>
    const cellBuilder: (Item, IndexPath) -> ViewBuilder
    const headerBuilder: Option<() -> ViewBuilder>
    const footerBuilder: Option<() -> ViewBuilder>
    var clickBound: bool
    var willDisplayBound: bool
    var heightCaches: map<string, real>
    const isMutableHeight: bool

    constructor (isMutableHeight: bool, cellBuilder: (Item, IndexPath) -> ViewBuilder,
                 headerBuilder: Option<() -> ViewBuilder>, footerBuilder: Option<() -> ViewBuilder>)
      ensures source.None? && !clickBound && !willDisplayBound && heightCaches == map[]
      ensures this.isMutableHeight == isMutableHeight && this.cellBuilder == cellBuilder
      ensures this.headerBuilder == headerBuilder && this.footerBuilder == footerBuilder
    {
      source := None;
      this.cellBuilder := cellBuilder;
      this.headerBuilder := headerBuilder;
      this.footerBuilder := footerBuilder;
      clickBound := false;
      willDisplayBound := false;
      heightCaches := map[];
      this.isMutableHeight := isMutableHeight;
    }

    /** A path whose row has an item; `source![row]` traps for any other. The section is
        not looked at. */
    predicate ValidPath(path: IndexPath)
      reads this
    {
      source.Some? && 0 <= path.row < |source.value|
    }

    /** `numberOfSections`: always 1. */
    function NumberOfSections(): (r: int)
      ensures r == 1
    {
      1
    }

    /** `numberOfRowsInSection(section:)`: the items bound, 0 without any, in every section. */
    function NumberOfRows(section: int): (r: nat)
      reads this
      ensures source.None? ==> r == 0
      ensures source.Some? ==> r == |source.value|
      ensures forall row :: 0 <= row < r <==> ValidPath(IndexPath(row, section))
    {
      if source.Some? then |source.value| else 0
    }

    /** `item(row:section:)`: the row alone picks the item. */
    function ItemAt(path: IndexPath): (r: Item)
      requires ValidPath(path)
      reads this
      ensures r == source.value[path.row]
    {
      source.value[path.row]
    }

    /** Whatever section is asked, the same row gives the same item. */
    lemma ItemIgnoresSection(row: int, s1: int, s2: int)
      requires ValidPath(IndexPath(row, s1))
      ensures ValidPath(IndexPath(row, s2)) && ItemAt(IndexPath(row, s1)) == ItemAt(IndexPath(row, s2))
    {
    }

    function CellView(path: IndexPath): (r: ViewBuilder)
      requires ValidPath(path)
      reads this
      ensures r == cellBuilder(ItemAt(path), path)
    {
      cellBuilder(ItemAt(path), path)
    }

    /** The key of a cell's height. `PathKey` is defined on natural numbers, and UIKit
        never passes a negative section. */
    function CellKey(path: IndexPath): (r: string)
      requires ValidPath(path) && path.section >= 0
      reads this
      ensures isMutableHeight ==> r == PathKey(path.section, path.row)
      ensures !isMutableHeight ==> r == CellView(path).reuseId
    {
      if isMutableHeight then PathKey(path.section, path.row) else CellView(path).reuseId
    }

    /** `cellHeight(indexPath:in:)`. */
    method CellHeight(path: IndexPath) returns (h: real, built: bool)
      requires ValidPath(path) && path.section >= 0
      modifies this
      ensures source == old(source) && clickBound == old(clickBound) && willDisplayBound == old(willDisplayBound)
      ensures built <==> CellKey(path) !in old(heightCaches)
      ensures (h, heightCaches) == Remember(old(heightCaches), CellKey(path), CellView(path).builtHeight)
    {
      var viewBuilder := CellView(path);
      var tag := CellKey(path);
      if tag !in heightCaches {
        heightCaches := heightCaches[tag := viewBuilder.builtHeight];
        return viewBuilder.builtHeight, true;
      }
      return heightCaches[tag], false;
    }

    /** `headerView(section:)`: the header builder's answer, for any section. */
    function HeaderView(section: int): (r: Option<ViewBuilder>)
      ensures headerBuilder.None? ==> r.None?
      ensures headerBuilder.Some? ==> r == Some(headerBuilder.value())
    {
      if headerBuilder.None? then None else Some(headerBuilder.value())
    }

    function FooterView(section: int): (r: Option<ViewBuilder>)
      ensures footerBuilder.None? ==> r.None?
      ensures footerBuilder.Some? ==> r == Some(footerBuilder.value())
    {
      if footerBuilder.None? then None else Some(footerBuilder.value())
    }

    /** `headerHeight(section:in:)`. */
    method HeaderHeight(section: int) returns (h: Option<real>, built: bool)
      modifies this
      ensures source == old(source) && clickBound == old(clickBound) && willDisplayBound == old(willDisplayBound)
      ensures headerBuilder.None? ==> h.None? && !built && heightCaches == old(heightCaches)
      ensures headerBuilder.Some? ==>
        var vb := headerBuilder.value();
        && (built <==> vb.reuseId !in old(heightCaches))
        && h.Some?
        && (h.value, heightCaches) == Remember(old(heightCaches), vb.reuseId, vb.builtHeight)
    {
      var viewBuilder := HeaderView(section);
      if viewBuilder.None? {
        return None, false;
      }
      var vb := viewBuilder.value;
      if vb.reuseId !in heightCaches {
        heightCaches := heightCaches[vb.reuseId := vb.builtHeight];
        return Some(vb.builtHeight), true;
      }
      return Some(heightCaches[vb.reuseId]), false;
    }

    /** `footerHeight(section:in:)`. */
    method FooterHeight(section: int) returns (h: Option<real>, built: bool)
      modifies this
      ensures source == old(source) && clickBound == old(clickBound) && willDisplayBound == old(willDisplayBound)
      ensures footerBuilder.None? ==> h.None? && !built && heightCaches == old(heightCaches)
      ensures footerBuilder.Some? ==>
        var vb := footerBuilder.value();
        && (built <==> vb.reuseId !in old(heightCaches))
        && h.Some?
        && (h.value, heightCaches) == Remember(old(heightCaches), vb.reuseId, vb.builtHeight)
    {
      var viewBuilder := FooterView(section);
      if viewBuilder.None? {
        return None, false;
      }
      var vb := viewBuilder.value;
      if vb.reuseId !in heightCaches {
        heightCaches := heightCaches[vb.reuseId := vb.builtHeight];
        return Some(vb.builtHeight), true;
      }
      return Some(heightCaches[vb.reuseId]), false;
    }

    /** `cleanCache()`. */
    method CleanCache()
      modifies this
      ensures source == old(source) && clickBound == old(clickBound) && willDisplayBound == old(willDisplayBound)
      ensures heightCaches == map[]
    {
      heightCaches := map[];
    }

    /** `bindSource(_:binding:)`, with the binder's current answer. */
    method BindSource(items: Option<seq<Item>>)
      modifies this
      ensures source == items
      ensures heightCaches == old(heightCaches) && clickBound == old(clickBound) && willDisplayBound == old(willDisplayBound)
    {
      source := items;
    }

    /** `onClick(_:binding:)`: a click binder is set; nothing else changes. */
    method OnClick()
      modifies this
      ensures clickBound
      ensures source == old(source) && heightCaches == old(heightCaches) && willDisplayBound == old(willDisplayBound)
    {
      clickBound := true;
    }

    /** `onWillDisplay(_:binding:)`: a display binder is set; nothing else changes. */
    method OnWillDisplay()
      modifies this
      ensures willDisplayBound
      ensures source == old(source) && heightCaches == old(heightCaches) && clickBound == old(clickBound)
    {
      willDisplayBound := true;
    }

    /** `click(view:indexPath:)`. */
    function Click(view: View, path: IndexPath): (r: Option<(Item, IndexPath, View)>)
      requires clickBound ==> ValidPath(path)
      reads this
      ensures r.Some? <==> clickBound
      ensures r.Some? ==> r.value == (ItemAt(path), path, view)
    {
      if clickBound then Some((ItemAt(path), path, view)) else None
    }

    /** `willDisplay(view:indexPath:)`. */
    function WillDisplay(view: View, path: IndexPath): (r: Option<(Item, IndexPath, View)>)
      requires willDisplayBound ==> ValidPath(path)
      reads this
      ensures r.Some? <==> willDisplayBound
      ensures r.Some? ==> r.value == (ItemAt(path), path, view)
    {
      if willDisplayBound then Some((ItemAt(path), path, view)) else None
    }
  }
}
