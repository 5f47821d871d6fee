/** The root app's data table wrapper: the storage keys derived from the table's id,
    the density and visible columns read from storage at creation and written back on
    change, the column filter, and the paging offset. */
module DataTable {
  import opened Wrappers
  import opened Text
  import opened Codec
  import opened Storage
  import opened Lists

  /** A column: the record field it shows and its header text. */
  datatype Column = Column(field: string, header: string)

  const DensityPrefix := "pv_dt_density_"
  const ColumnsPrefix := "pv_dt_cols_"

  /** A storage key exists only for a table with a non-empty id. */
  function DensityKey(id: Option<string>): (k: Option<string>)
    ensures k.Some? <==> id.Some? && id.value != ""
    ensures k.Some? ==> k.value == DensityPrefix + id.value
  {
    if id.Some? && id.value != "" then Some(DensityPrefix + id.value) else None
  }

  function ColumnsKey(id: Option<string>): (k: Option<string>)
    ensures k.Some? <==> id.Some? && id.value != ""
    ensures k.Some? ==> k.value == ColumnsPrefix + id.value
  {
    if id.Some? && id.value != "" then Some(ColumnsPrefix + id.value) else None
  }

  /** The two keys of one table differ from each other and from the session keys. */
  lemma KeysDistinct(id: Option<string>)
    requires id.Some? && id.value != ""
    ensures DensityKey(id).value != ColumnsKey(id).value
    ensures DensityKey(id).value !in {AccessTokenKey, RefreshTokenKey, UserKey}
    ensures ColumnsKey(id).value !in {AccessTokenKey, RefreshTokenKey, UserKey}
  {
    assert DensityKey(id).value[6] != ColumnsKey(id).value[6];
    assert |DensityKey(id).value| > 14 && |ColumnsKey(id).value| > 11;
  }

  function Fields(columns: seq<Column>): (fields: seq<string>)
    ensures |fields| == |columns|
    ensures forall i | 0 <= i < |columns| :: fields[i] == columns[i].field
  {
    seq(|columns|, i requires 0 <= i < |columns| => columns[i].field)
  }

  /** The initial density: the `dense` prop when given, else whether the stored value
      is 'compact' (false without a key). */
  function InitialDense(dense: Option<bool>, items: map<string, string>, densityKey: Option<string>): (d: bool)
    ensures dense.Some? ==> d == dense.value
    ensures dense.None? ==> (d <==> densityKey.Some? && densityKey.value in items && items[densityKey.value] == "compact")
  {
    if dense.Some? then dense.value
    else densityKey.Some? && densityKey.value in items && items[densityKey.value] == "compact"
  }

  /** The initial visible columns: the saved list when there is a key and a saved value
      that decodes, every field otherwise. */
  function InitialVisible(columns: seq<Column>, items: map<string, string>, columnsKey: Option<string>): (v: seq<string>)
    ensures columnsKey.None? ==> v == Fields(columns)
    ensures columnsKey.Some? && !HasValue(items, columnsKey.value) ==> v == Fields(columns)
    ensures columnsKey.Some? && HasValue(items, columnsKey.value) ==>
      v == match DecodeStrings(items[columnsKey.value])
           case Some(saved) => saved
           case None => Fields(columns)
  {
    if columnsKey.None? then Fields(columns)
    else if HasValue(items, columnsKey.value) then
      match DecodeStrings(items[columnsKey.value])
      case Some(saved) => saved
      case None => Fields(columns)
    else Fields(columns)
  }

  /** The rendered data columns: those whose field is visible, in the columns' own order
      (not the order of the visible list). */
  function Rendered(columns: seq<Column>, visible: seq<string>): (r: seq<Column>)
    ensures |r| <= |columns|
    ensures forall i | 0 <= i < |r| :: r[i] in columns && r[i].field in visible
    ensures forall i | 0 <= i < |columns| :: columns[i].field in visible ==> columns[i] in r
    decreases |columns|
  {
    if columns == [] then []
    else (if columns[0].field in visible then [columns[0]] else []) + Rendered(columns[1..], visible)
  }

  /** The rendered columns are the columns in their own order with the hidden ones
      taken out: a visible column appears as often as in `columns`, a hidden one never. */
  lemma {:induction false} RenderedKeepsOrder(columns: seq<Column>, visible: seq<string>, c: Column)
    ensures IsSubsequence(Rendered(columns, visible), columns)
    ensures multiset(Rendered(columns, visible))[c] == if c.field in visible then multiset(columns)[c] else 0
    decreases |columns|
  {
    if columns != [] {
      var rest := Rendered(columns[1..], visible);
      RenderedKeepsOrder(columns[1..], visible, c);
      assert columns == [columns[0]] + columns[1..];
      assert multiset(columns) == multiset([columns[0]]) + multiset(columns[1..]);
      if columns[0].field in visible {
        assert Rendered(columns, visible) == [columns[0]] + rest;
        assert ([columns[0]] + rest)[1..] == rest;
        assert multiset([columns[0]] + rest) == multiset([columns[0]]) + multiset(rest);
      } else {
        assert Rendered(columns, visible) == rest;
        SubsequenceOfTail(rest, columns);
      }
    }
  }

  /** With every field visible, every column is rendered, in order. */
  lemma {:induction false} AllVisibleRendersAll(columns: seq<Column>, visible: seq<string>)
    requires forall i | 0 <= i < |columns| :: columns[i].field in visible
    ensures Rendered(columns, visible) == columns
    decreases |columns|
  {
    if columns != [] {
      AllVisibleRendersAll(columns[1..], visible);
    }
  }

  /** Showing the same fields in another order renders the same columns. */
  lemma {:induction false} RenderedIgnoresOrder(columns: seq<Column>, visible: seq<string>, other: seq<string>)
    requires forall f :: f in visible <==> f in other
    ensures Rendered(columns, visible) == Rendered(columns, other)
    decreases |columns|
  {
    if columns != [] {
      RenderedIgnoresOrder(columns[1..], visible, other);
    }
  }

  class Table {
    const columns: seq<Column>
    const densityKey: Option<string>
    const columnsKey: Option<string>
    const hasOnPage: bool
    const storage: LocalStorage
    var first: int
    var isDense: bool
    var visibleColumns: seq<string>

    /** The table as it mounts: keys from the id, state read from storage. */
    constructor (id: Option<string>, cols: seq<Column>, dense: Option<bool>, onPage: bool, s: LocalStorage)
      ensures columns == cols && densityKey == DensityKey(id) && columnsKey == ColumnsKey(id)
      ensures hasOnPage == onPage && storage == s && first == 0
      ensures isDense == InitialDense(dense, s.items, DensityKey(id))
      ensures visibleColumns == InitialVisible(cols, s.items, ColumnsKey(id))
    {
      columns := cols;
      densityKey := DensityKey(id);
      columnsKey := ColumnsKey(id);
      hasOnPage := onPage;
      storage := s;
      first := 0;
      isDense := InitialDense(dense, s.items, DensityKey(id));
      visibleColumns := InitialVisible(cols, s.items, ColumnsKey(id));
    }

    /** `lazy={!!onPage}`: the table leaves paging to the caller exactly when the caller
        handles page events. */
    predicate Lazy()
      reads this
    {
      hasOnPage
    }

    /** The column chooser's change: the new list is shown, and saved when the table
        has a key, so that a table mounted later with the same id shows it again. */
    method OnColumnsChange(v: seq<string>)
      modifies this, storage
      ensures visibleColumns == v && isDense == old(isDense) && first == old(first)
      ensures storage.items == if columnsKey.Some? then old(storage.items)[columnsKey.value := EncodeStrings(v)]
                               else old(storage.items)
      ensures columnsKey.Some? ==> InitialVisible(columns, storage.items, columnsKey) == v
    {
      visibleColumns := v;
      if columnsKey.Some? {
        storage.SetItem(columnsKey.value, EncodeStrings(v));
        StringsRoundTrip(v);
      }
    }

    /** The density chooser's change: compact exactly when 'compact' was chosen, saved
        when the table has a key, so that a later mount without a `dense` prop agrees. */
    method OnDensityChange(value: string)
      modifies this, storage
      ensures isDense == (value == "compact") && visibleColumns == old(visibleColumns) && first == old(first)
      ensures storage.items == if densityKey.Some? then old(storage.items)[densityKey.value := if isDense then "compact" else "comfortable"]
                               else old(storage.items)
      ensures densityKey.Some? ==> InitialDense(None, storage.items, densityKey) == isDense
    {
      isDense := value == "compact";
      if densityKey.Some? {
        storage.SetItem(densityKey.value, if isDense then "compact" else "comfortable");
      }
    }

    /** A page event records its offset and is forwarded exactly when the table is lazy,
        that is when the caller handles paging. */
    method OnPage(eventFirst: int) returns (forwarded: bool)
      modifies this
      ensures first == eventFirst && forwarded == hasOnPage && forwarded == Lazy()
      ensures isDense == old(isDense) && visibleColumns == old(visibleColumns)
    {
      first := eventFirst;
      forwarded := hasOnPage;
    }
  }
}
