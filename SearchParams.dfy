/** The public job search's query string, as both job services build it: one
    `(key, value)` pair per filter that passes its test, appended in a fixed order.
    Percent-encoding of the values is not modelled. */
module SearchParams {
  import opened Wrappers
  import opened Text
  import opened Entities

  /** The five keys the service may append, in the order it appends them. */
  datatype Key = TitleKey | LocationKey | RemoteKey | PageKey | SizeKey

  /** The name a key is sent under. */
  function KeyName(k: Key): string {
    match k
    case TitleKey => "title"
    case LocationKey => "location"
    case RemoteKey => "remote"
    case PageKey => "page"
    case SizeKey => "size"
  }

  /** Different keys are sent under different names. */
  lemma KeyNamesDistinct(a: Key, b: Key)
    ensures KeyName(a) == KeyName(b) <==> a == b
  {
    if a != b {
      assert KeyName(a)[0] != KeyName(b)[0] || |KeyName(a)| != |KeyName(b)|;
    }
  }

  datatype Param = Param(key: Key, value: string)

  /** `boolean.toString()`. */
  function BoolText(b: bool): string { if b then "true" else "false" }

  /** The key at position `n` of the order. */
  function KeyAt(n: nat): Key
    requires n < 5
  {
    if n == 0 then TitleKey else if n == 1 then LocationKey else if n == 2 then RemoteKey
    else if n == 3 then PageKey else SizeKey
  }

  /** The value a filter contributes under its key, if any. */
  function FilterValue(f: JobFilters, k: Key): Option<string> {
    match k
    case TitleKey => if f.title.Some? && f.title.value != "" then f.title else None
    case LocationKey => if f.location.Some? && f.location.value != "" then f.location else None
    case RemoteKey => if f.remote.Some? then Some(BoolText(f.remote.value)) else None
    case PageKey => if f.page.Some? then Some(IntToString(f.page.value)) else None
    case SizeKey => if f.size.Some? then Some(IntToString(f.size.value)) else None
  }

  /** The pair appended for one key, if any. */
  function Segment(f: JobFilters, k: Key): (seg: seq<Param>)
    ensures |seg| <= 1 && forall i | 0 <= i < |seg| :: seg[i].key == k
  {
    if FilterValue(f, k).Some? then [Param(k, FilterValue(f, k).value)] else []
  }

  /** The pairs `getPublicJobs` appends: title and location only when non-empty (falsy
      strings are skipped), remote, page and size whenever defined, even when false
      or zero. */
  function ParamPairs(f: JobFilters): seq<Param> {
    Segment(f, TitleKey) + Segment(f, LocationKey) + Segment(f, RemoteKey) + Segment(f, PageKey) + Segment(f, SizeKey)
  }

  /** A `URLSearchParams` object, appended to in place. */
  class Params {
    var pairs: seq<Param>

    constructor ()
      ensures pairs == []
    {
      pairs := [];
    }

    method Append(key: Key, value: string)
      modifies this
      ensures pairs == old(pairs) + [Param(key, value)]
    {
      pairs := pairs + [Param(key, value)];
    }
  }

  /** The parameter building in `getPublicJobs`, one condition after another. */
  method BuildParams(f: JobFilters) returns (p: Params)
    ensures fresh(p) && p.pairs == ParamPairs(f)
  {
    p := new Params();
    if f.title.Some? && f.title.value != "" { p.Append(TitleKey, f.title.value); }
    assert p.pairs == Segment(f, TitleKey);
    if f.location.Some? && f.location.value != "" { p.Append(LocationKey, f.location.value); }
    assert p.pairs == Segment(f, TitleKey) + Segment(f, LocationKey);
    if f.remote.Some? { p.Append(RemoteKey, BoolText(f.remote.value)); }
    assert p.pairs == Segment(f, TitleKey) + Segment(f, LocationKey) + Segment(f, RemoteKey);
    if f.page.Some? { p.Append(PageKey, IntToString(f.page.value)); }
    assert p.pairs == Segment(f, TitleKey) + Segment(f, LocationKey) + Segment(f, RemoteKey) + Segment(f, PageKey);
    if f.size.Some? { p.Append(SizeKey, IntToString(f.size.value)); }
  }

  /** `params.toString()`: `name=value` pieces joined by '&'. */
  function QueryString(pairs: seq<Param>): string {
    Join(seq(|pairs|, i requires 0 <= i < |pairs| => KeyName(pairs[i].key) + "=" + pairs[i].value), "&")
  }

  /** The first value under a key, as a server reading the query would take it. */
  function Lookup(pairs: seq<Param>, key: Key): (r: Option<string>)
    ensures r.Some? ==> exists i | 0 <= i < |pairs| :: pairs[i] == Param(key, r.value)
    ensures r.None? ==> forall i | 0 <= i < |pairs| :: pairs[i].key != key
    decreases |pairs|
  {
    if pairs == [] then None
    else if pairs[0].key == key then Some(pairs[0].value)
    else Lookup(pairs[1..], key)
  }

  /** Pairs without the key are skipped when looking it up. */
  lemma {:induction false} LookupSkip(a: seq<Param>, b: seq<Param>, key: Key)
    requires forall i | 0 <= i < |a| :: a[i].key != key
    ensures Lookup(a + b, key) == Lookup(b, key)
    decreases |a|
  {
    if a == [] {
      assert a + b == b;
    } else {
      assert (a + b)[1..] == a[1..] + b;
      LookupSkip(a[1..], b, key);
    }
  }

  /** A key's own segment, when it is in front of pairs with other keys, decides the
      lookup. */
  lemma LookupHead(seg: seq<Param>, rest: seq<Param>, key: Key)
    requires |seg| <= 1 && forall i | 0 <= i < |seg| :: seg[i].key == key
    requires forall i | 0 <= i < |rest| :: rest[i].key != key
    ensures Lookup(seg + rest, key) == if seg == [] then None else Some(seg[0].value)
  {
    if seg == [] {
      assert seg + rest == rest;
    } else {
      assert (seg + rest)[0] == seg[0];
    }
  }

  function ParseBool(s: Option<string>): Option<bool> {
    if s == Some("true") then Some(true) else if s == Some("false") then Some(false) else None
  }

  function ParseNumber(s: Option<string>): Option<int> {
    if s.Some? then ParseInt(s.value) else None
  }

  /** The filters a server reads back from the pairs. */
  function FiltersFrom(pairs: seq<Param>): JobFilters {
    JobFilters(Lookup(pairs, TitleKey), Lookup(pairs, LocationKey), ParseBool(Lookup(pairs, RemoteKey)),
               ParseNumber(Lookup(pairs, PageKey)), ParseNumber(Lookup(pairs, SizeKey)))
  }

  /** The filters with the empty strings dropped, as the service drops them. */
  function Normalized(f: JobFilters): (g: JobFilters)
    ensures g.title.Some? ==> g.title.value != ""
    ensures g.location.Some? ==> g.location.value != ""
  {
    f.(title := if f.title == Some("") then None else f.title,
       location := if f.location == Some("") then None else f.location)
  }

  /** A key's position in the fixed order. */
  function Rank(k: Key): (n: nat)
    ensures n < 5 && KeyAt(n) == k
  {
    match k
    case TitleKey => 0
    case LocationKey => 1
    case RemoteKey => 2
    case PageKey => 3
    case SizeKey => 4
  }

  /** The segments of the keys from position `n` of the order on. */
  function SegmentsFrom(f: JobFilters, n: nat): (pairs: seq<Param>)
    requires n <= 5
    ensures forall i | 0 <= i < |pairs| :: n <= Rank(pairs[i].key)
    decreases 5 - n
  {
    if n == 5 then [] else Segment(f, KeyAt(n)) + SegmentsFrom(f, n + 1)
  }

  lemma PairsAreSegments(f: JobFilters)
    ensures ParamPairs(f) == SegmentsFrom(f, 0)
  {
    var t, l, r, p, z := Segment(f, TitleKey), Segment(f, LocationKey), Segment(f, RemoteKey),
                         Segment(f, PageKey), Segment(f, SizeKey);
    assert SegmentsFrom(f, 4) == z + SegmentsFrom(f, 5) == z;
    assert SegmentsFrom(f, 3) == p + z;
    assert SegmentsFrom(f, 2) == r + (p + z);
    assert SegmentsFrom(f, 1) == l + (r + (p + z));
    assert SegmentsFrom(f, 0) == t + (l + (r + (p + z)));
    Assoc(t + l + r, p, z);
    Assoc(t + l, r, p + z);
    Assoc(t, l, r + (p + z));
  }

  lemma Assoc(a: seq<Param>, b: seq<Param>, c: seq<Param>)
    ensures a + b + c == a + (b + c)
  {
  }

  /** Looking a key up finds exactly what its own segment holds. */
  lemma {:induction false} LookupSegments(f: JobFilters, n: nat, key: Key)
    requires n <= Rank(key)
    ensures Lookup(SegmentsFrom(f, n), key) == FilterValue(f, key)
    decreases 5 - n
  {
    var seg := Segment(f, KeyAt(n));
    var rest := SegmentsFrom(f, n + 1);
    assert SegmentsFrom(f, n) == seg + rest;
    if n == Rank(key) {
      LookupHead(seg, rest, key);
    } else {
      LookupSkip(seg, rest, key);
      LookupSegments(f, n + 1, key);
    }
  }

  /** Looking up one of the five keys finds the value its filter contributes. */
  lemma LookupParam(f: JobFilters, key: Key)
    ensures Lookup(ParamPairs(f), key) == FilterValue(f, key)
  {
    PairsAreSegments(f);
    LookupSegments(f, 0, key);
  }

  lemma ReadsNumber(n: Option<int>)
    ensures ParseNumber(if n.Some? then Some(IntToString(n.value)) else None) == n
  {
    if n.Some? { IntRoundTrip(n.value); }
  }

  /** Reading the query back gives the filters, except that an empty title or location
      is lost: remote false, page 0 and size 0 all survive. */
  lemma ParamsRoundTrip(f: JobFilters)
    ensures FiltersFrom(ParamPairs(f)) == Normalized(f)
  {
    LookupParam(f, TitleKey);
    LookupParam(f, LocationKey);
    LookupParam(f, RemoteKey);
    LookupParam(f, PageKey);
    LookupParam(f, SizeKey);
    ReadsNumber(f.page);
    ReadsNumber(f.size);
  }

  predicate InKeyOrder(pairs: seq<Param>) {
    forall i, j | 0 <= i < j < |pairs| :: Rank(pairs[i].key) < Rank(pairs[j].key)
  }

  /** At most one pair of rank `n` in front of pairs of higher rank keeps the order. */
  lemma PrependInKeyOrder(seg: seq<Param>, rest: seq<Param>, n: nat)
    requires |seg| <= 1 && forall i | 0 <= i < |seg| :: Rank(seg[i].key) == n
    requires forall i | 0 <= i < |rest| :: n < Rank(rest[i].key)
    requires InKeyOrder(rest)
    ensures InKeyOrder(seg + rest)
  {
    var all := seg + rest;
    forall i, j | 0 <= i < j < |all|
      ensures Rank(all[i].key) < Rank(all[j].key)
    {
      assert all[j] == rest[j - |seg|];
      if i >= |seg| {
        assert all[i] == rest[i - |seg|];
      }
    }
  }

  /** The keys come out in the fixed order, each at most once. */
  lemma {:induction false} SegmentsInKeyOrder(f: JobFilters, n: nat)
    requires n <= 5
    ensures InKeyOrder(SegmentsFrom(f, n))
    decreases 5 - n
  {
    if n < 5 {
      SegmentsInKeyOrder(f, n + 1);
      PrependInKeyOrder(Segment(f, KeyAt(n)), SegmentsFrom(f, n + 1), n);
    }
  }

  lemma ParamsInKeyOrder(f: JobFilters)
    ensures InKeyOrder(ParamPairs(f))
  {
    PairsAreSegments(f);
    SegmentsInKeyOrder(f, 0);
  }

  /** No filters give an empty query. */
  lemma NoFiltersNoQuery()
    ensures ParamPairs(NoFilters) == [] && QueryString(ParamPairs(NoFilters)) == ""
  {
  }
}
