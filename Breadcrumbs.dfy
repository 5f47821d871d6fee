/** The root app's breadcrumb trail: one item per non-empty path segment, each
    navigating to the path up to and including its segment. */
module Breadcrumbs {
  import opened Wrappers
  import opened Text
  import opened Lists

  /** `filter(x => x)` on strings: the empty pieces are dropped, the rest kept in order. */
  function DropEmpty(pieces: seq<string>): (r: seq<string>)
    ensures |r| <= |pieces|
    ensures forall i | 0 <= i < |r| :: r[i] != [] && r[i] in pieces
    ensures forall i | 0 <= i < |pieces| :: pieces[i] != [] ==> pieces[i] in r
    decreases |pieces|
  {
    if pieces == [] then []
    else if pieces[0] == [] then DropEmpty(pieces[1..])
    else [pieces[0]] + DropEmpty(pieces[1..])
  }

  /** The segments of a path: split on '/', empty pieces dropped. */
  function Segments(pathname: string): (segs: seq<string>)
    ensures forall i | 0 <= i < |segs| :: segs[i] != [] && '/' !in segs[i]
  {
    DropEmpty(Split(pathname, '/'))
  }

  function Itself(s: string): string { s }

  /** `filter(x => x)` is the list filter that drops the elements equal to the empty
      string: it keeps the non-empty pieces in their order, each as often as it occurs. */
  lemma {:induction false} DropEmptyFilters(pieces: seq<string>, x: string)
    ensures DropEmpty(pieces) == RemoveAll(pieces, Itself, [])
    ensures IsSubsequence(DropEmpty(pieces), pieces)
    ensures x != [] ==> multiset(DropEmpty(pieces))[x] == multiset(pieces)[x]
    decreases |pieces|
  {
    if pieces != [] {
      DropEmptyFilters(pieces[1..], x);
    }
    RemoveAllKeepsOrder(pieces, Itself, []);
    if x != [] {
      RemoveAllKeepsCount(pieces, Itself, [], x);
    }
  }

  /** The segments of a path are the non-empty pieces between its slashes, in order and
      with their repetitions, and the segments on both sides of a slash are
      those of each side: runs of slashes never produce a segment. */
  lemma SegmentsArePieces(pathname: string, x: string, a: string, b: string)
    ensures IsSubsequence(Segments(pathname), Split(pathname, '/'))
    ensures x != [] ==> multiset(Segments(pathname))[x] == multiset(Split(pathname, '/'))[x]
    ensures Segments(a + "/" + b) == Segments(a) + Segments(b)
  {
    DropEmptyFilters(Split(pathname, '/'), x);
    assert a + "/" + b == a + ['/'] + b;
    SplitConcat(a, b, '/');
    DropEmptyFilters(Split(a, '/'), x);
    DropEmptyFilters(Split(b, '/'), x);
    DropEmptyFilters(Split(a, '/') + Split(b, '/'), x);
    RemoveAllConcat(Split(a, '/'), Split(b, '/'), Itself, []);
  }

  lemma {:induction false} DropEmptyKeepsNonEmpty(pieces: seq<string>)
    requires forall i | 0 <= i < |pieces| :: pieces[i] != []
    ensures DropEmpty(pieces) == pieces
    decreases |pieces|
  {
    if pieces != [] {
      DropEmptyKeepsNonEmpty(pieces[1..]);
      assert [pieces[0]] + pieces[1..] == pieces;
    }
  }

  /** The path item `i` navigates to: a slash, then the first i+1 segments joined by '/'. */
  function ItemPath(segs: seq<string>, i: nat): string
    requires i < |segs|
  {
    "/" + Join(segs[..i + 1], "/")
  }

  /** The fixed label table. */
  function TableLabel(segment: string): Option<string> {
    if segment == "candidate" then Some("Candidato")
    else if segment == "employer" then Some("Empregador")
    else if segment == "admin" then Some("Admin")
    else if segment == "dashboard" then Some("Dashboard")
    else if segment == "jobs" then Some("Vagas")
    else if segment == "applications" then Some("Candidaturas")
    else if segment == "profile" then Some("Perfil")
    else if segment == "company" then Some("Empresa")
    else if segment == "new" then Some("Nova")
    else if segment == "edit" then Some("Editar")
    else None
  }

  /** The table's label when it has one (none is empty, so the fallback never replaces
      one); otherwise the segment with its first letter upper-cased. */
  function Label(segment: string): (text: string)
    requires segment != []
    ensures TableLabel(segment).Some? ==> text == TableLabel(segment).value
    ensures TableLabel(segment).None? ==>
      |text| == |segment| && text[0] == UpperAscii(segment[0]) && text[1..] == segment[1..]
  {
    match TableLabel(segment)
    case Some(l) => l
    case None => [UpperAscii(segment[0])] + segment[1..]
  }

  datatype Item = Item(caption: string, path: string)

  function Items(segs: seq<string>): (items: seq<Item>)
    requires forall i | 0 <= i < |segs| :: segs[i] != []
    ensures |items| == |segs|
    ensures forall i | 0 <= i < |segs| :: items[i] == Item(Label(segs[i]), ItemPath(segs, i))
  {
    seq(|segs|, i requires 0 <= i < |segs| => Item(Label(segs[i]), ItemPath(segs, i)))
  }

  /** Where the trail's home icon navigates. */
  const HomePath := "/"

  /** A rendered trail: the home icon's target and the segment items after it. */
  datatype Trail = Trail(home: string, items: seq<Item>)

  /** The rendered trail: nothing for exactly '/', '/login' and '/register', and
      otherwise the home icon (navigating to '/') and one item per segment. */
  function Breadcrumbs(pathname: string): (r: Option<Trail>)
    ensures r.None? <==> pathname in {"/", "/login", "/register"}
    ensures r.Some? ==> r.value.home == "/" && |r.value.items| == |Segments(pathname)|
  {
    if pathname == "/" || pathname == "/login" || pathname == "/register" then None
    else Some(Trail(HomePath, Items(Segments(pathname))))
  }

  /** Only the exact strings hide the trail: '/login/' shows it, with one item. */
  lemma TrailingSlashShows()
    ensures Breadcrumbs("/login/").Some?
    ensures Segments("/login/") == ["login"]
  {
    assert Split("/", '/') == ["", ""];
    SplitAtFirst("login", "", '/');
    assert "login" + ['/'] + "" == "login/";
    assert Split("/login/", '/') == ["", "login", ""];
  }

  /** Item i's path, split into segments again, gives back the first i+1 segments. */
  lemma {:induction false} ItemPathRoundTrip(segs: seq<string>, i: nat)
    requires i < |segs|
    requires forall k | 0 <= k < |segs| :: segs[k] != [] && '/' !in segs[k]
    ensures Segments(ItemPath(segs, i)) == segs[..i + 1]
  {
    var prefix := segs[..i + 1];
    SplitJoin(prefix, '/');
    var joined := Join(prefix, "/");
    assert ItemPath(segs, i) == [] + ['/'] + joined;
    SplitAtFirst([], joined, '/');
    assert Split(ItemPath(segs, i), '/') == [[]] + prefix;
    assert ([[]] + prefix)[1..] == prefix;
    DropEmptyKeepsNonEmpty(prefix);
  }

  /** Each item's path extends the previous item's path by a slash and its segment. */
  lemma ItemPathsNest(segs: seq<string>, i: nat)
    requires i + 1 < |segs|
    ensures ItemPath(segs, i + 1) == ItemPath(segs, i) + "/" + segs[i + 1]
  {
    assert segs[..i + 2] == segs[..i + 1] + [segs[i + 1]];
    JoinSnoc(segs[..i + 1], segs[i + 1], "/");
  }
}
