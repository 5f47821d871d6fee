/** The text stored in browser storage for structured values. The client writes such
    values with `JSON.stringify` and reads them back with `JSON.parse` inside a
    try/catch. This model replaces JSON by a length-prefixed encoding of string
    fields and proves the one property the client relies on: reading back what was
    written gives the value that was written, and text that is not an encoding reads
    as a parse failure (None). */
module Codec {
  import opened Wrappers
  import opened Text
  import opened Entities

  /** A header "<n>:" announcing a count or a length. */
  function Header(n: nat): string { NatToString(n) + ":" }

  function IndexOf(s: string, c: char): (r: Option<nat>)
    ensures r.Some? ==> r.value < |s| && s[r.value] == c && c !in s[..r.value]
    ensures r.None? ==> c !in s
    decreases |s|
  {
    if s == [] then None
    else if s[0] == c then Some(0)
    else match IndexOf(s[1..], c)
      case None => None
      case Some(k) => assert s[..k + 1] == [s[0]] + s[1..][..k]; Some(k + 1)
  }

  /** Reads a header off the front of `s`: the number and what follows the colon. */
  function ReadHeader(s: string): Option<(nat, string)> {
    match IndexOf(s, ':')
    case None => None
    case Some(k) =>
      if k > 0 && AllDigits(s[..k]) then Some((DigitsValue(s[..k]), s[k + 1..])) else None
  }

  lemma {:induction false} IndexOfAfter(a: string, b: string, c: char)
    requires c !in a
    ensures IndexOf(a + [c] + b, c) == Some(|a|)
    decreases |a|
  {
    if a != [] {
      assert (a + [c] + b)[1..] == a[1..] + [c] + b;
      IndexOfAfter(a[1..], b, c);
    }
  }

  lemma ReadHeaderOf(n: nat, rest: string)
    ensures ReadHeader(Header(n) + rest) == Some((n, rest))
  {
    var d := NatToString(n);
    assert ':' !in d by { assert forall i | 0 <= i < |d| :: IsDigit(d[i]); }
    assert Header(n) + rest == d + [':'] + rest;
    IndexOfAfter(d, rest, ':');
    var s := d + [':'] + rest;
    assert s[..|d|] == d;
    assert s[|d| + 1..] == rest;
    DigitsRoundTrip(n);
  }

  /** Each field as its length header followed by its characters. */
  function EncodeFields(xs: seq<string>): string
    decreases |xs|
  {
    if xs == [] then [] else Header(|xs[0]|) + xs[0] + EncodeFields(xs[1..])
  }

  function DecodeFields(s: string, count: nat): Option<(seq<string>, string)>
    decreases count
  {
    if count == 0 then Some(([], s))
    else match ReadHeader(s)
      case None => None
      case Some((n, r)) =>
        if n <= |r| then
          match DecodeFields(r[n..], count - 1)
          case None => None
          case Some((xs, rest)) => Some(([r[..n]] + xs, rest))
        else None
  }

  lemma {:induction false} FieldsRoundTrip(xs: seq<string>, rest: string)
    ensures DecodeFields(EncodeFields(xs) + rest, |xs|) == Some((xs, rest))
    decreases |xs|
  {
    if xs != [] {
      var tail := EncodeFields(xs[1..]) + rest;
      assert EncodeFields(xs) + rest == Header(|xs[0]|) + (xs[0] + tail);
      ReadHeaderOf(|xs[0]|, xs[0] + tail);
      assert (xs[0] + tail)[..|xs[0]|] == xs[0];
      assert (xs[0] + tail)[|xs[0]|..] == tail;
      FieldsRoundTrip(xs[1..], rest);
      assert DecodeFields(tail, |xs| - 1) == Some((xs[1..], rest));
      assert [xs[0]] + xs[1..] == xs;
    } else {
      assert EncodeFields(xs) + rest == rest;
    }
  }

  /** A list of strings: a count header, then the fields. Never the empty string,
      so it is always truthy where the client tests the stored text. */
  function EncodeStrings(xs: seq<string>): (s: string)
    ensures |s| > 0
  {
    Header(|xs|) + EncodeFields(xs)
  }

  function DecodeStrings(s: string): Option<seq<string>> {
    match ReadHeader(s)
    case None => None
    case Some((count, r)) =>
      match DecodeFields(r, count)
      case None => None
      case Some((xs, rest)) => if rest == [] then Some(xs) else None
  }

  /** Reading back a stored list gives the list that was stored. */
  lemma StringsRoundTrip(xs: seq<string>)
    ensures DecodeStrings(EncodeStrings(xs)) == Some(xs)
  {
    ReadHeaderOf(|xs|, EncodeFields(xs));
    FieldsRoundTrip(xs, []);
    assert EncodeFields(xs) + [] == EncodeFields(xs);
  }

  /** The stored form of a user: its id, email and role as three fields. */
  function EncodeUser(u: User): (s: string)
    ensures |s| > 0
  {
    EncodeStrings([IntToString(u.id), u.email, u.role])
  }

  function DecodeUser(s: string): Option<User> {
    match DecodeStrings(s)
    case Some(fields) =>
      if |fields| == 3 then
        match ParseInt(fields[0])
        case Some(id) => Some(User(id, fields[1], fields[2]))
        case None => None
      else None
    case None => None
  }

  lemma UserRoundTrip(u: User)
    ensures DecodeUser(EncodeUser(u)) == Some(u)
  {
    StringsRoundTrip([IntToString(u.id), u.email, u.role]);
    IntRoundTrip(u.id);
  }
}
