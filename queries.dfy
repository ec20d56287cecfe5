/** The two read handlers: `GET /api/speakers` (every row, ascending by
    name, with its count) and `GET /api/speakers/:slug` (the row with that
    slug, or the not-found response). */
module Queries {
  import opened Speakers
  import opened Text
  import Store

  ghost predicate SortedByName(s: seq<Speaker>)
  {
    forall i, j :: 0 <= i < j < |s| ==> NameLe(s[i].name, s[j].name)
  }

  lemma SortedPrepend(h: Speaker, s: seq<Speaker>)
    requires SortedByName(s)
    requires forall j :: 0 <= j < |s| ==> NameLe(h.name, s[j].name)
    ensures SortedByName([h] + s)
  {
    var r := [h] + s;
    forall i, j | 0 <= i < j < |r| ensures NameLe(r[i].name, r[j].name) {
      if i > 0 { assert r[i] == s[i - 1] && r[j] == s[j - 1]; }
    }
  }

  /** `h`, which is below the head of the sorted `s`, is below all of `s`. */
  lemma BelowHead(h: Speaker, s: seq<Speaker>)
    requires SortedByName(s) && s != [] && NameLe(h.name, s[0].name)
    ensures forall j :: 0 <= j < |s| ==> NameLe(h.name, s[j].name)
  {
    forall j | 0 <= j < |s| ensures NameLe(h.name, s[j].name) {
      if j > 0 { NameLeTransitive(h.name, s[0].name, s[j].name); }
    }
  }

  /** A head that is below every element of `s` and below `x` stays below
      everything once `x` has been placed among `s`. */
  lemma BelowAll(h: Speaker, x: Speaker, s: seq<Speaker>, r: seq<Speaker>)
    requires forall j :: 0 <= j < |s| ==> NameLe(h.name, s[j].name)
    requires NameLe(h.name, x.name)
    requires multiset(r) == multiset(s) + multiset{x}
    ensures forall j :: 0 <= j < |r| ==> NameLe(h.name, r[j].name)
  {
    forall j | 0 <= j < |r| ensures NameLe(h.name, r[j].name) {
      assert r[j] in multiset(r);
      if r[j] != x {
        assert r[j] in multiset(s);
        var k :| 0 <= k < |s| && s[k] == r[j];
      }
    }
  }

  /** One step of the sort: place `x` in the sorted `s`. */
  function InsertByName(x: Speaker, s: seq<Speaker>): (r: seq<Speaker>)
    requires SortedByName(s)
    ensures SortedByName(r)
    ensures multiset(r) == multiset(s) + multiset{x}
    decreases |s|
  {
    if s == [] then [x]
    else if NameLe(x.name, s[0].name) then
      BelowHead(x, s);
      SortedPrepend(x, s);
      [x] + s
    else
      var rest := InsertByName(x, s[1..]);
      InsertBehindHead(x, s, rest);
      [s[0]] + rest
  }

  /** The step of `InsertByName` that keeps the head of `s` in front. */
  lemma InsertBehindHead(x: Speaker, s: seq<Speaker>, rest: seq<Speaker>)
    requires SortedByName(s) && s != [] && !NameLe(x.name, s[0].name)
    requires SortedByName(rest) && multiset(rest) == multiset(s[1..]) + multiset{x}
    ensures SortedByName([s[0]] + rest)
    ensures multiset([s[0]] + rest) == multiset(s) + multiset{x}
  {
    NameLeTotal(x.name, s[0].name);
    assert s == [s[0]] + s[1..];
    assert forall j :: 0 <= j < |s[1..]| ==> NameLe(s[0].name, s[1..][j].name);
    BelowAll(s[0], x, s[1..], rest);
    SortedPrepend(s[0], rest);
  }

  /** `ORDER BY name ASC`: the same rows, rearranged into ascending order. */
  function SortByName(s: seq<Speaker>): (r: seq<Speaker>)
    ensures SortedByName(r)
    ensures multiset(r) == multiset(s)
    ensures |r| == |s|
    decreases |s|
  {
    if s == [] then []
    else
      var r := InsertByName(s[0], SortByName(s[1..]));
      assert s == [s[0]] + s[1..];
      assert |r| == |multiset(r)|;
      r
  }

  datatype ListResponse = ListOk(data: seq<Speaker>, total: nat) | ListError(status: nat, error: string)

  /** The response of the handler when the store throws (its JSON body
      carries `data: []` and `total: 0` besides the message). */
  const ListFailure := ListError(500, "Failed to fetch speakers")

  /** `GET /api/speakers`: success, every row of the table exactly once,
      ascending by name, and `total` equal to the length of `data`. */
  function ListSpeakers(t: Store.Table): (r: ListResponse)
    ensures r.ListOk?
    ensures r.total == |r.data| == |t.rows|
    ensures SortedByName(r.data)
    ensures multiset(r.data) == multiset(t.rows)
  {
    var data := SortByName(t.rows);
    ListOk(data, |data|)
  }

  /** Under the UNIQUE name constraint the listing is strictly ascending. */
  lemma ListStrictlyAscending(t: Store.Table)
    requires Store.UniqueNames(t.rows)
    ensures forall i, j :: 0 <= i < j < |ListSpeakers(t).data| ==>
      NameLe(ListSpeakers(t).data[i].name, ListSpeakers(t).data[j].name) &&
      ListSpeakers(t).data[i].name != ListSpeakers(t).data[j].name
  {
    var d := ListSpeakers(t).data;
    forall i, j | 0 <= i < j < |d| ensures d[i].name != d[j].name {
      if d[i].name == d[j].name {
        assert d[i] in multiset(t.rows) && d[j] in multiset(t.rows);
        var a :| 0 <= a < |t.rows| && t.rows[a] == d[i];
        var b :| 0 <= b < |t.rows| && t.rows[b] == d[j];
        if a == b {
          MultisetTwoCopies(d, i, j);
          OccursOnce(t.rows, a);
        }
      }
    }
  }

  /** Two positions holding the same value mean two copies in the multiset,
      so a value that occurs once in the table occurs once in the listing. */
  lemma MultisetTwoCopies(d: seq<Speaker>, i: int, j: int)
    requires 0 <= i < j < |d| && d[i] == d[j]
    ensures multiset(d)[d[i]] >= 2
  {
    assert d == d[..j] + d[j..];
    assert d[i] in multiset(d[..j]);
    assert d[j..] == [d[j]] + d[j + 1..];
  }

  /** A row of a table with unique names occurs in it once. */
  lemma {:induction false} OccursOnce(rows: seq<Speaker>, a: int)
    requires Store.UniqueNames(rows) && 0 <= a < |rows|
    ensures multiset(rows)[rows[a]] == 1
    decreases |rows|
  {
    var x := rows[a];
    assert rows == [rows[0]] + rows[1..];
    assert Store.UniqueNames(rows[1..]);
    if a == 0 {
      assert x !in rows[1..];
    } else {
      OccursOnce(rows[1..], a - 1);
      assert rows[0] != x;
    }
  }

  datatype GetResponse = GetOk(data: Speaker) | GetError(status: nat, error: string)

  /** `SELECT * FROM speakers WHERE slug = ?` with `.first()`: the first
      matching row in table order, if any. */
  function FirstWithSlug(rows: seq<Speaker>, slug: string): (r: Option<Speaker>)
    ensures r.Some? ==> r.value in rows && r.value.slug == slug
    ensures r.None? ==> forall i :: 0 <= i < |rows| ==> rows[i].slug != slug
    decreases |rows|
  {
    if rows == [] then None
    else if rows[0].slug == slug then Some(rows[0])
    else FirstWithSlug(rows[1..], slug)
  }

  /** `GET /api/speakers/:slug`: the row whose slug is the argument, or the
      404 response when no row has it. */
  function GetSpeaker(t: Store.Table, slug: string): (r: GetResponse)
    ensures r.GetOk? ==> r.data in t.rows && r.data.slug == slug
    ensures r.GetError? <==> forall i :: 0 <= i < |t.rows| ==> t.rows[i].slug != slug
    ensures r.GetError? ==> r == GetError(404, "Speaker not found")
  {
    match FirstWithSlug(t.rows, slug)
    case Some(s) => GetOk(s)
    case None => GetError(404, "Speaker not found")
  }

  /** With unique slugs there is nothing to choose between: a row with the
      requested slug is the one the lookup returns. */
  lemma GetSpeakerIsTheRow(t: Store.Table, slug: string, i: int)
    requires Store.UniqueSlugs(t.rows)
    requires 0 <= i < |t.rows| && t.rows[i].slug == slug
    ensures GetSpeaker(t, slug) == GetOk(t.rows[i])
  {
    var r := GetSpeaker(t, slug);
    var k :| 0 <= k < |t.rows| && t.rows[k] == r.data;
  }

}
