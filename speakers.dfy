/** The one entity of the directory, a speaker row, and the order-preserving
    filter that both the store's queries and the page's script apply to
    sequences of rows. */
module Speakers {

  datatype Option<+T> = None | Some(value: T)

  /** A row of the `speakers` table as the API returns it. The optional
      columns are NULL-able; `created_at`/`updated_at` are not modelled. */
  datatype Speaker = Speaker(
    id: nat,
    name: string,
    title: Option<string>,
    organization: Option<string>,
    background: Option<string>,
    isClosedDoor: bool,
    slug: string)

  /** One record of the seed payload: every column but the system-managed ones. */
  datatype Entry = Entry(
    name: string,
    title: string,
    organization: string,
    background: string,
    isClosedDoor: bool,
    slug: string)

  /** The row that an insert of `e` creates under the id `id`: nothing of
      the record is lost, since reading the record back from the row gives
      `e` again. */
  function RowOf(id: nat, e: Entry): (r: Speaker)
    ensures r.id == id && r.name == e.name && r.slug == e.slug
    ensures r.isClosedDoor == e.isClosedDoor
    ensures r.title == Some(e.title) && r.organization == Some(e.organization)
    ensures r.background == Some(e.background)
    ensures EntryOf(r) == Some(e)
  {
    Speaker(id, e.name, Some(e.title), Some(e.organization), Some(e.background), e.isClosedDoor, e.slug)
  }

  /** The seed record a row stores, when none of its optional columns is NULL. */
  function EntryOf(s: Speaker): Option<Entry>
  {
    if s.title.Some? && s.organization.Some? && s.background.Some? then
      Some(Entry(s.name, s.title.value, s.organization.value, s.background.value, s.isClosedDoor, s.slug))
    else None
  }

  /** Two inserts give the same row iff they use the same id and the same
      record. */
  lemma RowOfInjective(id: nat, id': nat, e: Entry, e': Entry)
    ensures RowOf(id, e) == RowOf(id', e') <==> id == id' && e == e'
  {
    if RowOf(id, e) == RowOf(id', e') {
      assert EntryOf(RowOf(id, e)) == EntryOf(RowOf(id', e'));
    }
  }

  /** No two entries share a name, and no two share a slug. */
  ghost predicate DistinctKeys(es: seq<Entry>)
  {
    && (forall i, j :: 0 <= i < j < |es| ==> es[i].name != es[j].name)
    && (forall i, j :: 0 <= i < j < |es| ==> es[i].slug != es[j].slug)
  }

  /** `Array.prototype.filter`: keep, in order, the elements satisfying `p`. */
  function Filter<T>(p: T -> bool, s: seq<T>): (r: seq<T>)
    ensures |r| <= |s|
    ensures forall i :: 0 <= i < |r| ==> p(r[i])
    decreases |s|
  {
    if s == [] then []
    else if p(s[0]) then [s[0]] + Filter(p, s[1..])
    else Filter(p, s[1..])
  }

  /** `r` is `s` with some elements dropped and the rest in their order. */
  ghost predicate Subsequence<T>(r: seq<T>, s: seq<T>)
    decreases |s|
  {
    if r == [] then true
    else if s == [] then false
    else if r[0] == s[0] then Subsequence(r[1..], s[1..])
    else Subsequence(r, s[1..])
  }

  lemma {:induction false} FilterMembers<T>(p: T -> bool, s: seq<T>, x: T)
    ensures x in Filter(p, s) <==> x in s && p(x)
    decreases |s|
  {
    if s != [] {
      FilterMembers(p, s[1..], x);
      assert s == [s[0]] + s[1..];
    }
  }

  lemma {:induction false} FilterKeepsOrder<T>(p: T -> bool, s: seq<T>)
    ensures Subsequence(Filter(p, s), s)
    decreases |s|
  {
    if s != [] {
      FilterKeepsOrder(p, s[1..]);
      var r := Filter(p, s);
      if p(s[0]) {
        assert r[0] == s[0] && r[1..] == Filter(p, s[1..]);
      }
    }
  }

  lemma {:induction false} SubsequenceDropHead<T>(r: seq<T>, s: seq<T>)
    requires r != [] && Subsequence(r, s)
    ensures Subsequence(r[1..], s)
    decreases |s|, 0
  {
    if r[0] != s[0] {
      SubsequenceDropHead(r, s[1..]);
      SubsequenceWeaken(r[1..], s[1..], s[0]);
    } else {
      SubsequenceWeaken(r[1..], s[1..], s[0]);
    }
    assert s == [s[0]] + s[1..];
  }

  /** Putting one more element in front keeps a subsequence a subsequence. */
  lemma {:induction false} SubsequenceWeaken<T>(r: seq<T>, s: seq<T>, x: T)
    requires Subsequence(r, s)
    ensures Subsequence(r, [x] + s)
    decreases |s|, 1
  {
    assert ([x] + s)[1..] == s;
    if r != [] && r[0] == x {
      SubsequenceDropHead(r, s);
    }
  }

  lemma {:induction false} SubsequenceRefl<T>(s: seq<T>)
    ensures Subsequence(s, s)
    decreases |s|
  {
    if s != [] { SubsequenceRefl(s[1..]); }
  }

  lemma {:induction false} SubsequenceTrans<T>(a: seq<T>, b: seq<T>, c: seq<T>)
    requires Subsequence(a, b) && Subsequence(b, c)
    ensures Subsequence(a, c)
    decreases |c|
  {
    if a != [] && b != [] && c != [] {
      if b[0] == c[0] {
        if a[0] == b[0] {
          SubsequenceTrans(a[1..], b[1..], c[1..]);
        } else {
          SubsequenceTrans(a, b[1..], c[1..]);
        }
      } else {
        SubsequenceTrans(a, b, c[1..]);
        if a[0] == c[0] {
          SubsequenceDropHead(a, c[1..]);
        }
      }
    }
  }

  /** The number of copies of `x` the filter keeps: all of them when `x`
      passes, none otherwise. */
  lemma {:induction false} FilterCount<T>(p: T -> bool, s: seq<T>, x: T)
    ensures multiset(Filter(p, s))[x] == if p(x) then multiset(s)[x] else 0
    decreases |s|
  {
    if s != [] {
      FilterCount(p, s[1..], x);
      assert s == [s[0]] + s[1..];
    }
  }

  /** Filtering two orders of the same elements keeps the same elements. */
  lemma FilterPermutation<T>(p: T -> bool, a: seq<T>, b: seq<T>)
    requires multiset(a) == multiset(b)
    ensures multiset(Filter(p, a)) == multiset(Filter(p, b))
  {
    var fa, fb := multiset(Filter(p, a)), multiset(Filter(p, b));
    forall x ensures fa[x] == fb[x] {
      FilterCount(p, a, x);
      FilterCount(p, b, x);
    }
    MultisetExt(fa, fb);
  }

  lemma MultisetExt<T>(fa: multiset<T>, fb: multiset<T>)
    requires forall x :: fa[x] == fb[x]
    ensures fa == fb
  {
  }

  /** The two filters by a predicate and by its negation split the input. */
  lemma {:induction false} FilterPartition<T>(p: T -> bool, q: T -> bool, s: seq<T>)
    requires forall x :: q(x) == !p(x)
    ensures multiset(Filter(p, s)) + multiset(Filter(q, s)) == multiset(s)
    ensures |Filter(p, s)| + |Filter(q, s)| == |s|
    decreases |s|
  {
    if s != [] {
      FilterPartition(p, q, s[1..]);
      assert s == [s[0]] + s[1..];
    }
  }

  /** Filtering a filtered sequence filters by the conjunction. */
  lemma {:induction false} FilterFilter<T>(p: T -> bool, q: T -> bool, pq: T -> bool, s: seq<T>)
    requires forall x :: pq(x) == (p(x) && q(x))
    ensures Filter(q, Filter(p, s)) == Filter(pq, s)
    decreases |s|
  {
    if s != [] {
      FilterFilter(p, q, pq, s[1..]);
    }
  }

  /** A filter that every element passes changes nothing. */
  lemma {:induction false} FilterAll<T>(p: T -> bool, s: seq<T>)
    requires forall i :: 0 <= i < |s| ==> p(s[i])
    ensures Filter(p, s) == s
    decreases |s|
  {
    if s != [] {
      FilterAll(p, s[1..]);
      assert s == [s[0]] + s[1..];
    }
  }

  /** A filter that no element passes leaves nothing. */
  lemma {:induction false} FilterNone<T>(p: T -> bool, s: seq<T>)
    requires forall i :: 0 <= i < |s| ==> !p(s[i])
    ensures Filter(p, s) == []
    decreases |s|
  {
    if s != [] {
      FilterNone(p, s[1..]);
    }
  }

  /** Filtering a concatenation filters each part. */
  lemma {:induction false} FilterAppend<T>(p: T -> bool, a: seq<T>, b: seq<T>)
    ensures Filter(p, a + b) == Filter(p, a) + Filter(p, b)
    decreases |a|
  {
    if a != [] {
      FilterAppend(p, a[1..], b);
      assert a + b == [a[0]] + (a[1..] + b);
    } else {
      assert a + b == b;
    }
  }
}
