/** The `speakers` table: rows in insertion order plus the AUTOINCREMENT
    counter, its UNIQUE constraints on `name` and `slug`, the
    `INSERT OR IGNORE` statement and the seed handler's loop. */
module Store {
  import opened Speakers
  import Fixture

  datatype Table = Table(rows: seq<Speaker>, nextId: nat)

  /** The table right after `CREATE TABLE IF NOT EXISTS`: empty, ids start at 1. */
  const Empty := Table([], 1)

  ghost predicate UniqueNames(rows: seq<Speaker>)
  {
    forall i, j :: 0 <= i < j < |rows| ==> rows[i].name != rows[j].name
  }

  ghost predicate UniqueSlugs(rows: seq<Speaker>)
  {
    forall i, j :: 0 <= i < j < |rows| ==> rows[i].slug != rows[j].slug
  }

  /** The schema's constraints: UNIQUE name, UNIQUE slug, and an integer
      primary key that is below the AUTOINCREMENT counter (hence unique). */
  ghost predicate Valid(t: Table)
  {
    && UniqueNames(t.rows)
    && UniqueSlugs(t.rows)
    && 1 <= t.nextId
    && (forall i :: 0 <= i < |t.rows| ==> 1 <= t.rows[i].id < t.nextId)
    && (forall i, j :: 0 <= i < j < |t.rows| ==> t.rows[i].id < t.rows[j].id)
  }

  /** Some row already holds the name or the slug of `e`. On rows that
      satisfy both UNIQUE constraints this is exactly the case in which
      appending the row of `e` would break one of them (the id plays no part
      in either constraint; 0 stands for any). */
  predicate Conflicts(rows: seq<Speaker>, e: Entry)
    ensures UniqueNames(rows) && UniqueSlugs(rows) ==>
      (Conflicts(rows, e) <==> !(UniqueNames(rows + [RowOf(0, e)]) && UniqueSlugs(rows + [RowOf(0, e)])))
  {
    TakenIffDuplicate(rows, e);
    exists i :: 0 <= i < |rows| && (rows[i].name == e.name || rows[i].slug == e.slug)
  }

  /** The contract of `Conflicts`, stated on its body. */
  lemma TakenIffDuplicate(rows: seq<Speaker>, e: Entry)
    ensures UniqueNames(rows) && UniqueSlugs(rows) ==>
      ((exists i :: 0 <= i < |rows| && (rows[i].name == e.name || rows[i].slug == e.slug)) <==>
       !(UniqueNames(rows + [RowOf(0, e)]) && UniqueSlugs(rows + [RowOf(0, e)])))
  {
    var more := rows + [RowOf(0, e)];
    if UniqueNames(rows) && UniqueSlugs(rows) {
      if exists i :: 0 <= i < |rows| && (rows[i].name == e.name || rows[i].slug == e.slug) {
        var i :| 0 <= i < |rows| && (rows[i].name == e.name || rows[i].slug == e.slug);
        assert more[i] == rows[i] && more[|rows|] == RowOf(0, e);
      }
      if !UniqueNames(more) {
        var i, j :| 0 <= i < j < |more| && more[i].name == more[j].name;
        assert more[i] == rows[i];
      }
      if !UniqueSlugs(more) {
        var i, j :| 0 <= i < j < |more| && more[i].slug == more[j].slug;
        assert more[i] == rows[i];
      }
    }
  }

  /** `INSERT OR IGNORE`: the statement takes the next id; a conflicting
      row is then dropped, otherwise it is appended under that id. */
  function Insert(t: Table, e: Entry): (r: Table)
    ensures Valid(t) ==> Valid(r)
    ensures r.nextId == t.nextId + 1
    ensures |t.rows| <= |r.rows| <= |t.rows| + 1 && r.rows[..|t.rows|] == t.rows
    ensures Conflicts(t.rows, e) <==> r.rows == t.rows
    ensures !Conflicts(t.rows, e) ==> |r.rows| == |t.rows| + 1 && r.rows[|t.rows|] == RowOf(t.nextId, e)
    ensures Conflicts(r.rows, e)
  {
    if Conflicts(t.rows, e) then Table(t.rows, t.nextId + 1)
    else
      var r := Table(t.rows + [RowOf(t.nextId, e)], t.nextId + 1);
      assert r.rows[|t.rows|].name == e.name;
      r
  }

  /** The state after inserting every entry of `es`, in order: each
      statement takes one id, whether or not it adds a row. */
  function SeedAll(t: Table, es: seq<Entry>): (r: Table)
    ensures r.nextId == t.nextId + |es|
    decreases |es|
  {
    if es == [] then t else Insert(SeedAll(t, es[..|es| - 1]), es[|es| - 1])
  }

  lemma {:induction false} SeedAllValid(t: Table, es: seq<Entry>)
    requires Valid(t)
    ensures Valid(SeedAll(t, es))
    decreases |es|
  {
    if es != [] { SeedAllValid(t, es[..|es| - 1]); }
  }

  /** Seeding never removes nor changes a row: the old rows are a prefix. */
  lemma {:induction false} SeedAllGrows(t: Table, es: seq<Entry>)
    ensures |t.rows| <= |SeedAll(t, es).rows| <= |t.rows| + |es|
    ensures SeedAll(t, es).rows[..|t.rows|] == t.rows
    decreases |es|
  {
    if es != [] {
      var es' := es[..|es| - 1];
      SeedAllGrows(t, es');
      var mid := SeedAll(t, es');
      assert SeedAll(t, es).rows[..|mid.rows|] == mid.rows;
      assert SeedAll(t, es).rows[..|t.rows|] == mid.rows[..|t.rows|];
    }
  }

  lemma ConflictsPrefix(rows: seq<Speaker>, more: seq<Speaker>, e: Entry)
    requires |rows| <= |more| && more[..|rows|] == rows && Conflicts(rows, e)
    ensures Conflicts(more, e)
  {
    var i :| 0 <= i < |rows| && (rows[i].name == e.name || rows[i].slug == e.slug);
    assert more[i] == rows[i];
  }

  /** After seeding, every entry of `es` is blocked by some row. */
  lemma {:induction false} SeedAllCovers(t: Table, es: seq<Entry>)
    ensures forall k :: 0 <= k < |es| ==> Conflicts(SeedAll(t, es).rows, es[k])
    decreases |es|
  {
    if es != [] {
      var es' := es[..|es| - 1];
      SeedAllCovers(t, es');
      var mid := SeedAll(t, es');
      var after := SeedAll(t, es);
      forall k | 0 <= k < |es| ensures Conflicts(after.rows, es[k]) {
        if k < |es'| {
          assert es[k] == es'[k];
          ConflictsPrefix(mid.rows, after.rows, es[k]);
        }
      }
    }
  }

  /** Entries that are all blocked are all ignored: the rows stay as they
      are (only the counter moves on). */
  lemma {:induction false} SeedAllIgnored(t: Table, es: seq<Entry>)
    requires forall k :: 0 <= k < |es| ==> Conflicts(t.rows, es[k])
    ensures SeedAll(t, es).rows == t.rows
    decreases |es|
  {
    if es != [] { SeedAllIgnored(t, es[..|es| - 1]); }
  }

  /** Running the seed twice leaves the rows that running it once leaves. */
  lemma SeedIdempotent(t: Table, es: seq<Entry>)
    ensures SeedAll(SeedAll(t, es), es).rows == SeedAll(t, es).rows
  {
    SeedAllCovers(t, es);
    SeedAllIgnored(SeedAll(t, es), es);
  }

  /** Entries with distinct keys, none blocked by the table, are all inserted:
      the table gains exactly one row per entry, in order, with ids counting up. */
  lemma {:induction false} SeedAllFresh(t: Table, es: seq<Entry>)
    requires DistinctKeys(es)
    requires forall k :: 0 <= k < |es| ==> !Conflicts(t.rows, es[k])
    ensures SeedAll(t, es).nextId == t.nextId + |es|
    ensures |SeedAll(t, es).rows| == |t.rows| + |es|
    ensures SeedAll(t, es).rows[..|t.rows|] == t.rows
    ensures forall k :: 0 <= k < |es| ==> SeedAll(t, es).rows[|t.rows| + k] == RowOf(t.nextId + k, es[k])
    decreases |es|
  {
    if es != [] {
      var n := |es| - 1;
      var es' := es[..n];
      assert DistinctKeys(es');
      SeedAllFresh(t, es');
      var mid := SeedAll(t, es');
      assert forall k :: 0 <= k < n ==> es'[k] == es[k];
      FreshStep(t, es, mid);
    }
  }

  /** The last step of `SeedAllFresh`: appending the last fresh record to
      the rows of the ones before it. */
  lemma FreshStep(t: Table, es: seq<Entry>, mid: Table)
    requires DistinctKeys(es) && es != []
    requires forall k :: 0 <= k < |es| ==> !Conflicts(t.rows, es[k])
    requires mid.nextId == t.nextId + |es| - 1
    requires |mid.rows| == |t.rows| + |es| - 1 && mid.rows[..|t.rows|] == t.rows
    requires forall k :: 0 <= k < |es| - 1 ==> mid.rows[|t.rows| + k] == RowOf(t.nextId + k, es[k])
    ensures Insert(mid, es[|es| - 1]).nextId == t.nextId + |es|
    ensures |Insert(mid, es[|es| - 1]).rows| == |t.rows| + |es|
    ensures Insert(mid, es[|es| - 1]).rows[..|t.rows|] == t.rows
    ensures forall k :: 0 <= k < |es| ==> Insert(mid, es[|es| - 1]).rows[|t.rows| + k] == RowOf(t.nextId + k, es[k])
  {
    var n := |es| - 1;
    FreshNotBlocked(t, es, mid.rows);
    var after := Insert(mid, es[n]);
    assert after.rows == mid.rows + [RowOf(mid.nextId, es[n])];
    assert after.rows[..|t.rows|] == mid.rows[..|t.rows|];
  }

  /** The last of a list of fresh records is not blocked by the rows that
      the records before it were inserted as. */
  lemma FreshNotBlocked(t: Table, es: seq<Entry>, rows: seq<Speaker>)
    requires DistinctKeys(es) && es != []
    requires forall k :: 0 <= k < |es| ==> !Conflicts(t.rows, es[k])
    requires |rows| == |t.rows| + |es| - 1 && rows[..|t.rows|] == t.rows
    requires forall k :: 0 <= k < |es| - 1 ==> rows[|t.rows| + k] == RowOf(t.nextId + k, es[k])
    ensures !Conflicts(rows, es[|es| - 1])
  {
    var e := es[|es| - 1];
    forall i | 0 <= i < |rows| ensures rows[i].name != e.name && rows[i].slug != e.slug {
      if i < |t.rows| {
        assert rows[i] == t.rows[i];
      } else {
        assert rows[i] == RowOf(t.nextId + (i - |t.rows|), es[i - |t.rows|]);
      }
    }
  }

  /** Seeding an empty table with records whose keys are distinct inserts
      every record, in order, under the ids 1, 2, 3, ... */
  lemma SeedEmpty(es: seq<Entry>)
    requires DistinctKeys(es)
    ensures Valid(SeedAll(Empty, es))
    ensures |SeedAll(Empty, es).rows| == |es| && SeedAll(Empty, es).nextId == |es| + 1
    ensures forall k :: 0 <= k < |es| ==> SeedAll(Empty, es).rows[k] == RowOf(k + 1, es[k])
  {
    SeedAllFresh(Empty, es);
    SeedAllValid(Empty, es);
  }

  /** The status the seed handler reports and the count it writes into its
      message ("Database seeded with N speakers"). */
  datatype SeedResponse = SeedResponse(success: bool, seededCount: nat)

  /** The database binding the handlers share. */
  class SpeakerTable {
    var rows: seq<Speaker>
    var nextId: nat

    function State(): Table
      reads this
    {
      Table(rows, nextId)
    }

    constructor ()
      ensures State() == Empty
    {
      rows, nextId := [], 1;
    }

    /** One `INSERT OR IGNORE INTO speakers ... VALUES (...)` statement. */
    method InsertOrIgnore(e: Entry) returns (inserted: bool)
      modifies this
      ensures State() == Insert(old(State()), e)
      ensures inserted <==> !Conflicts(old(rows), e)
    {
      inserted := !Conflicts(rows, e);
      if inserted {
        rows := rows + [RowOf(nextId, e)];
      }
      nextId := nextId + 1;
    }

    /** The loop of the seed handler: one insert per entry, then a success
        response that reports the length of the list, not the number of
        rows actually inserted. */
    method Seed(entries: seq<Entry>) returns (resp: SeedResponse)
      modifies this
      ensures State() == SeedAll(old(State()), entries)
      ensures resp == SeedResponse(true, |entries|)
    {
      for i := 0 to |entries|
        invariant State() == SeedAll(old(State()), entries[..i])
      {
        var _ := InsertOrIgnore(entries[i]);
        assert entries[..i + 1][..i] == entries[..i];
      }
      assert entries[..|entries|] == entries;
      resp := SeedResponse(true, |entries|);
    }

    /** `POST /api/seed`: the schema initialisation, then the loop over the
        fixed list of speakers. */
    method SeedDatabase() returns (resp: SeedResponse)
      modifies this
      ensures State() == SeedAll(old(State()), Fixture.Records())
      ensures resp == SeedResponse(true, 38)
    {
      Fixture.RecordsLength();
      resp := Seed(Fixture.Records());
    }
  }
}
