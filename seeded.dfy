/** What the handlers return once `POST /api/seed` has run on a fresh
    database: the facts that tie the fixed list of speakers to the queries
    and to the page's filters. */
module Seeded {
  import opened Speakers
  import Fixture
  import FixtureKeys
  import Store
  import Queries
  import Page

  /** The table after one seed of an empty database. */
  function AfterSeed(): Store.Table
  {
    Store.SeedAll(Store.Empty, Fixture.Records())
  }

  /** Every record is inserted, in the order of the list, under the ids
      1 to 38, and the table satisfies the schema's constraints. */
  lemma SeededRows()
    ensures Store.Valid(AfterSeed())
    ensures |AfterSeed().rows| == 38 && AfterSeed().nextId == 39
    ensures forall k :: 0 <= k < 38 ==> AfterSeed().rows[k] == RowOf(k + 1, Fixture.Records()[k])
  {
    Fixture.RecordsLength();
    FixtureKeys.RecordsDistinctKeys();
    Store.SeedEmpty(Fixture.Records());
  }

  /** A second seed inserts nothing although it reports 38 again; its 38
      ignored statements only move the counter on. */
  lemma ReseedChangesNothing()
    ensures Store.SeedAll(AfterSeed(), Fixture.Records()).rows == AfterSeed().rows
    ensures Store.SeedAll(AfterSeed(), Fixture.Records()).nextId == 77
  {
    Fixture.RecordsLength();
    Store.SeedIdempotent(Store.Empty, Fixture.Records());
  }

  /** The listing of the seeded table reports all 38 speakers. */
  lemma SeededListing()
    ensures Queries.ListSpeakers(AfterSeed()).total == 38
  {
    SeededRows();
  }

  /** Looking up a seeded slug finds that record's row. */
  lemma SeededLookup(k: int)
    requires 0 <= k < 38
    ensures Queries.GetSpeaker(AfterSeed(), Fixture.Records()[k].slug) == Queries.GetOk(RowOf(k + 1, Fixture.Records()[k]))
  {
    SeededRows();
    Queries.GetSpeakerIsTheRow(AfterSeed(), Fixture.Records()[k].slug, k);
  }

  /** The first record, looked up by its slug. */
  lemma GenslerLookup()
    ensures Queries.GetSpeaker(AfterSeed(), "gary-scott-gensler").GetOk?
    ensures Queries.GetSpeaker(AfterSeed(), "gary-scott-gensler").data.id == 1
    ensures Queries.GetSpeaker(AfterSeed(), "gary-scott-gensler").data.organization == Some("MIT Sloan")
  {
    Fixture.FirstRecord();
    SeededLookup(0);
  }

  /** Over the table's rows in insertion order, 'closed' keeps exactly the
      three closed-door speakers, and 'public' the other 35. */
  lemma SeededClosedDoor()
    ensures |AfterSeed().rows| == 38
    ensures Page.Base(AfterSeed().rows, Page.Closed) == AfterSeed().rows[4..7]
    ensures |Page.Base(AfterSeed().rows, Page.Public)| == 35
  {
    SeededRows();
    Fixture.ClosedDoorRecords();
    var rows := AfterSeed().rows;
    forall i | 0 <= i < |rows| ensures rows[i].isClosedDoor <==> 4 <= i < 7 {
      assert rows[i].isClosedDoor == Fixture.Records()[i].isClosedDoor;
    }
    Page.ClosedRun(rows, 4, 7);
  }

  /** What the page filters is the name-ordered listing it caches: there
      'closed' shows the same three closed-door speakers (in name order)
      and 'public' the other 35. */
  lemma SeededListingClosedDoor()
    ensures |AfterSeed().rows| == 38
    ensures multiset(Page.Base(Queries.ListSpeakers(AfterSeed()).data, Page.Closed)) == multiset(AfterSeed().rows[4..7])
    ensures |Page.Base(Queries.ListSpeakers(AfterSeed()).data, Page.Public)| == 35
  {
    SeededClosedDoor();
    var listing := Queries.ListSpeakers(AfterSeed()).data;
    Page.BaseOfPermutation(listing, AfterSeed().rows, Page.Closed);
    Page.BaseOfPermutation(listing, AfterSeed().rows, Page.Public);
  }
}
