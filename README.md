# NEX-T 2025 speaker directory: a Dafny model

The program is a small web application. It keeps a `speakers` table,
fills it from a fixed list of 38 speakers through `POST /api/seed`, and
serves it through `GET /api/speakers` (every row, ascending by name, with
a count) and `GET /api/speakers/:slug` (one row or a 404). It also serves
one page whose script caches the list. The script filters the list by
closed-door status, narrows it with a case-insensitive search, shows
cards or a "no results" panel, and opens a detail overlay.

The model is written in the source's own forms:

- `speakers.dfy` (module `Speakers`): the speaker row, the seed record,
  and `Filter`, the order-preserving filter that `Array.prototype.filter`
  stands for, with its lemmas.
- `text.dfy` (module `Text`): ASCII `toLowerCase`, `includes` (proved
  equal to "occurs at some offset"), and the name order used for
  `ORDER BY name ASC` (proved a total order).
- `store.dfy` (module `Store`): the table as a value (rows in insertion
  order plus the AUTOINCREMENT counter), `INSERT OR IGNORE` as the
  function `Insert`, and the seed loop as `SeedAll`. Every statement takes
  the next id, also when the UNIQUE check then makes it add nothing. The class
  `SpeakerTable` is the shared database binding. Its `InsertOrIgnore`
  method issues one statement. Its `Seed` method is the handler's `for`
  loop, proved against `SeedAll`.
- `fixture.dfy` and `fixture_keys.dfy` (modules `Fixture`, `FixtureKeys`):
  the 38 seed records and the proof that their names and their slugs are
  pairwise distinct. The records are stored column by column: names,
  titles, organizations, backgrounds, closed-door flags and slugs.
  `Records()` puts the `i`-th entry of each column back into the `i`-th
  record. The distinctness proofs then see only the two short key
  columns. They take one lemma per entry, which keeps each string
  comparison small.
- `queries.dfy` (module `Queries`): the list handler (an insertion sort
  proved sorted and a permutation) and the get-by-slug handler.
- `page.dfy` (module `Page`): the filter and search rules as functions
  (`Base`, `Matches`, `Visible`, `Preview`). The class `SpeakerPage`
  holds the script's variables and the visibility of the four panels and
  the overlay. Its methods are `loadSpeakers`, `displaySpeakers`,
  `filterSpeakers`, `searchSpeakers`, `showSpeakerDetail` and
  `closeModal`.
- `seeded.dfy` (module `Seeded`): what the handlers return after one seed
  of an empty database.

The page methods receive the HTTP response that the script awaits as a
parameter (`Queries.ListResponse`, `Queries.GetResponse`). The failure
shape stands for both an error status and a failed request. The four
panels are four booleans, not one state, because `displaySpeakers`
shows and hides the loading, grid and no-results panels but never the
error panel.

Two points where the code does something a reader might not expect are
modelled as the code does them:

- The panels are not always exclusive. After a failed load, a click on a
  filter button shows the no-results panel while the error panel stays
  visible. A search keystroke does the same, since it also ends in
  `displaySpeakers`. `Page.FailedLoadThenFilter` proves that state is
  reachable. Until a filter click or a search keystroke, exactly one panel
  shows.
- A successful load sets `filteredSpeakers` to the whole list, whatever
  the current filter button and search text are.

## Model

| member | source | states |
|---|---|---|
| `Speakers.RowOf` | src/index.tsx:430-440 | the inserted row carries the record's six columns and the id it was given, and reading the record back from the row (`EntryOf`) gives that record again |
| `Speakers.RowOfInjective` | src/index.tsx:430-440 | two inserts store the same row only for the same record under the same id |
| `Speakers.Filter` | src/index.tsx:788-791 | the filtered list is no longer than the input and every element of it satisfies the predicate |
| `Speakers.FilterMembers` | src/index.tsx:788-791 | an element is kept iff it is in the input and satisfies the predicate |
| `Speakers.FilterKeepsOrder` | src/index.tsx:788-791 | the kept elements are a subsequence of the input, so relative order is preserved |
| `Speakers.FilterPartition` | src/index.tsx:788-791 | the filters by a predicate and by its negation together hold every element exactly once |
| `Speakers.FilterFilter` | src/index.tsx:824-829 | filtering a filtered list is filtering by the conjunction |
| `Speakers.FilterAll` | src/index.tsx:821-822 | a filter every element passes returns the input unchanged, which is why the empty-term branch agrees with the search filter |
| `Speakers.FilterNone` | src/index.tsx:788-791 | a filter no element passes returns the empty list |
| `Speakers.FilterAppend` | src/index.tsx:788-791 | filtering a concatenation is the concatenation of the filtered parts |
| `Speakers.FilterPermutation` | src/index.tsx:788-791 | filtering two orders of the same elements keeps the same elements |
| `Text.LowerChar` | src/index.tsx:806 | 'A'..'Z' map to the letter 32 code points up; every other character is unchanged |
| `Text.Lower` | src/index.tsx:806 | the lowered string has the same length, holds no ASCII capital, and keeps every character that is not an ASCII capital |
| `Text.LowerIdempotent` | src/index.tsx:806 | lowering an already lowered term changes nothing |
| `Text.Contains` | src/index.tsx:825-828 | `includes` holds iff the needle occurs as a contiguous block at some offset of the haystack |
| `Text.EmptyContained` | src/index.tsx:821-822 | every string contains the empty term, so the script's separate branch for an empty term agrees with the `includes` filter |
| `Text.NameLeReflexive` | src/index.tsx:65 | every name is ordered before or equal to itself |
| `Text.NameLeTotal` | src/index.tsx:65 | any two names are comparable |
| `Text.NameLeTransitive` | src/index.tsx:65 | the name order is transitive |
| `Text.NameLeAntisymmetric` | src/index.tsx:65 | two names ordered both ways are equal |
| `Store.Conflicts` | src/index.tsx:34-41 | on rows meeting both UNIQUE constraints, a record is blocked iff appending its row would break one of them |
| `Store.Insert` | src/index.tsx:431-440 | `INSERT OR IGNORE` takes the next id in every case; it leaves the rows unchanged iff the name or the slug is taken, and otherwise appends exactly the new row under that id and keeps the old rows; the schema's constraints are preserved; afterwards the record is blocked |
| `Store.SeedAll` | src/index.tsx:429-441 | the seed loop advances the counter by one per record |
| `Store.SeedAllValid` | src/index.tsx:34-41 | any sequence of inserts keeps names unique, slugs unique and ids increasing below the counter |
| `Store.SeedAllGrows` | src/index.tsx:429-441 | the seed loop never removes or changes a row; it adds at most one per record |
| `Store.SeedAllCovers` | src/index.tsx:429-441 | after the loop every record is blocked by some row |
| `Store.SeedAllIgnored` | src/index.tsx:431 | records that are all blocked are all ignored: the rows stay as they are |
| `Store.SeedIdempotent` | src/index.tsx:429-441 | running the seed loop twice leaves the rows that running it once leaves |
| `Store.SeedAllFresh` | src/index.tsx:429-441 | records with distinct keys, none already present, are all inserted in order under consecutive ids |
| `Store.FreshNotBlocked` | src/index.tsx:431 | the last of a list of fresh records is not blocked by the rows inserted for the ones before it |
| `Store.FreshStep` | src/index.tsx:429-441 | inserting that last record appends it under the next id, after the rows of the ones before it |
| `Store.SeedEmpty` | src/index.tsx:429-441 | seeding an empty table with records whose keys are distinct inserts every record in order under ids 1, 2, 3, ... and satisfies the schema's constraints |
| `Store.ConflictsPrefix` | src/index.tsx:431 | a record blocked by some rows stays blocked when rows are added after them |
| `Store.SpeakerTable.constructor` | src/index.tsx:32-45 | a freshly created table is empty and its ids start at 1 |
| `Store.SpeakerTable.InsertOrIgnore` | src/index.tsx:430-440 | one statement changes the table as `Insert` does, counter included, and reports whether a row was added |
| `Store.SpeakerTable.Seed` | src/index.tsx:429-446 | the loop leaves the table `SeedAll` computes and reports success with the length of the list, not the number inserted |
| `Store.SpeakerTable.SeedDatabase` | src/index.tsx:116-446 | the seed handler runs the loop over the fixed list and reports 38 |
| `Fixture.RecordsLength` | src/index.tsx:121-426 | the fixed list has 38 records |
| `Fixture.ClosedDoorRecords` | src/index.tsx:155-176 | exactly the fifth, sixth and seventh records are closed-door |
| `Fixture.RecordsKeys` | src/index.tsx:121-426 | each record's name and slug are the corresponding entries of the key columns |
| `Fixture.ClosedDoorColumn` | src/index.tsx:155-176 | exactly the fifth, sixth and seventh `is_closed_door` flags of the list are set |
| `Fixture.FirstRecord` | src/index.tsx:122-129 | the first record is "gary-scott-gensler", organization "MIT Sloan" |
| `FixtureKeys.NamesDistinct` | src/index.tsx:121-426 | no two records of the list share a name |
| `FixtureKeys.SlugsDistinct` | src/index.tsx:121-426 | no two records of the list share a slug |
| `FixtureKeys.RecordsDistinctKeys` | src/index.tsx:121-426 | no two records share a name and no two share a slug |
| `Queries.InsertByName` | src/index.tsx:65 | placing one row in a sorted list keeps it sorted and adds exactly that row |
| `Queries.SortByName` | src/index.tsx:65 | the sorted rows are ascending by name and a permutation of the input |
| `Queries.ListSpeakers` | src/index.tsx:59-72 | the listing succeeds, holds every row exactly once, ascending by name, with `total` equal to the length of `data` |
| `Queries.ListStrictlyAscending` | src/index.tsx:64-66 | with unique names the listing is strictly ascending |
| `Queries.OccursOnce` | src/index.tsx:36 | a row of a table with unique names occurs once in it |
| `Queries.FirstWithSlug` | src/index.tsx:91-93 | `.first()` returns a row of the table with the slug, or nothing when no row has it |
| `Queries.GetSpeaker` | src/index.tsx:85-100 | a success returns a row of the table with the requested slug; the 404 "Speaker not found" result comes back iff no row has that slug |
| `Queries.GetSpeakerIsTheRow` | src/index.tsx:91-100 | with unique slugs the lookup returns exactly the row that has the slug |
| `Page.Base` | src/index.tsx:783-793 | the filter's part of the cached list is no longer than it, and the filter admits each of its members |
| `Page.BaseMembers` | src/index.tsx:783-793 | 'all' keeps every cached speaker, 'public' exactly those not closed-door, 'closed' exactly the closed-door ones |
| `Page.PublicClosedPartition` | src/index.tsx:787-792 | 'public' and 'closed' split the cached list between them |
| `Page.BaseOfPermutation` | src/index.tsx:783-793 | each filter keeps the same speakers, as many of them, from any order of the same cached speakers |
| `Page.ClosedRun` | src/index.tsx:790-792 | when the closed-door rows form one run, 'closed' shows that run and 'public' the remaining count |
| `Page.Matches` | src/index.tsx:824-829 | every speaker matches the empty term |
| `Page.Visible` | src/index.tsx:821-830 | the shown list is the search filter applied to the filter's part, whether or not the term is empty; it is no longer than the cache and every shown speaker matches the term |
| `Page.VisibleMembers` | src/index.tsx:808-830 | a speaker is shown iff it is cached, the filter admits it, and the term is empty or occurs in its lowered name or in a present, non-empty lowered title, organization or background |
| `Page.VisibleKeepsOrder` | src/index.tsx:808-830 | the shown speakers keep the cached order |
| `Page.VisibleCommutes` | src/index.tsx:770-830 | for every term, filtering then searching equals searching then filtering |
| `Page.Preview` | src/index.tsx:685 | a card shows the whole background when it has at most 120 characters, and otherwise its first 120 followed by '...' |
| `Page.CardOf` | src/index.tsx:657-695 | a card links to the speaker's slug, shows the name and the closed-door badge, shows each optional line exactly when its field is present and non-empty, and previews the background as `Preview` cuts it (the first 120 characters and "..." when longer, all of it otherwise) |
| `Page.CardOpensItsSpeaker` | src/index.tsx:699-704 | clicking a card looks up the slug it carries, and on a table with unique slugs that lookup returns exactly the speaker the card shows |
| `Page.SpeakerPage.constructor` | src/index.tsx:518-613 | the page starts with the loading panel alone visible, nothing cached, filter 'all', empty search and the overlay closed |
| `Page.SpeakerPage.DisplaySpeakers` | src/index.tsx:641-696 | the loading panel is hidden; no-results shows iff nothing is to be shown, the grid otherwise, with one card per speaker; the error panel is untouched |
| `Page.SpeakerPage.LoadSpeakers` | src/index.tsx:616-638 | a success caches the list, shows all of it and sets the count; a failure hides loading and shows the error panel; either way exactly one panel shows |
| `Page.SpeakerPage.SearchSpeakers` | src/index.tsx:805-833 | the shown list becomes the current filter's subset narrowed by the lowered search text, then is displayed |
| `Page.SpeakerPage.FilterSpeakers` | src/index.tsx:770-802 | the filter is remembered and the shown list becomes the same intersection that `SearchSpeakers` computes |
| `Page.SpeakerPage.ShowSpeakerDetail` | src/index.tsx:699-761 | a successful lookup opens the overlay on that speaker and locks scrolling; a failure leaves the overlay as it was |
| `Page.SpeakerPage.CloseModal` | src/index.tsx:764-767 | the overlay is closed and scrolling released |
| `Page.FailedLoadThenFilter` | src/index.tsx:616-655 | after a failed load and a filter click, the error and no-results panels are both visible |
| `Seeded.SeededRows` | src/index.tsx:121-441 | one seed of an empty table inserts all 38 records in list order under ids 1 to 38 and satisfies the schema's constraints |
| `Seeded.ReseedChangesNothing` | src/index.tsx:429-445 | a second seed leaves the rows as they are; its 38 ignored statements only move the counter on, to 77 |
| `Seeded.SeededListing` | src/index.tsx:59-72 | the listing of the seeded table reports all 38 speakers |
| `Seeded.SeededLookup` | src/index.tsx:91-100 | each record's slug finds that record's row |
| `Seeded.GenslerLookup` | src/index.tsx:122-129 | looking up "gary-scott-gensler" returns the row with id 1 and organization "MIT Sloan" |
| `Seeded.SeededClosedDoor` | src/index.tsx:155-176 | over the table's rows in insertion order, 'closed' keeps exactly the three closed-door speakers and 'public' the other 35 |
| `Seeded.SeededListingClosedDoor` | src/index.tsx:623-627 | over the name-ordered listing the page caches, 'closed' shows those same three closed-door speakers and 'public' the other 35 |

## Left out

- Hono routing, the CORS middleware and static file serving: framework plumbing with no logic of its own.
- The D1 `prepare`/`bind`/`run`/`all`/`first` calls and `async`/`await`: the table is a value or an object, and each statement is one atomic step.
- The `CREATE TABLE`/`CREATE INDEX IF NOT EXISTS` text that every handler runs first: after the first run it does nothing, so it is left out. Only the first run's effect, an empty table, is modelled (`Store.SpeakerTable.constructor`).
- `created_at`/`updated_at`: their defaults come from the clock.
- The text of the seed response ("Database seeded with N speakers"): only its success flag and N are modelled.
- The catch blocks that turn any store exception into a 500 response: they are not modelled as steps. The list handler's result is kept (`Queries.ListFailure`). The lookup handler's 500 response is a `GetError` like its 404, and `ShowSpeakerDetail` treats every `GetError` alike.
- The store's collation for `ORDER BY name`: `Text.NameLe` compares code points in order, which is what SQLite's default BINARY collation does on UTF-8 text. Equal names are left in whatever order the sort produces, because they cannot occur under the UNIQUE constraint.
- Text.LowerChar: lowers only ASCII letters, not the full Unicode `toLowerCase`.
- Text.Lower: inherits the ASCII-only lowering of `Text.LowerChar`; its length equality would not hold for the Unicode case mappings that change a string's length.
- Page.Preview: cuts after 120 Dafny characters and compares the character count with 120, where `substring` and `length` count UTF-16 code units. The two differ only for backgrounds with characters outside the Basic Multilingual Plane, and the fixture's text has none.
- Store.Insert: an ignored statement is taken to use up one id. SQLite picks the rowid of an insert before the UNIQUE check, and documents only that the rowid of a failed attempt might not be reused, so the counter after ignored statements follows that reading. `Store.SeedAllIgnored`, `Store.SeedIdempotent` and `Seeded.ReseedChangesNothing` state their "nothing changes" facts on the rows, which hold under any choice of counter.
- Text.Contains: works on Dafny characters, not UTF-16 code units. The two agree on the fixture's text, which has no characters outside the Basic Multilingual Plane.
- How SQLite stores `is_closed_door` (0/1 integers): it is a boolean here, and the script uses it only as truthy or falsy.
- `.first()` on the slug query: it is taken to return the first matching row in insertion order. Under the UNIQUE slug constraint at most one row matches.
- The HTML and CSS markup, the CDN scripts, the `innerHTML` templates beyond what a card shows (`Page.Card`), the overlay's contents, the filter buttons' styling, `alert`, `console.error` and the event-listener wiring (outside click, Escape key, input events): user-interface plumbing.
- Events that arrive while a request is being awaited: each page method runs to completion as one step.
- The error text a failed list response carries and the retry button's markup: the retry is `LoadSpeakers` called again.
- Endpoints that update LinkedIn fields, and the `linkedin_*` columns: they are not in the source this model covers.
- `ecosystem.config.cjs`: process-manager configuration with no logic.
