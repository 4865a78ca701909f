# feed-fetcher ingestion, modelled in Dafny

feed-fetcher is a one-shot Python script: it opens a SQLite database,
creates its schema if needed, parses every feed listed in a YAML file,
stores each entry it has not seen before in the `feeds` table (an entry is
identified by the MD5 digest of its link, kept in `url_md5` under a unique
index), commits, and renders the 100 newest rows into `index.html`.

This project models the part of that script that has logic in it:

- `Entries` (`entries.dfy`): the parsed feed and entry records with every
  key optional, the `feeds` row, the link fingerprint, and the row an
  entry is stored as. MD5 is a parameter `md5: string -> Digest` (any total
  function into 32 lower-case hex digits), so the same link always gives
  the same digest. A date is an integer rank standing for the fixed-width
  ISO-8601 text the script stores; that text sorts chronologically.
- `Ingestion` (`ingestion.dfy`): the ingestion run as a specification on
  values. `Work` lists the (feed, entry) visits in the order of the two
  nested loops, `Step` is one insert-if-absent pass and `RunAll` folds it,
  stopping at the first fault. The lemmas state what a run guarantees.
- `Listing` (`listing.dfy`): `SELECT * FROM feeds ORDER BY date DESC LIMIT 100`.
- `FeedStore` (`store.dfy`): the database as a `Store` object updated in
  place (table names, index names, the rows of `feeds`, the AUTOINCREMENT
  counter), with the schema set-up, the per-entry pass, the ingestion loops
  and a whole run, each proved against the functions above.

What the code does, and the model follows:

- The stored `content` is always the entry's `summary`. The script does
  pick between the first `content` block and `summary`, but never uses the
  result; that choice can still fail and stop the run.
- The date is whatever `item["updated_parsed"]` yields; the script itself never asks for `published`.
- A missing key is not skipped: an entry without `link` (or, when it is
  about to be inserted, without `summary`, `title`, `updated_parsed`, or a
  feed without `link`/`title`, or an empty `content` list) raises and ends
  the script. Its inserts were not committed yet, so the table is left as
  it was before the run. The model returns `Aborted(fault)` and restores the
  table. `CompleteEntriesNeverAbort` shows that entries carrying every key
  never cause this.
- A feed whose fetch failed arrives as a feed with no entries and adds
  nothing. Fetching is sequential; no feed's failure is isolated from the
  others beyond that.
- The schema is created only when no table `feeds` exists. Each CREATE
  takes effect on its own, so if `settings` already exists the run stops
  after `feeds` and its index were created.
- Only the newest-100 page is queried. No today or yesterday windows exist.

## Model

| member | source | states |
|---|---|---|
| `Entries.FingerprintOfLink` | feed-fetcher.py:62 | two entries with the same link get the same fingerprint; it exists exactly when the link does, and it is 32 lower-case hex digits |
| `Entries.NewRow` | feed-fetcher.py:65-83 | the insert of an absent entry succeeds exactly when every key it reads is present and a present `content` list has a first block with a value; the row then carries the link, its md5, the entry title, the feed's link and title, the `updated_parsed` date, the `summary` as content, and the given id |
| `Entries.Fingerprint` | feed-fetcher.py:62 | an entry's fingerprint is the md5 of its link; it fails with KeyError on `link` exactly when the link is missing |
| `Entries.ChosenContent` | feed-fetcher.py:65-68 | with `content`, picks the first block's value, failing with IndexError on an empty list and KeyError on a missing `value`; without it, picks `summary`, failing with KeyError when that is missing |
| `Entries.ContentIsAlwaysSummary` | feed-fetcher.py:65-81 | for every stored entry that has `content`, the content choice picks the first block's value, yet the stored content is the summary |
| `Ingestion.Lookup` | feed-fetcher.py:63-64 | the lookup finds a row exactly when some stored row has the fingerprint |
| `Ingestion.Step` | feed-fetcher.py:62-83 | a missing link stops the run; an entry whose fingerprint is stored always leaves the table unchanged and never fails; one whose fingerprint is absent succeeds exactly when every key the insert reads is present; the table changes only when the fingerprint is absent; then exactly one row is appended, for that entry, with id one above the counter; afterwards the fingerprint is stored; unique fingerprints and increasing ids are kept |
| `Ingestion.Work` | feed-fetcher.py:59-61 | the visits of a run, in the order of the two loops, include every entry of every feed, paired with its feed |
| `Ingestion.WorkHoldsOnlyEntries` | feed-fetcher.py:59-61 | every visit of a run is an entry of one of the feeds, paired with that feed |
| `Ingestion.RunAll` | feed-fetcher.py:59-83 | a run stops with a fault only if some visited entry lacks a key the loop reads; a completed run adds at most one row per visited entry and removes none |
| `Ingestion.RunAppendOnly` | feed-fetcher.py:59-83 | a completed run keeps every earlier row, unchanged and in place, and never lowers the counter |
| `Ingestion.RunKeepsValid` | feed-fetcher.py:61-83 | after any completed run no two rows share a fingerprint and ids stay increasing and at most the counter, even when a link repeats within the run |
| `Ingestion.RunGivesFreshIds` | feed-fetcher.py:34 | every row a run adds has an id greater than every id stored before it |
| `Ingestion.RunStoresEveryLink` | feed-fetcher.py:61-83 | after a completed run every visited entry has a link and its fingerprint is stored |
| `Ingestion.RunOfStoredLinksIsNoOp` | feed-fetcher.py:62-64 | a run over entries whose fingerprints are all stored completes and changes nothing |
| `Ingestion.RunIsIdempotent` | feed-fetcher.py:59-83 | ingesting the same feeds again on the table a completed run left adds no row |
| `Ingestion.RunAddsRowsOfEntries` | feed-fetcher.py:69-83 | every row a run adds holds the values of one visited entry and its feed |
| `Ingestion.CompleteEntriesNeverAbort` | feed-fetcher.py:62-81 | a run whose entries all carry every key it reads never stops with an error |
| `Ingestion.RepeatedLinkStoredOnce` | feed-fetcher.py:61-83 | a new link visited twice in one run is stored once: the second lookup sees the first insert |
| `Listing.SortByDate` | feed-fetcher.py:86 | the rows ordered by date descending, as a permutation of the table |
| `Listing.Latest` | feed-fetcher.py:86 | the page holds min(100, rows) stored rows, newest first, and no row left out is newer than a row on the page |
| `FeedStore.Store.Connect` | feed-fetcher.py:28 | opening a database gives a store with exactly its tables, indexes and rows |
| `FeedStore.Store.InitSchema` | feed-fetcher.py:30-49 | with `feeds` present nothing changes; otherwise `feeds`, its unique index and `settings` are added to what exists, the table is empty, and the run stops if `settings` already existed |
| `FeedStore.Store.InsertIfAbsent` | feed-fetcher.py:62-83 | one pass of the inner loop leaves the store exactly as `Step` says, or reports the fault `Step` reports and changes nothing |
| `FeedStore.Store.Ingest` | feed-fetcher.py:58-85 | the nested loops leave the table equal to `RunAll` over every entry of every feed in order, or, on a fault, exactly as it was; old rows always survive, and tables and indexes do not change |
| `FeedStore.RunBatch` | feed-fetcher.py:28-86 | one whole run: schema set-up, ingestion, then the page `Latest(rows, 100)` of the resulting table; a fault at either stage leaves the rows as before; an existing schema is left alone, and a missing one gains `feeds`, `settings` and the fingerprint index |

## Left out

- Option parsing and the usage exit (feed-fetcher.py:12-26): argument handling only.
- Reading the YAML feed list and fetching and parsing each feed with feedparser: the parsed feeds are the input sequence.
- MD5 itself and the UTF-8 encoding of the link: the digest is any total function into 32 hex digits.
- feedparser's fallback inside `item["updated_parsed"]`, which in its 5.2 releases and later returns `published_parsed` when an entry has no `updated_parsed`: the model takes whatever that lookup yields as `updatedParsed`, and a missing value as a KeyError.
- The date conversion through `time.mktime` and `datetime.fromtimestamp`, which depends on the local time zone: an entry's `updatedParsed` already holds the converted date.
- SQLite's connection, statement text, dynamic typing and transactions, except their effect on the rows: inserts stay uncommitted until the end, and a crash discards them.
- Name clashes with schema objects other than a pre-existing `settings` table, and AUTOINCREMENT running out of ids at 2^63-1.
- Which of several rows with the same date SQLite returns first: `Latest` returns one admissible order (rowid order among equal dates), and its contract holds for any.
- The Jinja2 environment, the `date` display filter, rendering `index.html`, closing the connection and the "Database initialized." message: templating and output.
- The `settings` table is tracked only by name; the script never reads or writes it.
- `FeedStore.Store.Connect`: requires that an existing `feeds` table already has unique fingerprints and increasing ids, which holds for a database this script created, since its unique index and AUTOINCREMENT enforce both.
