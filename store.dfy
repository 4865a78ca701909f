/**
 * The SQLite database of feed-fetcher.py as an object updated in place: the
 * names of its tables and indexes, the rows of the `feeds` table and the
 * table's AUTOINCREMENT counter. Its methods are the script's schema set-up,
 * its ingestion loops and, put together, one whole run.
 */
module FeedStore {
  import opened Wrappers
  import opened Entries
  import opened Ingestion
  import opened Listing

  const FeedsTable := "feeds"
  const SettingsTable := "settings"
  const FingerprintIndex := "feeds_url_md5_index"

  /** How a phase of the run ended: normally, or by an uncaught exception. */
  datatype Status = Completed | Aborted(fault: Fault)

  class Store {
    var tables: set<string>
    var indexes: set<string>
    var rows: seq<Row>
    var lastId: nat

    /** The `feeds` table and its index exist together; fingerprints are unique and ids increase. */
    ghost predicate Valid()
      reads this
    {
      && (FeedsTable !in tables ==> rows == [] && lastId == 0 && FingerprintIndex !in indexes)
      && TableValid(Table(rows, lastId))
    }

    /** The `feeds` table as a value. */
    function Contents(): Table
      reads this
    {
      Table(rows, lastId)
    }

    /** sqlite3.connect on a database file: a new file has no tables; an existing one keeps its own. */
    constructor Connect(tables0: set<string>, indexes0: set<string>, feeds0: Table)
      requires FeedsTable !in tables0 ==> feeds0 == Table([], 0) && FingerprintIndex !in indexes0
      requires TableValid(feeds0)
      ensures Valid()
      ensures tables == tables0 && indexes == indexes0 && Contents() == feeds0
    {
      tables := tables0;
      indexes := indexes0;
      rows := feeds0.rows;
      lastId := feeds0.lastId;
    }

    /**
     * Creates `feeds`, its unique fingerprint index and `settings` when no
     * table `feeds` exists, and does nothing otherwise. Each CREATE takes
     * effect at once, so when `settings` already exists the run stops with
     * `feeds` and its index created.
     */
    method InitSchema() returns (status: Status)
      requires Valid()
      modifies this
      ensures Valid()
      ensures FeedsTable in old(tables) ==>
        status == Completed && tables == old(tables) && indexes == old(indexes) && Contents() == old(Contents())
      ensures FeedsTable !in old(tables) ==>
        && tables == old(tables) + {FeedsTable, SettingsTable}
        && indexes == old(indexes) + {FingerprintIndex}
        && Contents() == Table([], 0)
        && status == if SettingsTable in old(tables) then Aborted(TableExists(SettingsTable)) else Completed
    {
      if FeedsTable !in tables {
        tables := tables + {FeedsTable};
        indexes := indexes + {FingerprintIndex};
        if SettingsTable in tables {
          return Aborted(TableExists(SettingsTable));
        }
        tables := tables + {SettingsTable};
      }
      return Completed;
    }

    /**
     * One pass of the inner ingestion loop: fingerprint the entry's link,
     * look it up, and INSERT a row with the next id only when it is absent.
     * On a missing key the pass stops, and what it leaves is rolled back by
     * the caller.
     */
    method InsertIfAbsent(md5: Hash, feed: Feed, item: RawEntry) returns (status: Status)
      requires Valid() && FeedsTable in tables
      modifies this`rows, this`lastId
      ensures Valid()
      ensures match Step(md5, old(Contents()), Visit(feed, item))
        case Success(t) => status == Completed && Contents() == t
        case Failure(e) => status == Aborted(e) && Contents() == old(Contents())
    {
      var fingerprint := Fingerprint(md5, item);
      if fingerprint.Failure? {
        return Aborted(fingerprint.error);
      }
      var m := fingerprint.value;
      if !Lookup(rows, m) {
        var row := NewRow(md5, feed, item, item.link.value, lastId + 1);
        if row.Failure? {
          return Aborted(row.error);
        }
        rows := rows + [row.value];
        lastId := lastId + 1;
      }
      return Completed;
    }

    /**
     * The ingestion loops: every entry of every feed, in order, goes through
     * InsertIfAbsent. The inserts are committed only once the loops finish,
     * so a run stopped by a missing key leaves the table as it found it.
     */
    method Ingest(md5: Hash, feeds: seq<Feed>) returns (status: Status)
      requires Valid() && FeedsTable in tables
      modifies this
      ensures Valid()
      ensures tables == old(tables) && indexes == old(indexes)
      ensures match RunAll(md5, old(Contents()), Work(feeds))
        case Success(t) => status == Completed && Contents() == t
        case Failure(e) => status == Aborted(e) && Contents() == old(Contents())
      ensures old(rows) <= rows
    {
      var saved := Contents();
      var i := 0;
      assert feeds[i..] == feeds;
      while i < |feeds|
        invariant 0 <= i <= |feeds|
        invariant Valid() && tables == old(tables) && indexes == old(indexes)
        invariant RunAll(md5, saved, Work(feeds)) == RunAll(md5, Contents(), Work(feeds[i..]))
      {
        var feed := feeds[i];
        WorkFrom(feeds, i);
        var j := 0;
        while j < |feed.entries|
          invariant 0 <= j <= |feed.entries|
          invariant Valid() && tables == old(tables) && indexes == old(indexes)
          invariant RunAll(md5, saved, Work(feeds)) ==
            RunAll(md5, Contents(), Visits(feed)[j..] + Work(feeds[i + 1..]))
        {
          ghost var before := Contents();
          ghost var rest := Visits(feed)[j..] + Work(feeds[i + 1..]);
          NextVisit(feed, j, Work(feeds[i + 1..]));
          var pass := InsertIfAbsent(md5, feed, feed.entries[j]);
          if pass.Aborted? {
            assert RunAll(md5, before, rest) == Failure(pass.fault);
            rows, lastId := saved.rows, saved.lastId;
            return pass;
          }
          assert RunAll(md5, before, rest) == RunAll(md5, Contents(), rest[1..]);
          j := j + 1;
        }
        assert Visits(feed)[j..] + Work(feeds[i + 1..]) == Work(feeds[i + 1..]);
        i := i + 1;
      }
      RunAppendOnly(md5, saved, Work(feeds));
      return Completed;
    }
  }

  /** The visits left in the outer loop: those of feed `i`, then those of the feeds after it. */
  lemma WorkFrom(feeds: seq<Feed>, i: nat)
    requires i < |feeds|
    ensures Work(feeds[i..]) == Visits(feeds[i])[0..] + Work(feeds[i + 1..])
  {
    assert feeds[i..][1..] == feeds[i + 1..];
  }

  /** The visits left in the inner loop start with entry `j` of the current feed. */
  lemma NextVisit(feed: Feed, j: nat, later: seq<Visit>)
    requires j < |feed.entries|
    ensures var rest := Visits(feed)[j..] + later;
      rest != [] && rest[0] == Visit(feed, feed.entries[j]) && rest[1..] == Visits(feed)[j + 1..] + later
  {
    var rest := Visits(feed)[j..] + later;
    assert rest[1..] == Visits(feed)[j + 1..] + later;
  }

  /**
   * One run of the script after option parsing: set up the schema, ingest
   * the parsed feeds, commit, and read the page of the newest rows that the
   * template renders.
   */
  method RunBatch(store: Store, md5: Hash, feeds: seq<Feed>) returns (page: Result<seq<Row>, Fault>)
    requires store.Valid()
    modifies store
    ensures store.Valid()
    ensures old(store.rows) <= store.rows
    ensures FeedsTable in old(store.tables) ==>
      store.tables == old(store.tables) && store.indexes == old(store.indexes)
    ensures FeedsTable !in old(store.tables) ==>
      && store.tables == old(store.tables) + {FeedsTable, SettingsTable}
      && store.indexes == old(store.indexes) + {FingerprintIndex}
    ensures FeedsTable !in old(store.tables) && SettingsTable in old(store.tables) ==>
      page == Failure(TableExists(SettingsTable)) && store.Contents() == old(store.Contents())
    ensures FeedsTable in old(store.tables) || SettingsTable !in old(store.tables) ==>
      match RunAll(md5, old(store.Contents()), Work(feeds))
      case Success(t) => store.Contents() == t && page == Success(Latest(t.rows, PageSize))
      case Failure(e) => store.Contents() == old(store.Contents()) && page == Failure(e)
  {
    var init := store.InitSchema();
    if init.Aborted? {
      return Failure(init.fault);
    }
    var run := store.Ingest(md5, feeds);
    if run.Aborted? {
      return Failure(run.fault);
    }
    page := Success(Latest(store.rows, PageSize));
  }
}
