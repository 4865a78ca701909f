/**
 * The ingestion loop of feed-fetcher.py as a specification on values: the
 * table is a sequence of rows plus the AUTOINCREMENT counter, and a run is
 * the insert-if-absent step folded over every (feed, entry) pair in the
 * order the two nested loops visit them.
 */
module Ingestion {
  import opened Wrappers
  import opened Entries

  /** The `feeds` table: its rows in rowid order, and the largest id ever handed out. */
  datatype Table = Table(rows: seq<Row>, lastId: nat)

  /** One visit of the inner loop: an entry together with the feed it came from. */
  datatype Visit = Visit(feed: Feed, item: RawEntry)

  /** No two rows share a fingerprint (the unique index feeds_url_md5_index). */
  ghost predicate UniqueFingerprints(rows: seq<Row>) {
    forall i, j :: 0 <= i < j < |rows| ==> rows[i].urlMd5 != rows[j].urlMd5
  }

  /** Ids grow with the rowid order and none is above the AUTOINCREMENT counter. */
  ghost predicate IdsBelowCounter(t: Table) {
    && (forall i, j :: 0 <= i < j < |t.rows| ==> t.rows[i].id < t.rows[j].id)
    && (forall i :: 0 <= i < |t.rows| ==> t.rows[i].id <= t.lastId)
  }

  ghost predicate TableValid(t: Table) {
    UniqueFingerprints(t.rows) && IdsBelowCounter(t)
  }

  /** SELECT * FROM feeds WHERE url_md5 = :m finds a row. */
  function Lookup(rows: seq<Row>, m: string): (found: bool)
    ensures found <==> exists i :: 0 <= i < |rows| && rows[i].urlMd5 == m
  {
    if rows == [] then false
    else rows[|rows| - 1].urlMd5 == m || Lookup(rows[..|rows| - 1], m)
  }

  /**
   * One pass of the inner loop: fingerprint the link, look it up, and append
   * a row with the next id only when it is absent.
   */
  function Step(md5: Hash, t: Table, v: Visit): (r: Result<Table, Fault>)
    ensures v.item.link.None? ==> r == Failure(KeyError("link"))
    ensures v.item.link.Some? && Lookup(t.rows, md5(v.item.link.value)) ==> r == Success(t)
    ensures v.item.link.Some? && !Lookup(t.rows, md5(v.item.link.value)) ==>
      (r.Success? <==> Insertable(v.feed, v.item))
    ensures r.Success? ==> v.item.link.Some? && Lookup(r.value.rows, md5(v.item.link.value))
    ensures r.Success? ==> (r.value == t <==> Lookup(t.rows, md5(v.item.link.value)))
    ensures r.Success? && r.value != t ==>
      && |r.value.rows| == |t.rows| + 1
      && r.value.rows[..|t.rows|] == t.rows
      && RowOf(r.value.rows[|t.rows|], md5, v.feed, v.item)
      && r.value.rows[|t.rows|].id == t.lastId + 1
      && r.value.lastId == t.lastId + 1
    ensures r.Success? && TableValid(t) ==> TableValid(r.value)
  {
    match Fingerprint(md5, v.item)
    case Failure(e) => Failure(e)
    case Success(m) =>
      if Lookup(t.rows, m) then Success(t)
      else
        match NewRow(md5, v.feed, v.item, v.item.link.value, t.lastId + 1)
        case Failure(e) => Failure(e)
        case Success(row) => Success(Table(t.rows + [row], t.lastId + 1))
  }

  /** The visits of one feed's entries, in order. */
  function Visits(feed: Feed): (vs: seq<Visit>)
    ensures |vs| == |feed.entries|
    ensures forall k :: 0 <= k < |vs| ==> vs[k] == Visit(feed, feed.entries[k])
  {
    seq(|feed.entries|, k requires 0 <= k < |feed.entries| => Visit(feed, feed.entries[k]))
  }

  /** Every visit of a run: the outer loop over feeds, the inner loop over their entries. */
  function Work(feeds: seq<Feed>): (work: seq<Visit>)
    ensures forall k, e :: 0 <= k < |feeds| && 0 <= e < |feeds[k].entries| ==>
      Visit(feeds[k], feeds[k].entries[e]) in work
  {
    if feeds == [] then [] else Visits(feeds[0]) + Work(feeds[1..])
  }

  /** Conversely, every visit of a run is an entry of one of the feeds, paired with that feed. */
  lemma {:induction false} WorkHoldsOnlyEntries(feeds: seq<Feed>)
    ensures forall v :: v in Work(feeds) ==> v.feed in feeds && v.item in v.feed.entries
  {
    if feeds != [] {
      WorkHoldsOnlyEntries(feeds[1..]);
      forall v | v in Work(feeds) ensures v.feed in feeds && v.item in v.feed.entries {
        if v in Visits(feeds[0]) {
          var k :| 0 <= k < |Visits(feeds[0])| && Visits(feeds[0])[k] == v;
          assert v.item == feeds[0].entries[k];
        } else {
          assert v in Work(feeds[1..]);
        }
      }
    }
  }

  /** The table after the visits `work`, or the fault that stops the run. */
  function RunAll(md5: Hash, t: Table, work: seq<Visit>): (r: Result<Table, Fault>)
    ensures r.Failure? ==> exists v :: v in work && !Complete(v)
    ensures r.Success? ==> |t.rows| <= |r.value.rows| <= |t.rows| + |work|
    decreases |work|
  {
    if work == [] then Success(t)
    else
      match Step(md5, t, work[0])
      case Failure(e) =>
        assert work[0] in work && !Complete(work[0]);
        Failure(e)
      case Success(t') => RunAll(md5, t', work[1..])
  }

  /** A run only appends: the old rows stay, unchanged and in place, and the counter never goes back. */
  lemma {:induction false} RunAppendOnly(md5: Hash, t: Table, work: seq<Visit>)
    requires RunAll(md5, t, work).Success?
    ensures t.rows <= RunAll(md5, t, work).value.rows
    ensures t.lastId <= RunAll(md5, t, work).value.lastId
    decreases |work|
  {
    if work != [] {
      var t' := Step(md5, t, work[0]).value;
      RunAppendOnly(md5, t', work[1..]);
    }
  }

  /** A run keeps fingerprints unique and ids increasing and below the counter. */
  lemma {:induction false} RunKeepsValid(md5: Hash, t: Table, work: seq<Visit>)
    requires TableValid(t)
    requires RunAll(md5, t, work).Success?
    ensures TableValid(RunAll(md5, t, work).value)
    decreases |work|
  {
    if work != [] {
      var t' := Step(md5, t, work[0]).value;
      RunKeepsValid(md5, t', work[1..]);
    }
  }

  /** Every row a run adds has an id above every id that was there before. */
  lemma RunGivesFreshIds(md5: Hash, t: Table, work: seq<Visit>)
    requires TableValid(t)
    requires RunAll(md5, t, work).Success?
    ensures var t' := RunAll(md5, t, work).value;
      forall i, k :: 0 <= i < |t.rows| <= k < |t'.rows| ==> t.rows[i].id < t'.rows[k].id
  {
    RunAppendOnly(md5, t, work);
    RunKeepsValid(md5, t, work);
  }

  /** After a completed run, the fingerprint of every visited link is stored. */
  lemma {:induction false} RunStoresEveryLink(md5: Hash, t: Table, work: seq<Visit>)
    requires RunAll(md5, t, work).Success?
    ensures forall v :: v in work ==>
      v.item.link.Some? && Lookup(RunAll(md5, t, work).value.rows, md5(v.item.link.value))
    decreases |work|
  {
    if work != [] {
      var t' := Step(md5, t, work[0]).value;
      RunStoresEveryLink(md5, t', work[1..]);
      RunAppendOnly(md5, t', work[1..]);
      assert forall v :: v in work ==> v == work[0] || v in work[1..];
    }
  }

  /** A run whose every link is already stored changes nothing. */
  lemma {:induction false} RunOfStoredLinksIsNoOp(md5: Hash, t: Table, work: seq<Visit>)
    requires forall v :: v in work ==> v.item.link.Some? && Lookup(t.rows, md5(v.item.link.value))
    ensures RunAll(md5, t, work) == Success(t)
    decreases |work|
  {
    if work != [] {
      assert work[0] in work;
      assert forall v :: v in work[1..] ==> v in work;
      RunOfStoredLinksIsNoOp(md5, t, work[1..]);
    }
  }

  /** Running the same entries again on the table a completed run left adds no row. */
  lemma RunIsIdempotent(md5: Hash, t: Table, work: seq<Visit>)
    requires RunAll(md5, t, work).Success?
    ensures RunAll(md5, RunAll(md5, t, work).value, work) == RunAll(md5, t, work)
  {
    RunStoresEveryLink(md5, t, work);
    RunOfStoredLinksIsNoOp(md5, RunAll(md5, t, work).value, work);
  }

  /** Every row a run adds is the row of one of the visited entries, with the fields the INSERT gives it. */
  lemma {:induction false} RunAddsRowsOfEntries(md5: Hash, t: Table, work: seq<Visit>)
    requires RunAll(md5, t, work).Success?
    ensures var t' := RunAll(md5, t, work).value;
      forall k :: |t.rows| <= k < |t'.rows| ==>
        exists v :: v in work && RowOf(t'.rows[k], md5, v.feed, v.item)
    decreases |work|
  {
    if work != [] {
      var t' := Step(md5, t, work[0]).value;
      RunAddsRowsOfEntries(md5, t', work[1..]);
      RunAppendOnly(md5, t', work[1..]);
      var t'' := RunAll(md5, t, work).value;
      forall k | |t.rows| <= k < |t''.rows|
        ensures exists v :: v in work && RowOf(t''.rows[k], md5, v.feed, v.item)
      {
        if k < |t'.rows| {
          assert t''.rows[k] == t'.rows[k];
          assert RowOf(t''.rows[k], md5, work[0].feed, work[0].item);
          assert work[0] in work;
        } else {
          var v :| v in work[1..] && RowOf(t''.rows[k], md5, v.feed, v.item);
          assert v in work;
        }
      }
    }
  }

  /** Every value the insert path reads is present. */
  predicate Complete(v: Visit) {
    v.item.link.Some? && Insertable(v.feed, v.item)
  }

  /** When every entry carries the keys the loop reads, the run completes. */
  lemma {:induction false} CompleteEntriesNeverAbort(md5: Hash, t: Table, work: seq<Visit>)
    requires forall v :: v in work ==> Complete(v)
    ensures RunAll(md5, t, work).Success?
    decreases |work|
  {
    if work != [] {
      assert work[0] in work;
      assert forall v :: v in work[1..] ==> v in work;
      CompleteEntriesNeverAbort(md5, Step(md5, t, work[0]).value, work[1..]);
    }
  }

  /** The same new link seen twice in one run is stored once: the second lookup sees the first insert. */
  lemma RepeatedLinkStoredOnce(md5: Hash, t: Table, v: Visit)
    requires Complete(v) && !Lookup(t.rows, md5(v.item.link.value))
    ensures RunAll(md5, t, [v, v]).Success?
    ensures RunAll(md5, t, [v, v]) == RunAll(md5, t, [v])
    ensures |RunAll(md5, t, [v, v]).value.rows| == |t.rows| + 1
  {
    var t' := Step(md5, t, v).value;
    assert [v, v][1..] == [v];
    assert RunAll(md5, t', []) == Success(t');
  }
}
