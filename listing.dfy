/** The page query: SELECT * FROM feeds ORDER BY date DESC LIMIT 100. */
module Listing {
  import opened Entries

  /** The LIMIT of the page query. */
  const PageSize: nat := 100

  /** Newest first: no row is newer than one before it. */
  ghost predicate NewestFirst(s: seq<Row>) {
    forall i, j :: 0 <= i < j < |s| ==> s[i].date >= s[j].date
  }

  /** A row no older than the first of a newest-first sequence can go in front of it. */
  lemma PrependNewest(h: Row, s: seq<Row>)
    requires NewestFirst(s)
    requires s != [] ==> s[0].date <= h.date
    ensures NewestFirst([h] + s)
  {
    var r := [h] + s;
    forall i, j | 0 <= i < j < |r| ensures r[i].date >= r[j].date {
      assert r[j] == s[j - 1];
      if i > 0 {
        assert r[i] == s[i - 1];
      }
    }
  }

  /** Places `x` into a newest-first sequence, after every strictly newer row and before the rest. */
  function InsertByDate(x: Row, s: seq<Row>): (r: seq<Row>)
    requires NewestFirst(s)
    ensures NewestFirst(r)
    ensures multiset(r) == multiset(s) + multiset{x}
    ensures |r| == |s| + 1 && (r[0] == x || (s != [] && r[0] == s[0]))
  {
    if s == [] then [x]
    else if s[0].date > x.date then
      var rest := InsertByDate(x, s[1..]);
      assert s == [s[0]] + s[1..];
      PrependNewest(s[0], rest);
      [s[0]] + rest
    else
      PrependNewest(x, s);
      [x] + s
  }

  /** The rows ordered newest first (ties keep rowid order, one of the orders SQLite may give). */
  function SortByDate(rows: seq<Row>): (r: seq<Row>)
    ensures NewestFirst(r)
    ensures multiset(r) == multiset(rows) && |r| == |rows|
  {
    if rows == [] then []
    else
      assert rows == [rows[0]] + rows[1..];
      InsertByDate(rows[0], SortByDate(rows[1..]))
  }

  /** In a newest-first sequence, a row that is not among the first `n` is no newer than any of them. */
  lemma OmittedNoNewer(s: seq<Row>, n: nat, x: Row)
    requires NewestFirst(s) && n <= |s|
    requires x in multiset(s) && x !in s[..n]
    ensures forall i :: 0 <= i < n ==> x.date <= s[i].date
  {
    var p :| 0 <= p < |s| && s[p] == x;
    assert forall q :: 0 <= q < n ==> s[..n][q] == s[q];
  }

  /** The first `n` rows of a newest-first ordering of `rows` are the `n` newest of them. */
  lemma PrefixIsNewest(rows: seq<Row>, s: seq<Row>, n: nat)
    requires NewestFirst(s) && multiset(s) == multiset(rows) && n <= |s|
    ensures NewestFirst(s[..n])
    ensures multiset(s[..n]) <= multiset(rows)
    ensures forall k, i :: 0 <= k < |rows| && 0 <= i < n && rows[k] !in s[..n] ==> rows[k].date <= s[..n][i].date
  {
    assert s == s[..n] + s[n..];
    assert multiset(s) == multiset(s[..n]) + multiset(s[n..]);
    forall k | 0 <= k < |rows| && rows[k] !in s[..n]
      ensures forall i :: 0 <= i < n ==> rows[k].date <= s[i].date
    {
      assert rows[k] in multiset(rows);
      OmittedNoNewer(s, n, rows[k]);
    }
  }

  /**
   * The `limit` newest rows, newest first: as many as the table has up to
   * `limit`, each a stored row, and no row left out is newer than a row
   * returned.
   */
  function Latest(rows: seq<Row>, limit: nat): (r: seq<Row>)
    ensures |r| == if |rows| < limit then |rows| else limit
    ensures NewestFirst(r)
    ensures multiset(r) <= multiset(rows)
    ensures forall k, i :: 0 <= k < |rows| && 0 <= i < |r| && rows[k] !in r ==> rows[k].date <= r[i].date
  {
    var s := SortByDate(rows);
    var n := if |s| < limit then |s| else limit;
    PrefixIsNewest(rows, s, n);
    s[..n]
  }
}
