/**
 * What the feed parser hands to the fetcher (feeds and their entries), the
 * row the `feeds` table stores, and the per-entry computations of the
 * ingestion loop in feed-fetcher.py: the link fingerprint and the row built
 * for an entry that is not yet stored.
 */
module Entries {
  import opened Wrappers

  /** The characters `hexdigest()` produces. */
  predicate IsHexDigit(c: char) {
    '0' <= c <= '9' || 'a' <= c <= 'f'
  }

  /** The text kept in the `url_md5 CHAR(32)` column: 32 lower-case hex digits. */
  type Digest = s: string | |s| == 32 && forall i :: 0 <= i < |s| ==> IsHexDigit(s[i])
    witness "00000000000000000000000000000000"

  /**
   * MD5 of the UTF-8 encoding of a link, rendered by `hexdigest()`. The hash
   * itself is not modelled: any total function of this type stands for it,
   * and a function value always gives the same digest for the same link.
   */
  type Hash = string -> Digest

  /**
   * The `date` column: the fixed-width ISO-8601 text that
   * `datetime.fromtimestamp(time.mktime(updated_parsed)).isoformat()` yields.
   * Fixed-width ISO text sorts chronologically, so the model keeps only its
   * rank in that order.
   */
  type Date = int

  /** Why a run stops: Python's KeyError and IndexError, and SQLite's
      "table already exists" from CREATE TABLE. */
  datatype Fault = KeyError(key: string) | IndexError | TableExists(name: string)

  /** One element of an entry's `content` list: a dictionary that should carry `value`. */
  datatype ContentBlock = ContentBlock(value: Option<string>)

  /** A parsed entry; every key may be missing. */
  datatype RawEntry = RawEntry(
    link: Option<string>,
    title: Option<string>,
    summary: Option<string>,
    content: Option<seq<ContentBlock>>,
    updatedParsed: Option<Date>)  // what item["updated_parsed"] yields, already converted to a Date

  /** A parsed feed: the `feed` dictionary's `link` and `title`, and `entries`. */
  datatype Feed = Feed(link: Option<string>, title: Option<string>, entries: seq<RawEntry>)

  /** A row of the `feeds` table. */
  datatype Row = Row(
    id: nat,
    url: string,
    urlMd5: string,
    title: string,
    siteUrl: string,
    siteTitle: string,
    date: Date,
    content: string)

  /** The fingerprint of an entry: md5 of its link; an entry without a link raises KeyError. */
  function Fingerprint(md5: Hash, item: RawEntry): (r: Result<Digest, Fault>)
    ensures r.Success? <==> item.link.Some?
    ensures r.Failure? ==> r.error == KeyError("link")
    ensures r.Success? ==> r.value == md5(item.link.value)
  {
    match item.link
    case None => Failure(KeyError("link"))
    case Some(link) => Success(md5(link))
  }

  lemma FingerprintOfLink(md5: Hash, a: RawEntry, b: RawEntry)
    requires a.link == b.link
    ensures Fingerprint(md5, a) == Fingerprint(md5, b)
    ensures Fingerprint(md5, a).Success? <==> a.link.Some?
    ensures Fingerprint(md5, a).Success? ==>
      |Fingerprint(md5, a).value| == 32 &&
      forall i :: 0 <= i < 32 ==> IsHexDigit(Fingerprint(md5, a).value[i])
  {
  }

  /**
   * The content an entry would be shown with: the first `content` block's
   * value when the entry has `content`, its `summary` otherwise. The ingestion
   * loop computes it and then never uses it, so only its failures matter.
   */
  function ChosenContent(item: RawEntry): (r: Result<string, Fault>)
    ensures item.content.Some? && |item.content.value| == 0 ==> r == Failure(IndexError)
    ensures item.content.Some? && |item.content.value| > 0 && item.content.value[0].value.None? ==>
      r == Failure(KeyError("value"))
    ensures item.content.None? && item.summary.None? ==> r == Failure(KeyError("summary"))
    ensures item.content.Some? && r.Success? ==> Some(r.value) == item.content.value[0].value
    ensures item.content.None? && r.Success? ==> Some(r.value) == item.summary
  {
    match item.content
    case Some(blocks) =>
      if |blocks| == 0 then Failure(IndexError)
      else if blocks[0].value.None? then Failure(KeyError("value"))
      else Success(blocks[0].value.value)
    case None =>
      if item.summary.None? then Failure(KeyError("summary"))
      else Success(item.summary.value)
  }

  /** Everything the insert path reads, present and well formed. */
  predicate Insertable(feed: Feed, item: RawEntry) {
    && (item.content.Some? ==> |item.content.value| > 0 && item.content.value[0].value.Some?)
    && item.summary.Some?
    && item.title.Some?
    && feed.link.Some?
    && feed.title.Some?
    && item.updatedParsed.Some?
  }

  /** `r` holds the values the INSERT takes from `item` and its owning `feed`. */
  predicate RowOf(r: Row, md5: Hash, feed: Feed, item: RawEntry) {
    && item.link == Some(r.url)
    && r.urlMd5 == md5(r.url)
    && item.title == Some(r.title)
    && feed.link == Some(r.siteUrl)
    && feed.title == Some(r.siteTitle)
    && item.updatedParsed == Some(r.date)
    && item.summary == Some(r.content)
  }

  /**
   * The row INSERTed for an entry whose fingerprint `m` is not stored yet,
   * with `id` as the new row id. The content choice is evaluated first, then
   * the parameters in the order the dictionary lists them; the first missing
   * value ends the run.
   */
  function NewRow(md5: Hash, feed: Feed, item: RawEntry, link: string, id: nat): (r: Result<Row, Fault>)
    requires item.link == Some(link)
    ensures r.Success? <==> Insertable(feed, item)
    ensures r.Success? ==> RowOf(r.value, md5, feed, item) && r.value.id == id
  {
    match ChosenContent(item)
    case Failure(e) => Failure(e)
    case Success(_) =>
      if item.title.None? then Failure(KeyError("title"))
      else if feed.link.None? then Failure(KeyError("link"))
      else if feed.title.None? then Failure(KeyError("title"))
      else if item.updatedParsed.None? then Failure(KeyError("updated_parsed"))
      else if item.summary.None? then Failure(KeyError("summary"))
      else Success(Row(id, link, md5(link), item.title.value, feed.link.value,
                       feed.title.value, item.updatedParsed.value, item.summary.value))
  }

  /**
   * For every entry that has a `content` block and is stored, the content
   * choice picks the block's value, yet the stored content is the summary.
   */
  lemma ContentIsAlwaysSummary(md5: Hash, feed: Feed, item: RawEntry, link: string, id: nat)
    requires item.link == Some(link) && item.content.Some?
    requires NewRow(md5, feed, item, link, id).Success?
    ensures NewRow(md5, feed, item, link, id).value.content == item.summary.value
    ensures ChosenContent(item) == Success(item.content.value[0].value.value)
  {
  }
}
