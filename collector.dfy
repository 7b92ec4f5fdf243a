/**
 * The news collector (news_insights/collector.py): deduplicating ingestion of
 * feed entries against a persisted list of processed ids, the curation
 * projection, and the flattening of the enrichment capability's answers into
 * actor rows.
 *
 * The feed is given as a sequence of entries (the fetch is not modelled), the
 * state file as a field of the collector, and the enrichment capability as a
 * function from text to outcome. Tables are modelled row by row, except the
 * actor table, which keeps the four parallel columns the source builds.
 */
module Collector {
  import opened Wrappers
  import opened Processor

  // ---------------------------------------------------------------------------
  // Records

  /** A publication instant, the first six fields of the feed's time structure
      (microseconds are always zero). */
  datatype Timestamp = Timestamp(year: int, month: int, day: int, hour: int, minute: int, second: int)

  datatype Thumbnail = Thumbnail(url: string)

  /** One feed entry. `mediaThumbnail` is `None` when the entry has no such key. */
  datatype FeedEntry = FeedEntry(
    guid: string,
    title: string,
    description: string,
    link: string,
    publishedParsed: seq<int>,
    mediaThumbnail: Option<seq<Thumbnail>>)

  /** One row of the raw news table. `thumbnailUrl == None` is a null cell. */
  datatype RawNewsRecord = RawNewsRecord(
    title: string,
    publishedTime: Timestamp,
    description: string,
    link: string,
    id: string,
    thumbnailUrl: Option<string>,
    category: string)

  /** One row of the curated news table. */
  datatype CuratedNewsRecord = CuratedNewsRecord(
    title: string,
    publishedTime: Timestamp,
    description: string,
    link: string,
    id: string,
    thumbnailUrl: Option<string>,
    category: string)

  /** One (article, actor) pair. */
  datatype ActorRecord = ActorRecord(newsId: string, actorName: string, actorRole: string, isMainActor: bool)

  /** The actor table as the four parallel columns the extraction loop fills. */
  datatype ActorTable = ActorTable(newsId: seq<string>, actorName: seq<string>, actorRole: seq<string>, isMainActor: seq<bool>)

  /** Why `download_entries` raised. */
  datatype IngestError =
    | NoRecordsPending   // the EOFError: every entry was processed already
    | TimestampError     // `published_parsed` is not a valid date and time
    | ThumbnailError     // `media_thumbnail` is present but an empty list

  /** The content of the state file. An empty or partly written file is `Malformed`. */
  datatype StateFile = Missing | Malformed | Stored(ids: seq<string>)

  /** How the write of `save_state` ends. Opening for writing truncates the file, so a
      failure after the open leaves an empty or partial file; every failure is logged
      and swallowed. */
  datatype WriteOutcome =
    | Written                // the ids were dumped and the file closed
    | OpenFailed             // the open raised: the file is untouched
    | FailedAfterTruncation  // the dump or the close raised: the file is cut short

  // ---------------------------------------------------------------------------
  // Helpers on sequences

  function Guids(entries: seq<FeedEntry>): seq<string> {
    seq(|entries|, i requires 0 <= i < |entries| => entries[i].guid)
  }

  function Ids(records: seq<RawNewsRecord>): seq<string> {
    seq(|records|, i requires 0 <= i < |records| => records[i].id)
  }

  predicate NoDuplicates(s: seq<string>) {
    forall i, j :: 0 <= i < j < |s| ==> s[i] != s[j]
  }

  predicate DistinctGuids(entries: seq<FeedEntry>) {
    forall i, j :: 0 <= i < j < |entries| ==> entries[i].guid != entries[j].guid
  }

  // ---------------------------------------------------------------------------
  // State file

  /** What `load_state` reads: a missing or malformed file reads as no ids. */
  function Loaded(file: StateFile): seq<string> {
    if file.Stored? then file.ids else []
  }

  // ---------------------------------------------------------------------------
  // time_to_ts

  predicate IsLeapYear(y: int) {
    y % 4 == 0 && (y % 100 != 0 || y % 400 == 0)
  }

  function DaysInMonth(year: int, month: int): int
    requires 1 <= month <= 12
  {
    if month == 2 then (if IsLeapYear(year) then 29 else 28)
    else if month == 4 || month == 6 || month == 9 || month == 11 then 30
    else 31
  }

  /** The ranges Python's `datetime` constructor accepts. */
  predicate ValidTimestamp(t: Timestamp) {
    && 1 <= t.year <= 9999
    && 1 <= t.month <= 12
    && 1 <= t.day <= DaysInMonth(t.year, t.month)
    && 0 <= t.hour < 24
    && 0 <= t.minute < 60
    && 0 <= t.second < 60
  }

  /** Field `k` of a time structure, or the `datetime` default 0 when it is absent. */
  function FieldOr(fields: seq<int>, k: nat): int {
    if k < |fields| then fields[k] else 0
  }

  /** The time structure a timestamp is read from, followed by any further fields. */
  function TimeStructOf(t: Timestamp, rest: seq<int>): seq<int> {
    [t.year, t.month, t.day, t.hour, t.minute, t.second] + rest
  }

  /** `time_to_ts`: builds a `datetime` from the first six fields of the time structure;
      fewer than three fields or an out-of-range field raises. */
  function TimeToTs(timeStruct: seq<int>): (r: Result<Timestamp, IngestError>)
    ensures r.Failure? ==> r.error == TimestampError
    ensures r.Success? ==>
      && |timeStruct| >= 3
      && ValidTimestamp(r.value)
      && r.value.year == timeStruct[0] && r.value.month == timeStruct[1] && r.value.day == timeStruct[2]
      && r.value.hour == FieldOr(timeStruct, 3)
      && r.value.minute == FieldOr(timeStruct, 4)
      && r.value.second == FieldOr(timeStruct, 5)
  {
    if |timeStruct| < 3 then Failure(TimestampError)
    else
      var t := Timestamp(timeStruct[0], timeStruct[1], timeStruct[2],
                         FieldOr(timeStruct, 3), FieldOr(timeStruct, 4), FieldOr(timeStruct, 5));
      if ValidTimestamp(t) then Success(t) else Failure(TimestampError)
  }

  /** Every valid timestamp is read back from its time structure, whatever follows the
      first six fields. */
  lemma TimeToTsRoundTrip(t: Timestamp, rest: seq<int>)
    requires ValidTimestamp(t)
    ensures TimeToTs(TimeStructOf(t, rest)) == Success(t)
  {
  }

  // ---------------------------------------------------------------------------
  // Building raw records

  /** The thumbnail cell: null without `media_thumbnail`, otherwise the url of the
      first thumbnail; an empty thumbnail list raises. */
  function ThumbnailUrl(media: Option<seq<Thumbnail>>): (r: Result<Option<string>, IngestError>)
    ensures r.Failure? <==> media == Some([])
    ensures r.Failure? ==> r.error == ThumbnailError
    ensures r.Success? ==> (r.value.None? <==> media.None?)
    ensures r.Success? && media.Some? ==> media.value != [] && r.value == Some(media.value[0].url)
  {
    match media
    case None => Success(None)
    case Some(thumbnails) =>
      if thumbnails == [] then Failure(ThumbnailError) else Success(Some(thumbnails[0].url))
  }

  /** One entry as a raw record tagged with the feed's category. */
  function ToRecord(rssId: string, e: FeedEntry): (r: Result<RawNewsRecord, IngestError>)
    ensures r.Success? ==>
      && r.value.id == e.guid
      && r.value.title == e.title
      && r.value.description == e.description
      && r.value.link == e.link
      && r.value.category == rssId
      && TimeToTs(e.publishedParsed) == Success(r.value.publishedTime)
      && (r.value.thumbnailUrl.None? <==> e.mediaThumbnail.None?)
    ensures r.Success? && e.mediaThumbnail.Some? ==>
      e.mediaThumbnail.value != [] && r.value.thumbnailUrl == Some(e.mediaThumbnail.value[0].url)
    ensures r.Failure? <==> TimeToTs(e.publishedParsed).Failure? || e.mediaThumbnail == Some([])
    ensures TimeToTs(e.publishedParsed).Failure? ==> r == Failure(TimestampError)
    ensures TimeToTs(e.publishedParsed).Success? && e.mediaThumbnail == Some([]) ==> r == Failure(ThumbnailError)
    ensures r.Failure? ==> r.error != NoRecordsPending
  {
    match TimeToTs(e.publishedParsed)
    case Failure(err) => Failure(err)
    case Success(ts) =>
      match ThumbnailUrl(e.mediaThumbnail)
      case Failure(err) => Failure(err)
      case Success(url) => Success(RawNewsRecord(e.title, ts, e.description, e.link, e.guid, url, rssId))
  }

  /** The records of a batch, in entry order; the first entry that cannot be converted
      aborts the whole batch with its error. */
  function BuildRecords(rssId: string, entries: seq<FeedEntry>): (r: Result<seq<RawNewsRecord>, IngestError>)
    ensures r.Success? <==> forall i :: 0 <= i < |entries| ==> ToRecord(rssId, entries[i]).Success?
    ensures r.Success? ==>
      && |r.value| == |entries|
      && forall i :: 0 <= i < |entries| ==> ToRecord(rssId, entries[i]) == Success(r.value[i])
    ensures r.Failure? ==>
      exists k :: 0 <= k < |entries|
        && ToRecord(rssId, entries[k]) == Failure(r.error)
        && forall i :: 0 <= i < k ==> ToRecord(rssId, entries[i]).Success?
  {
    if entries == [] then Success([])
    else
      match ToRecord(rssId, entries[0])
      case Failure(err) => Failure(err)
      case Success(head) =>
        match BuildRecords(rssId, entries[1..])
        case Failure(err) =>
          assert forall k :: 0 <= k < |entries| - 1 ==> entries[1..][k] == entries[k + 1];
          Failure(err)
        case Success(tail) => Success([head] + tail)
  }

  // ---------------------------------------------------------------------------
  // Filtering against the processed ids

  /** The entries whose guid is not among the processed ids, in feed order. */
  function Unprocessed(feed: seq<FeedEntry>, processed: seq<string>): (pending: seq<FeedEntry>)
    ensures |pending| <= |feed|
  {
    if feed == [] then []
    else if feed[0].guid in processed then Unprocessed(feed[1..], processed)
    else [feed[0]] + Unprocessed(feed[1..], processed)
  }

  /** The kept entries are exactly the feed's entries with an unprocessed guid. */
  lemma {:induction false} UnprocessedMembers(feed: seq<FeedEntry>, processed: seq<string>)
    ensures forall e :: e in Unprocessed(feed, processed) <==> e in feed && e.guid !in processed
  {
    if feed != [] {
      UnprocessedMembers(feed[1..], processed);
      assert forall e :: e in feed <==> e == feed[0] || e in feed[1..];
    }
  }

  /** The filter works entry by entry: it distributes over concatenation, so the kept
      entries keep their feed order. */
  lemma {:induction false} UnprocessedConcat(a: seq<FeedEntry>, b: seq<FeedEntry>, processed: seq<string>)
    ensures Unprocessed(a + b, processed) == Unprocessed(a, processed) + Unprocessed(b, processed)
  {
    if a == [] {
      assert a + b == b;
    } else {
      assert (a + b)[0] == a[0];
      assert (a + b)[1..] == a[1..] + b;
      UnprocessedConcat(a[1..], b, processed);
    }
  }

  /** A single entry is kept exactly when its guid is unprocessed. */
  lemma UnprocessedSingle(e: FeedEntry, processed: seq<string>)
    ensures Unprocessed([e], processed) == if e.guid in processed then [] else [e]
  {
  }

  /** Filtering keeps distinct guids distinct. */
  lemma {:induction false} UnprocessedDistinct(feed: seq<FeedEntry>, processed: seq<string>)
    requires DistinctGuids(feed)
    ensures DistinctGuids(Unprocessed(feed, processed))
  {
    if feed != [] {
      var rest := feed[1..];
      assert DistinctGuids(rest) by {
        forall i, j | 0 <= i < j < |rest| ensures rest[i].guid != rest[j].guid {
          assert rest[i] == feed[i + 1] && rest[j] == feed[j + 1];
        }
      }
      UnprocessedDistinct(rest, processed);
      UnprocessedMembers(rest, processed);
      if feed[0].guid !in processed {
        var tail := Unprocessed(rest, processed);
        var pending := [feed[0]] + tail;
        forall i, j | 0 <= i < j < |pending| ensures pending[i].guid != pending[j].guid {
          if i == 0 {
            assert pending[j] == tail[j - 1];
            assert tail[j - 1] in rest;
            var k :| 0 <= k < |rest| && rest[k] == tail[j - 1];
            assert feed[k + 1] == rest[k];
          } else {
            assert pending[i] == tail[i - 1] && pending[j] == tail[j - 1];
          }
        }
      }
    }
  }

  // ---------------------------------------------------------------------------
  // The ingestion step as a function of the feed and the loaded ids

  /** What `download_entries` returns or raises. */
  function Ingest(rssId: string, feed: seq<FeedEntry>, processed: seq<string>): (r: Result<seq<RawNewsRecord>, IngestError>)
    ensures r == Failure(NoRecordsPending) <==> forall e :: e in feed ==> e.guid in processed
    ensures r.Success? ==> |r.value| > 0 && Ids(r.value) == Guids(Unprocessed(feed, processed))
    ensures r.Success? ==> forall rec :: rec in r.value ==> rec.category == rssId
  {
    var pending := Unprocessed(feed, processed);
    UnprocessedMembers(feed, processed);
    if pending == [] then Failure(NoRecordsPending)
    else
      var r := BuildRecords(rssId, pending);
      if r.Success? then
        assert forall i :: 0 <= i < |pending| ==> ToRecord(rssId, pending[i]) == Success(r.value[i]);
        r
      else
        r
  }

  /** The ids saved after the step: the old list followed by the new ids on success,
      the old list otherwise. */
  function NextState(rssId: string, feed: seq<FeedEntry>, processed: seq<string>): (saved: seq<string>)
    ensures processed <= saved
    ensures |saved| > |processed| <==> Ingest(rssId, feed, processed).Success?
  {
    match Ingest(rssId, feed, processed)
    case Success(records) => processed + Ids(records)
    case Failure(_) => processed
  }

  /** The saved state only grows: the old list is a prefix, and a successful step adds
      exactly the guids of the unprocessed entries, in entry order. */
  lemma StateGrows(rssId: string, feed: seq<FeedEntry>, processed: seq<string>)
    ensures processed <= NextState(rssId, feed, processed)
    ensures Ingest(rssId, feed, processed).Success? ==>
      && NextState(rssId, feed, processed) == processed + Guids(Unprocessed(feed, processed))
      && |NextState(rssId, feed, processed)| > |processed|
  {
  }

  /** Every id added by a step was absent from the state before it. */
  lemma NewIdsFresh(rssId: string, feed: seq<FeedEntry>, processed: seq<string>)
    ensures forall k :: |processed| <= k < |NextState(rssId, feed, processed)| ==>
      NextState(rssId, feed, processed)[k] !in processed
  {
    var next := NextState(rssId, feed, processed);
    if Ingest(rssId, feed, processed).Success? {
      var pending := Unprocessed(feed, processed);
      UnprocessedMembers(feed, processed);
      forall k | |processed| <= k < |next| ensures next[k] !in processed {
        assert next[k] == Guids(pending)[k - |processed|];
        assert pending[k - |processed|] in pending;
      }
    }
  }

  /** The guids of entries with distinct guids hold no duplicates. */
  lemma GuidsNoDuplicates(entries: seq<FeedEntry>)
    requires DistinctGuids(entries)
    ensures NoDuplicates(Guids(entries))
  {
  }

  /** Appending a list without duplicates, none of whose elements is already present,
      keeps a list without duplicates. */
  lemma AppendFreshNoDuplicates(xs: seq<string>, ys: seq<string>)
    requires NoDuplicates(xs) && NoDuplicates(ys)
    requires forall k :: 0 <= k < |ys| ==> ys[k] !in xs
    ensures NoDuplicates(xs + ys)
  {
  }

  /** A state without duplicates stays without duplicates when the feed's guids are
      distinct. */
  lemma NoDuplicatesPreserved(rssId: string, feed: seq<FeedEntry>, processed: seq<string>)
    requires NoDuplicates(processed)
    requires DistinctGuids(feed)
    ensures NoDuplicates(NextState(rssId, feed, processed))
  {
    if Ingest(rssId, feed, processed).Success? {
      var pending := Unprocessed(feed, processed);
      var added := Guids(pending);
      UnprocessedDistinct(feed, processed);
      GuidsNoDuplicates(pending);
      NewIdsFresh(rssId, feed, processed);
      assert NextState(rssId, feed, processed) == processed + added;
      forall k | 0 <= k < |added| ensures added[k] !in processed {
        assert added[k] == NextState(rssId, feed, processed)[|processed| + k];
      }
      AppendFreshNoDuplicates(processed, added);
    }
  }

  /** After a save that failed past the truncation, the state loads as no ids, so the next
      step takes every entry of the feed as pending again. */
  lemma {:induction false} TruncatedStateReingestsAll(feed: seq<FeedEntry>)
    ensures Unprocessed(feed, Loaded(Malformed)) == feed
  {
    if feed != [] {
      TruncatedStateReingestsAll(feed[1..]);
    }
  }

  /** The premise on distinct feed guids is needed: a feed that repeats an unprocessed
      guid saves it twice. */
  lemma RepeatedGuidIsSavedTwice(e: FeedEntry)
    requires TimeToTs(e.publishedParsed).Success? && e.mediaThumbnail.None?
    ensures NextState("Technology", [e, e], []) == [e.guid, e.guid]
  {
    var feed := [e, e];
    assert Unprocessed(feed, []) == feed by {
      UnprocessedConcat([e], [e], []);
      UnprocessedSingle(e, []);
      assert feed == [e] + [e];
    }
  }

  /** Running the step again on the same feed, against the state it saved, finds nothing
      pending. */
  lemma IngestIdempotent(rssId: string, feed: seq<FeedEntry>, processed: seq<string>, rssId2: string)
    requires Ingest(rssId, feed, processed).Success?
    ensures Ingest(rssId2, feed, NextState(rssId, feed, processed)) == Failure(NoRecordsPending)
  {
    var next := NextState(rssId, feed, processed);
    var pending := Unprocessed(feed, processed);
    UnprocessedMembers(feed, processed);
    forall e | e in feed ensures e.guid in next {
      if e.guid !in processed {
        assert e in pending;
        var k :| 0 <= k < |pending| && pending[k] == e;
        assert next[|processed| + k] == e.guid;
      }
    }
  }

  /** A first run: an empty state and entries with guids a, b, c save [a, b, c], in
      discovery order. */
  lemma FirstRunExample(a: FeedEntry, b: FeedEntry, c: FeedEntry)
    requires a.guid == "a" && b.guid == "b" && c.guid == "c"
    requires ToRecord("Technology", a).Success? && ToRecord("Technology", b).Success?
    requires ToRecord("Technology", c).Success?
    ensures NextState("Technology", [a, b, c], []) == ["a", "b", "c"]
  {
    UnprocessedSingle(a, []);
    UnprocessedSingle(b, []);
    UnprocessedSingle(c, []);
    UnprocessedConcat([a], [b], []);
    UnprocessedConcat([a, b], [c], []);
    assert [a] + [b] == [a, b] && [a, b] + [c] == [a, b, c];
    assert Unprocessed([a, b, c], []) == [a, b, c];
    assert forall i :: 0 <= i < 3 ==> ToRecord("Technology", [a, b, c][i]).Success?;
    assert Guids([a, b, c]) == ["a", "b", "c"];
  }

  /** A second run: against [a, b, c], the same entries plus one with guid d give
      exactly one new record, d, and the state [a, b, c, d]. */
  lemma SecondRunExample(a: FeedEntry, b: FeedEntry, c: FeedEntry, d: FeedEntry)
    requires a.guid == "a" && b.guid == "b" && c.guid == "c" && d.guid == "d"
    requires ToRecord("Technology", d).Success?
    ensures Ingest("Technology", [a, b, c, d], ["a", "b", "c"]).Success?
    ensures Ids(Ingest("Technology", [a, b, c, d], ["a", "b", "c"]).value) == ["d"]
    ensures NextState("Technology", [a, b, c, d], ["a", "b", "c"]) == ["a", "b", "c", "d"]
  {
    var seen := ["a", "b", "c"];
    assert "a" in seen && "b" in seen && "c" in seen && "d" !in seen;
    UnprocessedSingle(a, seen);
    UnprocessedSingle(b, seen);
    UnprocessedSingle(c, seen);
    UnprocessedSingle(d, seen);
    UnprocessedConcat([a], [b], seen);
    UnprocessedConcat([a, b], [c], seen);
    UnprocessedConcat([a, b, c], [d], seen);
    assert [a] + [b] == [a, b] && [a, b] + [c] == [a, b, c] && [a, b, c] + [d] == [a, b, c, d];
    assert Unprocessed([a, b, c, d], seen) == [d];
    assert Guids([d]) == ["d"];
  }

  // ---------------------------------------------------------------------------
  // Curation

  function Project(r: RawNewsRecord): CuratedNewsRecord {
    CuratedNewsRecord(r.title, r.publishedTime, r.description, r.link, r.id, r.thumbnailUrl, r.category)
  }

  /** The raw record a curated record was projected from. */
  function Widen(c: CuratedNewsRecord): RawNewsRecord {
    RawNewsRecord(c.title, c.publishedTime, c.description, c.link, c.id, c.thumbnailUrl, c.category)
  }

  /** `curate_news`: the projection onto the seven curated columns, with no row
      filtered or reordered. */
  function CurateNews(raw: seq<RawNewsRecord>): (curated: seq<CuratedNewsRecord>)
    ensures |curated| == |raw|
    ensures forall i :: 0 <= i < |raw| ==>
      && curated[i].title == raw[i].title
      && curated[i].publishedTime == raw[i].publishedTime
      && curated[i].description == raw[i].description
      && curated[i].link == raw[i].link
      && curated[i].id == raw[i].id
      && curated[i].thumbnailUrl == raw[i].thumbnailUrl
      && curated[i].category == raw[i].category
  {
    seq(|raw|, i requires 0 <= i < |raw| => Project(raw[i]))
  }

  /** The curated columns are all the raw columns: curation loses nothing, and every
      curated batch is the curation of some raw batch. */
  lemma CurateLossless(raw: seq<RawNewsRecord>, curated: seq<CuratedNewsRecord>)
    ensures seq(|raw|, i requires 0 <= i < |raw| => Widen(CurateNews(raw)[i])) == raw
    ensures CurateNews(seq(|curated|, i requires 0 <= i < |curated| => Widen(curated[i]))) == curated
  {
  }

  /** Curating a batch is curating its parts. */
  lemma CurateConcat(a: seq<RawNewsRecord>, b: seq<RawNewsRecord>)
    ensures CurateNews(a + b) == CurateNews(a) + CurateNews(b)
  {
  }

  /** The curated rows of a successful step carry the new ids in entry order and the
      feed's category. */
  lemma CuratedBatch(rssId: string, feed: seq<FeedEntry>, processed: seq<string>)
    requires Ingest(rssId, feed, processed).Success?
    ensures var curated := CurateNews(Ingest(rssId, feed, processed).value);
      && |curated| == |Unprocessed(feed, processed)|
      && forall i :: 0 <= i < |curated| ==>
           curated[i].id == Unprocessed(feed, processed)[i].guid && curated[i].id !in processed
           && curated[i].category == rssId
  {
    var records := Ingest(rssId, feed, processed).value;
    var pending := Unprocessed(feed, processed);
    UnprocessedMembers(feed, processed);
    assert |Ids(records)| == |Guids(pending)|;
    forall i | 0 <= i < |records|
      ensures records[i].id == pending[i].guid && records[i].id !in processed && records[i].category == rssId
    {
      assert Ids(records)[i] == Guids(pending)[i];
      assert pending[i] in pending;
      assert records[i] in records;
    }
  }

  // ---------------------------------------------------------------------------
  // Actor extraction

  /** The ids of a batch of articles, in order. */
  function ArticleIds(articles: seq<CuratedNewsRecord>): seq<string> {
    seq(|articles|, i requires 0 <= i < |articles| => articles[i].id)
  }

  /** The text sent to the capability for one article: its title, a line break, and
      its description. */
  function AnalysisText(article: CuratedNewsRecord): (text: string)
    ensures |text| == |article.title| + 1 + |article.description|
    ensures text[..|article.title|] == article.title
    ensures text[|article.title|] == '\n'
    ensures text[|article.title| + 1..] == article.description
  {
    article.title + "\n" + article.description
  }

  /** One row per actor, in list order, tagged with the article id. */
  function ActorRows(newsId: string, actors: seq<Actor>, isMain: bool): seq<ActorRecord> {
    seq(|actors|, k requires 0 <= k < |actors| => ActorRecord(newsId, actors[k].name, actors[k].role, isMain))
  }

  /** The rows one article contributes: its main actors, then its other actors; nothing
      when the capability returned `None` or raised. */
  function ArticleRows(newsId: string, outcome: Analysis): (rows: seq<ActorRecord>)
    ensures |rows| == if outcome.Returned? && outcome.parsed.Some?
                      then |outcome.parsed.value.mainActors| + |outcome.parsed.value.otherActors|
                      else 0
    ensures forall r :: r in rows ==> r.newsId == newsId
  {
    match outcome
    case Returned(Some(response)) =>
      ActorRows(newsId, response.mainActors, true) + ActorRows(newsId, response.otherActors, false)
    case _ => []
  }

  /** All actor rows of a batch of articles, article by article in input order. */
  function Flatten(articles: seq<CuratedNewsRecord>, analyze: Analyzer): (rows: seq<ActorRecord>)
    ensures forall r :: r in rows ==> r.newsId in ArticleIds(articles)
  {
    if articles == [] then []
    else
      var head := ArticleRows(articles[0].id, analyze(AnalysisText(articles[0])));
      var tail := Flatten(articles[1..], analyze);
      assert ArticleIds(articles) == [articles[0].id] + ArticleIds(articles[1..]);
      head + tail
  }

  /** Every actor row refers to an article of the batch. */
  lemma {:induction false} FlattenRowsReferToArticles(articles: seq<CuratedNewsRecord>, analyze: Analyzer)
    ensures forall r :: r in Flatten(articles, analyze) ==> exists a :: a in articles && r.newsId == a.id
  {
    if articles != [] {
      FlattenRowsReferToArticles(articles[1..], analyze);
      forall r | r in Flatten(articles, analyze) ensures exists a :: a in articles && r.newsId == a.id {
        if r in Flatten(articles[1..], analyze) {
          var a :| a in articles[1..] && r.newsId == a.id;
          assert a in articles;
        } else {
          assert articles[0] in articles;
        }
      }
    }
  }

  /** The rows of one article: every row carries its id; main actors come first, in list
      order, then the other actors. */
  lemma ArticleRowsShape(newsId: string, outcome: Analysis)
    ensures outcome.Raised? || outcome.parsed.None? ==> ArticleRows(newsId, outcome) == []
    ensures outcome.Returned? && outcome.parsed.Some? ==>
      var main := outcome.parsed.value.mainActors;
      var other := outcome.parsed.value.otherActors;
      var rows := ArticleRows(newsId, outcome);
      && |rows| == |main| + |other|
      && forall k :: 0 <= k < |rows| ==>
           && rows[k].newsId == newsId
           && (rows[k].isMainActor <==> k < |main|)
           && (k < |main| ==> rows[k].actorName == main[k].name && rows[k].actorRole == main[k].role)
           && (k >= |main| ==> rows[k].actorName == other[k - |main|].name && rows[k].actorRole == other[k - |main|].role)
  {
  }

  /** Articles contribute their rows in input order: flattening distributes over
      concatenation of article batches. */
  lemma {:induction false} FlattenConcat(a: seq<CuratedNewsRecord>, b: seq<CuratedNewsRecord>, analyze: Analyzer)
    ensures Flatten(a + b, analyze) == Flatten(a, analyze) + Flatten(b, analyze)
  {
    if a == [] {
      assert a + b == b;
    } else {
      assert (a + b)[0] == a[0];
      assert (a + b)[1..] == a[1..] + b;
      FlattenConcat(a[1..], b, analyze);
    }
  }

  /** A single article contributes the rows of its own answer. */
  lemma FlattenSingle(article: CuratedNewsRecord, analyze: Analyzer)
    ensures Flatten([article], analyze) == ArticleRows(article.id, analyze(AnalysisText(article)))
  {
  }

  /** The rows of a prefix of the articles grow by the rows of the next article. */
  lemma FlattenPrefix(articles: seq<CuratedNewsRecord>, i: nat, analyze: Analyzer)
    requires i < |articles|
    ensures Flatten(articles[..i + 1], analyze)
         == Flatten(articles[..i], analyze) + ArticleRows(articles[i].id, analyze(AnalysisText(articles[i])))
  {
    assert articles[..i + 1] == articles[..i] + [articles[i]];
    FlattenConcat(articles[..i], [articles[i]], analyze);
    FlattenSingle(articles[i], analyze);
  }

  /** A failed article contributes no rows and does not stop the articles after it. */
  lemma FailedArticleIsolated(before: seq<CuratedNewsRecord>, article: CuratedNewsRecord, after: seq<CuratedNewsRecord>, analyze: Analyzer)
    requires analyze(AnalysisText(article)).Raised? || analyze(AnalysisText(article)).parsed.None?
    ensures Flatten(before + [article] + after, analyze) == Flatten(before, analyze) + Flatten(after, analyze)
  {
    var prefix := before + [article];
    FlattenSingle(article, analyze);
    FlattenConcat(before, [article], analyze);
    assert Flatten(prefix, analyze) == Flatten(before, analyze);
    FlattenConcat(prefix, after, analyze);
  }

  /** The capability is consulted only on each article's title, a line break and its
      description: two capabilities that agree on those texts give the same rows. */
  lemma {:induction false} FlattenDependsOnlyOnTexts(articles: seq<CuratedNewsRecord>, f: Analyzer, g: Analyzer)
    requires forall a :: a in articles ==> f(a.title + "\n" + a.description) == g(a.title + "\n" + a.description)
    ensures Flatten(articles, f) == Flatten(articles, g)
  {
    if articles != [] {
      assert articles[0] in articles;
      FlattenDependsOnlyOnTexts(articles[1..], f, g);
    }
  }

  /** The four columns, read row by row, are exactly `rows`. */
  predicate Tabulates(t: ActorTable, rows: seq<ActorRecord>) {
    && |t.newsId| == |rows|
    && |t.actorName| == |rows|
    && |t.actorRole| == |rows|
    && |t.isMainActor| == |rows|
    && forall k :: 0 <= k < |rows| ==>
         ActorRecord(t.newsId[k], t.actorName[k], t.actorRole[k], t.isMainActor[k]) == rows[k]
  }

  // ---------------------------------------------------------------------------
  // The collector

  class NewsCollector {
    /** The content of the state file at `state_file`. */
    var stateFile: StateFile
    /** The enrichment capability held as `news_processor`. */
    const analyze: Analyzer

    constructor (stateFile: StateFile, analyze: Analyzer)
      ensures this.stateFile == stateFile && this.analyze == analyze
    {
      this.stateFile := stateFile;
      this.analyze := analyze;
    }

    /** `load_state`: the stored ids, or none when the file is missing or malformed. */
    method LoadState() returns (ids: seq<string>)
      ensures stateFile.Stored? ==> ids == stateFile.ids
      ensures !stateFile.Stored? ==> ids == []
      ensures ids == Loaded(stateFile)
    {
      match stateFile
      case Stored(stored) => ids := stored;
      case Missing => ids := [];
      case Malformed => ids := [];
    }

    /** `save_state`: overwrites the file with `ids`. A failed open leaves the file as it
        was; a failure after the open leaves a truncated file, which loads as no ids. */
    method SaveState(ids: seq<string>, write: WriteOutcome)
      modifies this
      ensures stateFile == match write
        case Written => Stored(ids)
        case OpenFailed => old(stateFile)
        case FailedAfterTruncation => Malformed
      ensures write.Written? ==> Loaded(stateFile) == ids
      ensures write.FailedAfterTruncation? ==> Loaded(stateFile) == []
    {
      match write
      case Written => stateFile := Stored(ids);
      case OpenFailed =>
      case FailedAfterTruncation => stateFile := Malformed;
    }

    /** `download_entries` for the feed `rssId`, given the fetched entries; `write` is how
        the save of the state ends. The state is saved here, before the caller stores
        any table. */
    method DownloadEntries(rssId: string, feed: seq<FeedEntry>, write: WriteOutcome)
      returns (r: Result<seq<RawNewsRecord>, IngestError>)
      modifies this
      ensures r == Ingest(rssId, feed, Loaded(old(stateFile)))
      ensures r.Failure? ==> stateFile == old(stateFile)
      ensures r.Success? ==> stateFile == match write
        case Written => Stored(Loaded(old(stateFile)) + Ids(r.value))
        case OpenFailed => old(stateFile)
        case FailedAfterTruncation => Malformed
      ensures r.Success? && write.Written? ==> Loaded(stateFile) == NextState(rssId, feed, Loaded(old(stateFile)))
    {
      var processed := LoadState();
      var pending := SelectUnprocessed(feed, processed);
      if pending == [] {
        return Failure(NoRecordsPending);
      }
      r := BuildBatch(rssId, pending);
      if r.Success? {
        var newIds := Ids(r.value);
        SaveState(processed + newIds, write);
      }
    }

    /** `extract_actors`: for each article in order, asks the capability about its
        title and description and appends one row per main actor, then one per other
        actor, to four parallel columns; an article whose answer is `None` or raised
        adds nothing. */
    method ExtractActors(articles: seq<CuratedNewsRecord>) returns (table: ActorTable)
      ensures |table.newsId| == |table.actorName| == |table.actorRole| == |table.isMainActor|
      ensures Tabulates(table, Flatten(articles, analyze))
    {
      table := ActorTable([], [], [], []);
      ghost var done: seq<ActorRecord> := [];

      for i := 0 to |articles|
        invariant done == Flatten(articles[..i], analyze)
        invariant Tabulates(table, done)
      {
        var article := articles[i];
        FlattenPrefix(articles, i, analyze);
        var text := AnalysisText(article);
        var result := analyze(text);
        if result.Raised? || result.parsed.None? {
          assert done + ArticleRows(article.id, result) == done;
          continue;
        }
        var response := result.parsed.value;
        ghost var mainRows := ActorRows(article.id, response.mainActors, true);
        ghost var otherRows := ActorRows(article.id, response.otherActors, false);
        table := AppendActorRows(table, done, article.id, response.mainActors, true);
        table := AppendActorRows(table, done + mainRows, article.id, response.otherActors, false);
        assert ArticleRows(article.id, result) == mainRows + otherRows;
        assert done + mainRows + otherRows == done + ArticleRows(article.id, result);
        done := done + ArticleRows(article.id, result);
      }
      assert articles[..|articles|] == articles;
    }
  }

  /** The list comprehension of `download_entries` that keeps the entries whose guid is
      not among the processed ids. */
  method SelectUnprocessed(feed: seq<FeedEntry>, processed: seq<string>) returns (pending: seq<FeedEntry>)
    ensures pending == Unprocessed(feed, processed)
  {
    pending := [];
    for i := 0 to |feed|
      invariant pending == Unprocessed(feed[..i], processed)
    {
      assert feed[..i + 1] == feed[..i] + [feed[i]];
      UnprocessedConcat(feed[..i], [feed[i]], processed);
      UnprocessedSingle(feed[i], processed);
      if feed[i].guid !in processed {
        pending := pending + [feed[i]];
      }
    }
    assert feed[..|feed|] == feed;
  }

  /** The record-building comprehension of `download_entries`: converts the entries in
      order and stops at the first one that raises. */
  method BuildBatch(rssId: string, entries: seq<FeedEntry>) returns (r: Result<seq<RawNewsRecord>, IngestError>)
    ensures r == BuildRecords(rssId, entries)
  {
    var records: seq<RawNewsRecord> := [];
    for j := 0 to |entries|
      invariant |records| == j
      invariant forall i :: 0 <= i < j ==> ToRecord(rssId, entries[i]) == Success(records[i])
    {
      var record := ToRecord(rssId, entries[j]);
      if record.Failure? {
        ghost var built := BuildRecords(rssId, entries);
        ghost var k :| 0 <= k < |entries| && ToRecord(rssId, entries[k]) == Failure(built.error)
          && forall i :: 0 <= i < k ==> ToRecord(rssId, entries[i]).Success?;
        assert k == j;
        return Failure(record.error);
      }
      records := records + [record.value];
    }
    assert BuildRecords(rssId, entries).value == records;
    return Success(records);
  }

  /** One inner loop of `extract_actors`: appends a row per actor, in list order, to each
      of the four columns. */
  method AppendActorRows(table: ActorTable, ghost rows: seq<ActorRecord>, newsId: string, actors: seq<Actor>, isMain: bool)
    returns (extended: ActorTable)
    requires Tabulates(table, rows)
    ensures Tabulates(extended, rows + ActorRows(newsId, actors, isMain))
  {
    var newsIds, actorNames, actorRoles, isMainActor := table.newsId, table.actorName, table.actorRole, table.isMainActor;
    for j := 0 to |actors|
      invariant Tabulates(ActorTable(newsIds, actorNames, actorRoles, isMainActor), rows + ActorRows(newsId, actors[..j], isMain))
    {
      var actor := actors[j];
      assert ActorRows(newsId, actors[..j + 1], isMain)
          == ActorRows(newsId, actors[..j], isMain) + [ActorRecord(newsId, actor.name, actor.role, isMain)];
      newsIds := newsIds + [newsId];
      actorNames := actorNames + [actor.name];
      actorRoles := actorRoles + [actor.role];
      isMainActor := isMainActor + [isMain];
    }
    assert actors[..|actors|] == actors;
    extended := ActorTable(newsIds, actorNames, actorRoles, isMainActor);
  }
}
