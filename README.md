# News collector: deduplicating ingestion, curation and actor extraction

A Dafny model of the `NewsCollector` of the news-insights pipeline
(`news_insights/collector.py`), which reads RSS feeds, keeps only the entries it
has not seen before, turns them into news records tagged with the feed's
category, remembers their ids in a state file, projects them into the curated
news table and asks a language-model capability for the actors of each article.

Files:

- `wrappers.dfy` — `Option` and `Result`, standing for Python's `None` and for
  raised exceptions.
- `processor.dfy` — the shape of the capability's structured answer
  (`Actor`, `EventResponse`, the closed five-value category enum) and the
  capability itself as a function from text to outcome (`Analyzer`).
- `collector.dfy` — the records, `time_to_ts`, the ingestion filter and record
  build, the `NewsCollector` class with the state file as a field, the curation
  projection, the actor flattening, and the lemmas about them.

How the pieces are modelled:

- The state file is a field `stateFile: StateFile` of the collector, either
  `Missing`, `Malformed` or `Stored(ids)`. `LoadState` reads a missing or
  malformed file as no ids. `SaveState` overwrites it. The source logs and
  swallows a failed write, so how the write ends is a parameter `write`. If it is
  `Written`, the file holds the ids. If it is `OpenFailed`, the file is untouched.
  If it is `FailedAfterTruncation`, the open has already emptied the file, so the
  file is `Malformed` and the next load reads no ids.
- The ingestion step is specified by the function `Ingest` (what
  `download_entries` returns or raises) and `NextState` (the ids it saves).
  `DownloadEntries` is proved against them. Its two list comprehensions are the
  loops `SelectUnprocessed` and `BuildBatch`. The state is saved inside
  `download_entries`, before the caller stores any table
  (`news_insights/collector.py` line 115, against line 234).
- `time_to_ts` builds a `datetime` from the first six fields of the time
  structure. It fails when there are fewer than three fields or when a field is
  outside the ranges Python's `datetime` accepts, leap years included. One
  failing entry aborts the whole batch, and the state is then not saved.
- `thumbnail_url` is null when the entry has no `media_thumbnail`, the first
  thumbnail's url otherwise. A `media_thumbnail` that is an empty list raises.
- `curate_news` is the function `CurateNews` on rows.
- `extract_actors` is the method `ExtractActors`, which fills four parallel
  columns. It is proved against `Flatten`, the rows of all articles in input
  order, whose properties are proved as lemmas. Its inner loops are
  `AppendActorRows`.

Where the source falls short of what an exactly-once ingestion log is expected
to guarantee, the model follows the source:

- The saved id list is expected never to hold duplicates. The source
  guarantees this only when the feed's guids are distinct.
  `NoDuplicatesPreserved` proves it under that premise, and
  `RepeatedGuidIsSavedTwice` shows that a feed repeating a new guid saves it twice.
- Entries are expected to be marked processed only once their batch is stored.
  The source saves the ids inside `download_entries`, before any store.
- A save that fails after the open truncated the file loses the whole id list.
  `TruncatedStateReingestsAll` shows that the next step then takes every entry
  of the feed as pending again.

## Model

| member | source | states |
|---|---|---|
| `Processor.ParseCategory` | news_processor.py:22-26 | a category string reads as a category only if it is one of the five labels the schema lists, and then as the category with that label |
| `Processor.LabelRoundTrip` | news_processor.py:22-26 | every category is read back from its own label |
| `Collector.TimeToTs` | news_insights/collector.py:65-72 | a time structure converts only if it has at least three fields and they form a valid `datetime`; the result takes year, month and day from the first three fields and hour, minute, second from the next three, 0 when absent; every failure is a timestamp error |
| `Collector.TimeToTsRoundTrip` | news_insights/collector.py:65-72 | every valid timestamp is read back from its time structure, whatever fields follow the first six |
| `Collector.ThumbnailUrl` | news_insights/collector.py:98 | the thumbnail is null without `media_thumbnail`, the first thumbnail's url otherwise; an empty thumbnail list, and only that, raises |
| `Collector.ToRecord` | news_insights/collector.py:96-111 | a converted entry keeps its title, description and link, takes its guid as id and the feed name as category, and has a null thumbnail exactly when the entry has no `media_thumbnail`, the first thumbnail's url otherwise; it fails exactly when the timestamp is invalid or the thumbnail list is empty, with the timestamp error when both fail, and never with the no-pending error |
| `Collector.BuildRecords` | news_insights/collector.py:96-100 | the batch succeeds exactly when every entry converts, then has one record per entry in entry order; otherwise it fails with the error of the first entry that does not convert |
| `Collector.BuildBatch` | news_insights/collector.py:96-100 | the conversion loop returns exactly `BuildRecords` of its entries, stopping at the first failing entry |
| `Collector.Unprocessed` | news_insights/collector.py:89 | the filter never yields more entries than the feed has |
| `Collector.UnprocessedMembers` | news_insights/collector.py:89 | an entry is kept exactly when it is in the feed and its guid is not among the processed ids |
| `Collector.UnprocessedConcat` | news_insights/collector.py:89 | the filter distributes over concatenation of feeds, so kept entries stay in feed order |
| `Collector.UnprocessedSingle` | news_insights/collector.py:89 | a single entry is kept exactly when its guid is unprocessed |
| `Collector.UnprocessedDistinct` | news_insights/collector.py:89 | filtering a feed with distinct guids yields entries with distinct guids |
| `Collector.SelectUnprocessed` | news_insights/collector.py:89 | the comprehension loop returns exactly the unprocessed entries in feed order |
| `Collector.Ingest` | news_insights/collector.py:87-111 | the step fails with the no-pending error exactly when every feed guid is already processed; on success it returns at least one record, the record ids are the guids of the unprocessed entries in feed order, and every record's category is the feed name |
| `Collector.NextState` | news_insights/collector.py:114-115 | the saved ids start with the loaded ids, and are longer exactly when the step succeeds |
| `Collector.StateGrows` | news_insights/collector.py:114-115 | the old id list is a prefix of the saved one; on success the saved list is the old list followed by the unprocessed guids in entry order, and it is strictly longer |
| `Collector.NewIdsFresh` | news_insights/collector.py:89-115 | every id the step appends was absent from the state before it |
| `Collector.NoDuplicatesPreserved` | news_insights/collector.py:89-115 | if the old ids hold no duplicates and the feed's guids are distinct, the saved ids hold no duplicates |
| `Collector.RepeatedGuidIsSavedTwice` | news_insights/collector.py:89-115 | a feed that lists the same new guid twice makes the step save that guid twice, so the distinct-guid premise is needed |
| `Collector.TruncatedStateReingestsAll` | news_insights/collector.py:53-63 | after a save that fails past the truncation, the state loads as no ids and every entry of the feed is pending again |
| `Collector.IngestIdempotent` | news_insights/collector.py:87-115 | after a successful step, running it again on the same feed against the saved ids fails with the no-pending error |
| `Collector.FirstRunExample` | news_insights/collector.py:87-115 | from an empty state, entries a, b, c save the ids [a, b, c] in discovery order |
| `Collector.SecondRunExample` | news_insights/collector.py:87-115 | against [a, b, c], entries a, b, c, d give exactly one record, d, and save [a, b, c, d] |
| `Collector.CurateNews` | news_insights/collector.py:136-154 | curation keeps every row, in order, and each curated row has the seven fields of its raw row |
| `Collector.CurateLossless` | news_insights/collector.py:140-151 | the curated columns are all the raw columns: widening a curated batch gives back the raw batch, and every curated batch is the curation of its widening |
| `Collector.CurateConcat` | news_insights/collector.py:140-151 | curating a batch is curating its parts, so no row is filtered or reordered |
| `Collector.CuratedBatch` | news_insights/collector.py:103-111 | the curated rows of a successful step carry, in order, the guids of the unprocessed entries, none of them previously processed, and the feed name as category |
| `Collector.AnalysisText` | news_insights/collector.py:182 | the text is the title, one line break, then the description, each recoverable from its position |
| `Collector.ArticleRows` | news_insights/collector.py:183-201 | an article gives one row per main and other actor when the answer is parsed, none otherwise, each with the article's id |
| `Collector.Flatten` | news_insights/collector.py:175-205 | every actor row of a batch carries the id of one of its articles |
| `Collector.ArticleRowsShape` | news_insights/collector.py:185-201 | an article whose answer is `None` or raised gives no rows; otherwise it gives one row per main actor, then one per other actor, each with the article's id, the actor's name and role, and the main flag true exactly for the main actors |
| `Collector.FlattenConcat` | news_insights/collector.py:175-205 | articles contribute their rows in input order: the rows of a concatenation are the concatenation of the rows |
| `Collector.FlattenRowsReferToArticles` | news_insights/collector.py:189-201 | every actor row's news id is the id of an article of the batch |
| `Collector.FailedArticleIsolated` | news_insights/collector.py:180-205 | an article whose answer is `None` or raised contributes no rows, and the articles before and after it contribute theirs unchanged |
| `Collector.FlattenDependsOnlyOnTexts` | news_insights/collector.py:181-183 | the capability is consulted only on each article's title, a line break and its description: two capabilities that agree on those texts yield the same rows |
| `Collector.AppendActorRows` | news_insights/collector.py:189-201 | appending a list of actors to the four columns adds one row per actor, in order, with the given id and main flag, and keeps the columns of equal length |
| `Collector.NewsCollector.constructor` | news_insights/collector.py:36-43 | a new collector holds the given state file and capability |
| `Collector.NewsCollector.LoadState` | news_insights/collector.py:45-55 | loading gives the stored ids, or no ids when the file is missing or malformed |
| `Collector.NewsCollector.SaveState` | news_insights/collector.py:57-63 | a successful save replaces the file's content by the given ids; a failed open leaves the file unchanged; a failure after the open leaves a truncated file that loads as no ids |
| `Collector.NewsCollector.DownloadEntries` | news_insights/collector.py:74-120 | the step returns or raises as `Ingest` does on the loaded ids; on success the file then holds the old ids followed by the new ids if the write succeeds, is unchanged if the open fails, and is truncated if the write fails after the open; when the step raises the file is unchanged |
| `Collector.NewsCollector.ExtractActors` | news_insights/collector.py:156-213 | the four columns have equal length and, read row by row, are exactly the flattened actor rows of the articles in input order |

## Left out

- The feed fetch (`feedparser.parse`) is not modelled. The feed is given as a sequence of entries.
- Entries lacking a key the source reads (`guid`, `title`, `description`, `link`, `published_parsed`) and thumbnail dictionaries without a `url` are not modelled. They raise in the source.
- The JSON encoding of the state file is not modelled, and neither is a well-formed file holding something other than a list of strings.
- The columnar PyArrow table built by `download_entries` is a sequence of rows here. The Acero declaration taken and returned by `curate_news` is a function on rows.
- `TimeToTs` checks the fields and keeps them. It does not compute the 64-bit microsecond value.
- `store`, `process_feeds` and `create_press_releases_sources` are not modelled: they only wrap the Delta Lake writer and Acero, and loop over the fixed feed map. In the source, an exception from one feed's `download_entries`, including the no-pending error, leaves that loop, so later feeds are not attempted in that run. The earlier feeds of that run have already saved their new ids at line 115, but `process_feeds` never reaches `store` for them (lines 231-240). Those entries are then marked processed and never written. This happens whenever any feed has nothing new, which is the usual steady state.
- The capability call (`analyze_text` and the provider client), fine-tuning and file validation in news_processor.py are not modelled. The collector imports its processor from `news_insights/processor.py`, which is not part of this model. It is assumed to have the shape of news_processor.py.
- NewsCollector.ExtractActors: the capability is a function of the text, so two articles with the same title and description always get the same answer. The source samples its answer (temperature 0.7) over the network, so they may differ. `Flatten`, `ExtractActors` and `FlattenDependsOnlyOnTexts` rely on this determinism.
- The event category returned by the capability is dropped, as the source drops it: no table stores it.
- Logging is not modelled.
