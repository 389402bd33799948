/**
 * `RSSFeedHelper`: turning a parsed feed into feed metadata and uniform entry
 * records. Fetching and parsing are a parameter (`fetch`, standing for
 * `requests.get` plus `feedparser.parse`), and so is the HTML-to-text
 * conversion (`handle`, standing for `html2text`'s `handle`).
 */
module RssHelper {
  import opened Wrappers
  import opened PyText

  const NO_TITLE := "No Title"
  const UNKNOWN_FEED := "Unknown"
  const FETCH_FAILED := "Failed to fetch RSS feed: "
  const INVALID_FEED := "Invalid RSS feed: "

  datatype Tag = Tag(term: string)
  datatype ContentItem = ContentItem(value: string)

  /** A parsed feed item; `None` is an attribute the item does not have. */
  datatype RawEntry = RawEntry(title: Option<string>, link: Option<string>, description: Option<string>,
                               published: Option<string>, author: Option<string>, tags: Option<seq<Tag>>,
                               content: Option<seq<ContentItem>>, summary: Option<string>)

  /** The feed-level attributes, each possibly missing. */
  datatype FeedMeta = FeedMeta(title: Option<string>, description: Option<string>, link: Option<string>,
                               updated: Option<string>)

  /** What `feedparser` returns; `bozoException` is the exception it recorded, if any. */
  datatype RawFeed = RawFeed(feed: FeedMeta, entries: seq<RawEntry>, bozo: bool, bozoException: Option<string>)

  /** The dictionary `get_entries` builds for one item. */
  datatype Record = Record(title: string, link: string, description: string, published: string,
                           author: string, tags: seq<string>, content: string)

  /** The dictionary `parse_feed` returns. */
  datatype FeedInfo = FeedInfo(title: string, description: string, link: string, updated: string,
                               entriesCount: nat)

  /** The dictionary `process_feed` returns, without its `fetched_at` time. */
  datatype Processed = Processed(info: FeedInfo, entries: seq<Record>)

  datatype RssError = FetchFailed(message: string) | InvalidFeed(message: string)

  // ---------------------------------------------------------------------------
  // Content extraction

  /** The text `_extract_content` converts: the first source that is present and non-empty. */
  function ContentSource(e: RawEntry): string {
    if e.content.Some? && e.content.value != [] then e.content.value[0].value
    else if Truthy(e.summary) then e.summary.value
    else if Truthy(e.description) then e.description.value
    else ""
  }

  /** The first candidate that is offered, or `default`. */
  function FirstOffered(candidates: seq<Option<string>>, default: string): string {
    if candidates == [] then default
    else if candidates[0].Some? then candidates[0].value
    else FirstOffered(candidates[1..], default)
  }

  /**
   * The three places content can come from, in priority order. The content
   * list is offered as soon as it is non-empty, even when its first value is
   * empty; summary and description only when non-empty.
   */
  function ContentCandidates(e: RawEntry): seq<Option<string>> {
    [ if e.content.Some? && e.content.value != [] then Some(e.content.value[0].value) else None,
      if Truthy(e.summary) then e.summary else None,
      if Truthy(e.description) then e.description else None ]
  }

  /**
   * The source is the first offered candidate, or empty when there is none.
   * This restates the `if`/`elif` chain as a priority list; the case it makes
   * visible is EmptyContentValueWins.
   */
  lemma ContentSourcePriority(e: RawEntry)
    ensures ContentSource(e) == FirstOffered(ContentCandidates(e), "")
  {
    var c := ContentCandidates(e);
    assert c[1..] == [c[1], c[2]] && c[1..][1..] == [c[2]] && c[1..][1..][1..] == [];
    assert FirstOffered([c[2]], "") == if c[2].Some? then c[2].value else "";
  }

  /** A present content list wins even when its first value is empty: summary is not consulted. */
  lemma EmptyContentValueWins(e: RawEntry)
    requires e.content.Some? && e.content.value != [] && e.content.value[0].value == ""
    ensures ContentSource(e) == ""
  {
  }

  /** `_extract_content`: reassigns `content` through the priority chain, then converts and strips. */
  method ExtractContent(e: RawEntry, handle: string -> string) returns (r: string)
    ensures r == Strip(handle(ContentSource(e)))
  {
    var content := "";
    if e.content.Some? && e.content.value != [] {
      content := e.content.value[0].value;
    } else if e.summary.Some? && e.summary.value != "" {
      content := e.summary.value;
    } else if e.description.Some? && e.description.value != "" {
      content := e.description.value;
    }
    r := Strip(handle(content));
  }

  /** Extracted content is the converter's output with its surrounding whitespace removed. */
  lemma ExtractedContentTrimmed(e: RawEntry, handle: string -> string)
    ensures var out := handle(ContentSource(e));
      var r := Strip(out);
      && |LStrip(out)| <= |out| && OccursAt(out, r, |out| - |LStrip(out)|)
      && (r == [] || (!IsSpace(r[0]) && !IsSpace(r[|r| - 1])))
  {
    StripSlice(handle(ContentSource(e)));
    StripTrimmed(handle(ContentSource(e)));
  }

  // ---------------------------------------------------------------------------
  // Entries

  /** The stop index Python uses for `xs[:k]` on a list of length `n`. */
  function SliceStop(n: nat, k: int): (r: nat)
    ensures r <= n
  {
    if k >= 0 then (if k <= n then k else n)
    else if n + k >= 0 then n + k else 0
  }

  /** `feed.entries[:limit] if limit else feed.entries`. */
  function Selected(entries: seq<RawEntry>, limit: Option<int>): seq<RawEntry> {
    if limit.None? || limit.value == 0 then entries else entries[..SliceStop(|entries|, limit.value)]
  }

  /**
   * The selection is always a prefix of the feed in feed order. With no limit
   * or a limit of 0 it is the whole feed; a positive limit keeps at most that
   * many; a negative one drops that many from the end.
   */
  lemma SelectedMeaning(entries: seq<RawEntry>, limit: Option<int>)
    ensures var s := Selected(entries, limit);
      && s == entries[..|s|]
      && (limit.None? || limit.value == 0 ==> s == entries)
      && (limit.Some? && limit.value > 0 ==> |s| == if limit.value < |entries| then limit.value else |entries|)
      && (limit.Some? && limit.value < 0 ==>
            |s| + (if -limit.value < |entries| then -limit.value else |entries|) == |entries|)
  {
  }

  function Terms(tags: seq<Tag>): (r: seq<string>)
    ensures |r| == |tags|
  {
    seq(|tags|, i requires 0 <= i < |tags| => tags[i].term)
  }

  /** The record for one item, with its defaults. */
  function MakeRecord(e: RawEntry, handle: string -> string): Record {
    Record(e.title.GetOr(NO_TITLE), e.link.GetOr(""), e.description.GetOr(""), e.published.GetOr(""),
           e.author.GetOr(""), Terms(e.tags.GetOr([])), Strip(handle(ContentSource(e))))
  }

  /** A missing title reads "No Title", other missing texts read empty, and tags keep their terms in order. */
  lemma MakeRecordDefaults(e: RawEntry, handle: string -> string)
    ensures var r := MakeRecord(e, handle);
      && (e.title.None? ==> r.title == NO_TITLE) && (e.title.Some? ==> r.title == e.title.value)
      && (e.link.None? ==> r.link == "") && (e.published.None? ==> r.published == "")
      && (e.description.None? ==> r.description == "") && (e.author.None? ==> r.author == "")
      && (e.tags.None? ==> r.tags == [])
      && (e.tags.Some? ==> |r.tags| == |e.tags.value|
                           && forall i :: 0 <= i < |r.tags| ==> r.tags[i] == e.tags.value[i].term)
  {
  }

  /** `get_entries`: one record per selected item, appended in feed order. */
  method GetEntries(feed: RawFeed, limit: Option<int>, handle: string -> string) returns (records: seq<Record>)
    ensures var selected := Selected(feed.entries, limit);
      && |records| == |selected|
      && forall i :: 0 <= i < |records| ==> records[i] == MakeRecord(selected[i], handle)
  {
    var feedEntries := if limit.Some? && limit.value != 0
                       then feed.entries[..SliceStop(|feed.entries|, limit.value)] else feed.entries;
    assert feedEntries == Selected(feed.entries, limit);
    records := [];
    var i := 0;
    while i < |feedEntries|
      invariant 0 <= i <= |feedEntries|
      invariant |records| == i
      invariant forall j :: 0 <= j < i ==> records[j] == MakeRecord(feedEntries[j], handle)
    {
      var entryData := EntryData(feedEntries[i], handle);
      records := records + [entryData];
      i := i + 1;
    }
  }

  /** The dictionary literal of `get_entries` for one item. */
  method EntryData(entry: RawEntry, handle: string -> string) returns (entryData: Record)
    ensures entryData == MakeRecord(entry, handle)
  {
    var content := ExtractContent(entry, handle);
    entryData := Record(entry.title.GetOr(NO_TITLE), entry.link.GetOr(""), entry.description.GetOr(""),
                        entry.published.GetOr(""), entry.author.GetOr(""), Terms(entry.tags.GetOr([])), content);
  }

  // ---------------------------------------------------------------------------
  // The feed

  /** `parse_feed`. */
  function ParseFeed(feed: RawFeed): FeedInfo {
    FeedInfo(feed.feed.title.GetOr(UNKNOWN_FEED), feed.feed.description.GetOr(""), feed.feed.link.GetOr(""),
             feed.feed.updated.GetOr(""), |feed.entries|)
  }

  /** An untitled feed reads "Unknown", and the count is of every item whatever the limit. */
  lemma ParseFeedDefaults(feed: RawFeed, limit: Option<int>)
    ensures feed.feed.title.None? ==> ParseFeed(feed).title == UNKNOWN_FEED
    ensures feed.feed.title.Some? ==> ParseFeed(feed).title == feed.feed.title.value
    ensures ParseFeed(feed).entriesCount == |feed.entries| >= |Selected(feed.entries, limit)|
  {
  }

  /** `process_feed` after a fetch: the bozo guard, then metadata and records. */
  function Processing(feed: RawFeed, limit: Option<int>, handle: string -> string): Result<Processed, RssError> {
    if feed.bozo && feed.bozoException.Some? then Err(InvalidFeed(INVALID_FEED + feed.bozoException.value))
    else
      var selected := Selected(feed.entries, limit);
      Ok(Processed(ParseFeed(feed), seq(|selected|, i requires 0 <= i < |selected| => MakeRecord(selected[i], handle))))
  }

  /** `process_feed`: fetch, refuse a malformed feed, then describe it. */
  method ProcessFeed(url: string, limit: Option<int>, fetch: string -> Result<RawFeed, string>,
                     handle: string -> string) returns (r: Result<Processed, RssError>)
    ensures fetch(url).Err? ==> r == Err(FetchFailed(FETCH_FAILED + fetch(url).error))
    ensures fetch(url).Ok? ==> r == Processing(fetch(url).value, limit, handle)
  {
    var fetched := fetch(url);
    if fetched.Err? {
      return Err(FetchFailed(FETCH_FAILED + fetched.error));
    }
    var feed := fetched.value;
    if feed.bozo && feed.bozoException.Some? {
      return Err(InvalidFeed(INVALID_FEED + feed.bozoException.value));
    }
    var info := ParseFeed(feed);
    var entries := GetEntries(feed, limit, handle);
    ghost var selected := Selected(feed.entries, limit);
    assert entries == seq(|selected|, i requires 0 <= i < |selected| => MakeRecord(selected[i], handle));
    r := Ok(Processed(info, entries));
  }

  /**
   * A fetched feed is refused iff the parser flagged it and recorded an
   * exception; a flag without an exception, or an exception without the
   * flag, lets it through with every selected item described.
   */
  lemma ProcessingGuard(feed: RawFeed, limit: Option<int>, handle: string -> string)
    ensures var r := Processing(feed, limit, handle);
      && (r.Err? <==> feed.bozo && feed.bozoException.Some?)
      && (r.Err? ==> r.error == InvalidFeed(INVALID_FEED + feed.bozoException.value))
      && (r.Ok? ==> r.value.info == ParseFeed(feed)
                    && |r.value.entries| == |Selected(feed.entries, limit)|
                    && forall i :: 0 <= i < |r.value.entries| ==>
                         r.value.entries[i] == MakeRecord(feed.entries[i], handle))
  {
    if !(feed.bozo && feed.bozoException.Some?) {
      SelectedMeaning(feed.entries, limit);
    }
  }
}
