/**
 * The chat-bot notifier of utils/telegram_bot_helper.py: payload construction
 * for `sendMessage`, splitting of long messages into fixed-size chunks, the
 * formatting of one feed entry, and the batch sender for a feed update.
 *
 * The HTTP endpoint is not modelled; a bot carries an oracle `net` that gives
 * the answer to its n-th post, and records every post it makes in `outbox`.
 */
module TelegramBot {
  import opened Wrappers

  /** A chat is addressed by a user name or by a numeric id. */
  datatype ChatId = ChatName(name: string) | ChatNumber(number: int)

  /** A JSON value inside a request payload. */
  datatype Value = VChat(chat: ChatId) | VStr(s: string) | VInt(i: int) | VBool(b: bool)

  /**
   * The keys of a `sendMessage` payload: `chat_id`, `text`,
   * `disable_web_page_preview`, `disable_notification`, `parse_mode` and
   * `reply_to_message_id`.
   */
  datatype Key = ChatIdKey | TextKey | DisablePreviewKey | DisableNotificationKey | ParseModeKey | ReplyToKey

  type Payload = map<Key, Value>

  /** The arguments of one `send_message` call. */
  datatype Message = Message(chatId: ChatId, text: string, parseMode: Option<string>,
                             disablePreview: bool, disableNotification: bool, replyTo: Option<int>)

  /**
   * One HTTP POST issued by the bot: the URL and the message whose JSON body,
   * `MessagePayload(message)`, goes on the wire.
   */
  datatype Post = Post(url: string, message: Message)

  /** The network's answer to a post: an HTTP status and body, or a transport failure. */
  datatype Response = Reply(status: int, body: string) | Unreachable(reason: string)

  datatype BotError =
    | MissingToken                    // the constructor's ValueError
    | BadRequest(text: string)        // status 400, raised with the response text
    | HttpFailed(status: int)         // any other 4xx or 5xx status
    | TransportFailed(reason: string) // the request never got an answer
    | ZeroChunkSize                   // `range` refuses a step of 0

  const API_ROOT := "https://api.telegram.org/bot"
  const SEND_MESSAGE := "/sendMessage"
  const MARKDOWN := "Markdown"
  const DEFAULT_CHUNK_SIZE := 4000
  const PREVIEW_LENGTH := 300

  // The source file stores its emoji as UTF-8 bytes read back as Windows-1252,
  // so each one is four characters; the model keeps those exact characters.
  const NEWSPAPER := "\U{F0}\U{178}\U{201C}\U{B0}"
  const CALENDAR := "\U{F0}\U{178}\U{201C}\U{2026}"
  const LINK := "\U{F0}\U{178}\U{201D}\U{2014}"
  const ANTENNA := "\U{F0}\U{178}\U{201C}\U{A1}"

  /** Python truthiness of an optional integer. */
  predicate TruthyId(n: Option<int>) { n.Some? && n.value != 0 }

  /** How `send_message` turns the network's answer into a return value or an exception. */
  function Outcome(r: Response): Result<string, BotError> {
    match r
    case Unreachable(reason) => Err(TransportFailed(reason))
    case Reply(status, body) =>
      if status == 400 then Err(BadRequest(body))
      else if 400 <= status < 600 then Err(HttpFailed(status))
      else Ok(body)
  }

  /**
   * A reply succeeds iff its status is outside 400..599, and then carries the
   * body; status 400 raises with the response text; a lost request fails.
   */
  lemma OutcomeClassifies(r: Response)
    ensures Outcome(r).Ok? <==> r.Reply? && !(400 <= r.status < 600)
    ensures Outcome(r).Ok? ==> Outcome(r).value == r.body
    ensures r.Reply? && r.status == 400 ==> Outcome(r) == Err(BadRequest(r.body))
    ensures r.Reply? && r.status != 400 && 400 <= r.status < 600 ==> Outcome(r) == Err(HttpFailed(r.status))
    ensures r.Unreachable? ==> Outcome(r) == Err(TransportFailed(r.reason))
  {
  }

  /**
   * The payload of a `sendMessage` request: four keys always, `parse_mode` iff
   * it is truthy, `reply_to_message_id` iff it is truthy.
   */
  ghost predicate IsMessagePayload(p: Payload, chatId: ChatId, text: string, parseMode: Option<string>,
                                   disablePreview: bool, disableNotification: bool, replyTo: Option<int>)
  {
    && p.Keys == {ChatIdKey, TextKey, DisablePreviewKey, DisableNotificationKey}
                 + (if Truthy(parseMode) then {ParseModeKey} else {})
                 + (if TruthyId(replyTo) then {ReplyToKey} else {})
    && p[ChatIdKey] == VChat(chatId)
    && p[TextKey] == VStr(text)
    && p[DisablePreviewKey] == VBool(disablePreview)
    && p[DisableNotificationKey] == VBool(disableNotification)
    && (Truthy(parseMode) ==> p[ParseModeKey] == VStr(parseMode.value))
    && (TruthyId(replyTo) ==> p[ReplyToKey] == VInt(replyTo.value))
  }

  /** The payload description leaves no freedom: it fixes the payload. */
  lemma PayloadDetermined(p: Payload, q: Payload, chatId: ChatId, text: string, parseMode: Option<string>,
                          disablePreview: bool, disableNotification: bool, replyTo: Option<int>)
    requires IsMessagePayload(p, chatId, text, parseMode, disablePreview, disableNotification, replyTo)
    requires IsMessagePayload(q, chatId, text, parseMode, disablePreview, disableNotification, replyTo)
    ensures p == q
  {
    assert forall k :: k in p ==> k in q && p[k] == q[k];
  }

  /** The JSON body `send_message` builds for a message. */
  function MessagePayload(m: Message): Payload {
    var always := map[
      ChatIdKey := VChat(m.chatId),
      TextKey := VStr(m.text),
      DisablePreviewKey := VBool(m.disablePreview),
      DisableNotificationKey := VBool(m.disableNotification)];
    var withMode := if Truthy(m.parseMode) then always[ParseModeKey := VStr(m.parseMode.value)] else always;
    if TruthyId(m.replyTo) then withMode[ReplyToKey := VInt(m.replyTo.value)] else withMode
  }

  /** The body has exactly the keys and values the description demands. */
  lemma MessagePayloadKeys(m: Message)
    ensures IsMessagePayload(MessagePayload(m), m.chatId, m.text, m.parseMode,
                             m.disablePreview, m.disableNotification, m.replyTo)
  {
  }

  /** The post of a plain `sendMessage` with the default flags. */
  function SendPost(baseUrl: string, chatId: ChatId, text: string, parseMode: Option<string>): Post {
    Post(baseUrl + SEND_MESSAGE, Message(chatId, text, parseMode, false, false, None))
  }

  // ---------------------------------------------------------------------------
  // Chunking

  /** The slices `text[i:i+size]` for `i = 0, size, 2*size, ...` below `|text|`. */
  function Split(text: string, size: nat): seq<string>
    requires size > 0
    decreases |text|
  {
    if text == [] then []
    else if |text| <= size then [text]
    else [text[..size]] + Split(text[size..], size)
  }

  /**
   * The texts `send_long_message` sends: the whole text when it fits, otherwise
   * the slices; `None` when `range` raises (a step of 0).
   */
  function Chunks(text: string, size: int): Option<seq<string>> {
    if |text| <= size then Some([text])
    else if size == 0 then None
    else if size < 0 then Some([])  // range(0, n, negative) is empty
    else Some(Split(text, size))
  }

  /** In-order concatenation of the chunks. */
  function Concat(parts: seq<string>): string {
    if parts == [] then "" else parts[0] + Concat(parts[1..])
  }

  function Min(a: int, b: int): int { if a <= b then a else b }

  /** A chunk size `range` accepts and that makes progress. */
  type Positive = n: nat | n > 0 witness 1

  lemma {:induction false} SplitConcat(text: string, size: nat)
    requires size > 0
    ensures Concat(Split(text, size)) == text
    decreases |text|
  {
    if |text| > size {
      var rest := Split(text[size..], size);
      assert ([text[..size]] + rest)[1..] == rest;
      SplitConcat(text[size..], size);
      assert text == text[..size] + text[size..];
    } else if text != [] {
      assert Concat([text]) == text + Concat([]);
    }
  }

  /** Every chunk is non-empty and at most `size` long; all but the last are exactly `size` long. */
  lemma {:induction false} SplitSizes(text: string, size: nat)
    requires size > 0
    ensures forall j :: 0 <= j < |Split(text, size)| ==> 0 < |Split(text, size)[j]| <= size
    ensures forall j :: 0 <= j < |Split(text, size)| - 1 ==> |Split(text, size)[j]| == size
    decreases |text|
  {
    if |text| > size {
      SplitSizes(text[size..], size);
      var rest := Split(text[size..], size);
      assert Split(text, size) == [text[..size]] + rest;
      forall j | 1 <= j < |Split(text, size)| ensures Split(text, size)[j] == rest[j - 1] { }
    }
  }

  /** The number of chunks is ceil(|text| / size): the least `n` with `|text| <= n * size`. */
  lemma {:induction false} SplitCount(text: string, size: nat)
    requires size > 0
    ensures text == [] ==> |Split(text, size)| == 0
    ensures text != [] ==> (|Split(text, size)| - 1) * size < |text| <= |Split(text, size)| * size
    decreases |text|
  {
    if |text| > size {
      var n := |Split(text[size..], size)|;
      SplitCount(text[size..], size);
      assert |Split(text, size)| == n + 1;
      assert (n + 1) * size == n * size + size;
      assert n * size == (n - 1) * size + size;
    }
  }

  /** Chunk `k` is the slice of `text` from `k * size`, clipped at the end. */
  lemma {:induction false} SplitSlice(text: string, size: nat, k: nat)
    requires size > 0
    requires k < |Split(text, size)|
    ensures k * size < |text|
    ensures Split(text, size)[k] == text[k * size..Min((k + 1) * size, |text|)]
    decreases |text|
  {
    if |text| > size && k > 0 {
      SplitSlice(text[size..], size, k - 1);
      assert (k - 1) * size + size == k * size;
      assert k * size + size == (k + 1) * size;
      assert text[size..][(k - 1) * size..Min(k * size, |text| - size)]
          == text[k * size..Min((k + 1) * size, |text|)];
    }
  }

  /** A text that fits is sent as one message, whole. */
  lemma ChunksFit(text: string, size: int)
    requires |text| <= size
    ensures Chunks(text, size) == Some([text])
  {
  }

  /** For a positive chunk size no character is lost, duplicated or reordered, and the bounds hold. */
  lemma {:induction false} ChunksRoundTrip(text: string, size: int)
    requires size > 0
    ensures Chunks(text, size).Some?
    ensures Concat(Chunks(text, size).value) == text
    ensures forall j :: 0 <= j < |Chunks(text, size).value| ==> |Chunks(text, size).value[j]| <= size
    ensures text != [] ==> (|Chunks(text, size).value| - 1) * size < |text| <= |Chunks(text, size).value| * size
  {
    if |text| <= size {
      assert Concat([text]) == text + Concat([]);
    } else {
      SplitConcat(text, size);
      SplitSizes(text, size);
      SplitCount(text, size);
    }
  }

  /** 9000 characters in chunks of 4000 make three messages. */
  lemma ThreeChunks(text: string)
    requires |text| == 9000
    ensures Chunks(text, DEFAULT_CHUNK_SIZE).Some? && |Chunks(text, DEFAULT_CHUNK_SIZE).value| == 3
  {
    SplitCount(text, DEFAULT_CHUNK_SIZE);
  }

  /** A negative chunk size sends nothing at all for a non-empty text. */
  lemma NegativeChunkSizeSendsNothing(text: string, size: int)
    requires size < 0 && text != []
    ensures Chunks(text, size) == Some([])
  {
  }

  lemma SplitStep(rest: string, size: nat)
    requires size > 0 && rest != []
    ensures Split(rest, size) == [rest[..Min(size, |rest|)]] + Split(rest[Min(size, |rest|)..], size)
  {
    if |rest| <= size {
      assert rest[..Min(size, |rest|)] == rest;
      assert rest[Min(size, |rest|)..] == [];
      assert Split([], size) == [];
    }
  }

  // ---------------------------------------------------------------------------
  // Entry formatting

  /** The parts of a formatted entry, in the order they are emitted. */
  datatype Section = Heading(title: string) | Body(preview: string) | Date(published: string) | ReadMore(link: string)

  function Render(s: Section): string {
    match s
    case Heading(t) => NEWSPAPER + " *" + t + "*\n\n"
    case Body(p) => p + "\n\n"
    case Date(d) => CALENDAR + " " + d + "\n"
    case ReadMore(l) => LINK + " [Read more](" + l + ")"
  }

  function RenderAll(ss: seq<Section>): string {
    if ss == [] then "" else Render(ss[0]) + RenderAll(ss[1..])
  }

  lemma {:induction false} RenderAllSnoc(ss: seq<Section>, s: Section)
    ensures RenderAll(ss + [s]) == RenderAll(ss) + Render(s)
  {
    if ss == [] {
      assert [s][1..] == [];
    } else {
      assert (ss + [s])[1..] == ss[1..] + [s];
      RenderAllSnoc(ss[1..], s);
    }
  }

  /**
   * The text fields of an entry record, by their dictionary key (`"title"`,
   * `"link"`, `"description"`, `"published"`, `"author"`, `"content"`).
   */
  datatype EntryField = Title | Link | Description | Published | Author | Content

  /** An entry record: its text fields, any of which may be absent. */
  type EntryRecord = map<EntryField, string>

  /** `dict.get(key, default)` on an entry record. */
  function Field(entry: EntryRecord, key: EntryField, default: string): string {
    if key in entry then entry[key] else default
  }

  /** Content cut to its first 300 characters followed by "...", or left whole when it fits. */
  function Preview(content: string): string {
    if |content| > PREVIEW_LENGTH then content[..PREVIEW_LENGTH] + "..." else content
  }

  /** Short content is kept whole; longer content keeps its first 300 characters and gains "...". */
  lemma PreviewMeaning(content: string)
    ensures |content| <= PREVIEW_LENGTH ==> Preview(content) == content
    ensures |content| > PREVIEW_LENGTH ==>
      |Preview(content)| == PREVIEW_LENGTH + 3
      && Preview(content)[..PREVIEW_LENGTH] == content[..PREVIEW_LENGTH]
      && Preview(content)[PREVIEW_LENGTH..] == "..."
  {
  }

  function Optional(present: bool, s: Section): seq<Section> {
    if present then [s] else []
  }

  lemma RenderAllOptional(ss: seq<Section>, present: bool, s: Section)
    ensures RenderAll(ss + Optional(present, s)) == RenderAll(ss) + (if present then Render(s) else "")
  {
    if present {
      RenderAllSnoc(ss, s);
    } else {
      assert ss + [] == ss;
    }
  }

  function Rank(s: Section): nat {
    match s
    case Heading(_) => 0
    case Body(_) => 1
    case Date(_) => 2
    case ReadMore(_) => 3
  }

  /** The formatted message of an entry, piece by piece. */
  function EntryMessage(entry: EntryRecord): string {
    var content := Field(entry, Content, "");
    var published := Field(entry, Published, "");
    var link := Field(entry, Link, "");
    NEWSPAPER + " *" + Field(entry, Title, "No Title") + "*\n\n"
      + (if content != "" then Preview(content) + "\n\n" else "")
      + (if published != "" then CALENDAR + " " + published + "\n" else "")
      + (if link != "" then LINK + " [Read more](" + link + ")" else "")
  }

  /** A heading followed by optional preview, date and link sections keeps that order. */
  lemma SectionsOrder(ss: seq<Section>, title: string, hasBody: bool, body: string,
                      hasDate: bool, date: string, hasLink: bool, link: string)
    requires ss == [Heading(title)] + Optional(hasBody, Body(body)) + Optional(hasDate, Date(date))
                   + Optional(hasLink, ReadMore(link))
    ensures ss[0] == Heading(title)
    ensures forall i :: 0 < i < |ss| ==> !ss[i].Heading?
    ensures forall i, j :: 0 <= i < j < |ss| ==> Rank(ss[i]) < Rank(ss[j])
  {
  }

  /** In such a run each optional section is there iff it was asked for. */
  lemma SectionsShape(ss: seq<Section>, title: string, hasBody: bool, body: string,
                      hasDate: bool, date: string, hasLink: bool, link: string)
    requires ss == [Heading(title)] + Optional(hasBody, Body(body)) + Optional(hasDate, Date(date))
                   + Optional(hasLink, ReadMore(link))
    ensures Body(body) in ss <==> hasBody
    ensures Date(date) in ss <==> hasDate
    ensures ReadMore(link) in ss <==> hasLink
    ensures forall s :: s in ss && s.Body? ==> s == Body(body)
    ensures forall s :: s in ss && s.Date? ==> s == Date(date)
    ensures forall s :: s in ss && s.ReadMore? ==> s == ReadMore(link)
  {
  }

  /**
   * The message is a run of sections rendered in order: the heading first
   * and only once, then preview, date and link in that order, each of the
   * last three present iff its field is non-empty and carrying that field.
   */
  lemma EntryMessageSections(entry: EntryRecord) returns (sections: seq<Section>)
    ensures EntryMessage(entry) == RenderAll(sections)
    ensures sections[0] == Heading(Field(entry, Title, "No Title"))
    ensures forall i :: 0 < i < |sections| ==> !sections[i].Heading?
    ensures forall i, j :: 0 <= i < j < |sections| ==> Rank(sections[i]) < Rank(sections[j])
    ensures Body(Preview(Field(entry, Content, ""))) in sections <==> Field(entry, Content, "") != ""
    ensures Date(Field(entry, Published, "")) in sections <==> Field(entry, Published, "") != ""
    ensures ReadMore(Field(entry, Link, "")) in sections <==> Field(entry, Link, "") != ""
    ensures forall s :: s in sections && s.Body? ==> s == Body(Preview(Field(entry, Content, "")))
    ensures forall s :: s in sections && s.Date? ==> s == Date(Field(entry, Published, ""))
    ensures forall s :: s in sections && s.ReadMore? ==> s == ReadMore(Field(entry, Link, ""))
  {
    var title := Field(entry, Title, "No Title");
    var content := Field(entry, Content, "");
    var published := Field(entry, Published, "");
    var link := Field(entry, Link, "");
    var s0 := [Heading(title)];
    assert RenderAll(s0) == Render(s0[0]) by {
      assert s0[1..] == [];
    }
    RenderAllOptional(s0, content != "", Body(Preview(content)));
    var s1 := s0 + Optional(content != "", Body(Preview(content)));
    RenderAllOptional(s1, published != "", Date(published));
    var s2 := s1 + Optional(published != "", Date(published));
    RenderAllOptional(s2, link != "", ReadMore(link));
    sections := s2 + Optional(link != "", ReadMore(link));
    SectionsOrder(sections, title, content != "", Preview(content), published != "", published, link != "", link);
    SectionsShape(sections, title, content != "", Preview(content), published != "", published, link != "", link);
  }

  /** The message announcing a feed update. */
  function RssHeader(feedTitle: string): string {
    ANTENNA + " *RSS Update: " + feedTitle + "*\n\n"
  }

  /** The formatted message of every entry, in order. */
  function Messages(entries: seq<EntryRecord>): seq<string>
    decreases |entries|
  {
    if entries == [] then []
    else Messages(entries[..|entries| - 1]) + [EntryMessage(entries[|entries| - 1])]
  }

  /** The `j`-th message is the `j`-th entry's. */
  lemma {:induction false} MessagesMeaning(entries: seq<EntryRecord>)
    ensures |Messages(entries)| == |entries|
    ensures forall j :: 0 <= j < |entries| ==> Messages(entries)[j] == EntryMessage(entries[j])
    decreases |entries|
  {
    if entries != [] {
      var init := entries[..|entries| - 1];
      MessagesMeaning(init);
      assert forall j :: 0 <= j < |init| ==> init[j] == entries[j];
    }
  }

  /** Appending the next entry's message keeps a list of the entries' messages so far. */
  lemma MessagesSnoc(entries: seq<EntryRecord>, texts: seq<string>, text: string)
    requires |texts| < |entries| && forall j {:trigger entries[j]} :: 0 <= j < |texts| ==> texts[j] == EntryMessage(entries[j])
    requires text == EntryMessage(entries[|texts|])
    ensures forall j {:trigger entries[j]} :: 0 <= j < |texts| + 1 ==> (texts + [text])[j] == EntryMessage(entries[j])
  {
  }

  /** Any list holding each entry's message, in order, is `Messages`. */
  lemma MessagesExactly(entries: seq<EntryRecord>, texts: seq<string>)
    requires |texts| == |entries| && forall j {:trigger entries[j]} :: 0 <= j < |entries| ==> texts[j] == EntryMessage(entries[j])
    ensures texts == Messages(entries)
  {
    MessagesMeaning(entries);
    forall j | 0 <= j < |entries|
      ensures texts[j] == Messages(entries)[j]
    {
      assert texts[j] == EntryMessage(entries[j]);
    }
  }

  /** One `sendMessage` post per text, in order. */
  function Posts(baseUrl: string, chatId: ChatId, texts: seq<string>, parseMode: Option<string>): seq<Post> {
    seq(|texts|, j requires 0 <= j < |texts| => SendPost(baseUrl, chatId, texts[j], parseMode))
  }

  /**
   * The bodies of the successful replies to `posts`, numbered from `n`, in
   * order; failed posts are skipped.
   */
  function OkReplies(net: (nat, Post) -> Response, n: nat, posts: seq<Post>): seq<string> {
    if posts == [] then []
    else
      var last := Outcome(net(n + |posts| - 1, posts[|posts| - 1]));
      OkReplies(net, n, posts[..|posts| - 1]) + (if last.Ok? then [last.value] else [])
  }

  /** Never more replies than posts; all of them, in order, when every post succeeds; none when every post fails. */
  lemma {:induction false} OkRepliesMeaning(net: (nat, Post) -> Response, n: nat, posts: seq<Post>)
    ensures |OkReplies(net, n, posts)| <= |posts|
    ensures (forall j :: 0 <= j < |posts| ==> Outcome(net(n + j, posts[j])).Ok?) ==>
              |OkReplies(net, n, posts)| == |posts|
              && forall j :: 0 <= j < |posts| ==> OkReplies(net, n, posts)[j] == Outcome(net(n + j, posts[j])).value
    ensures (forall j :: 0 <= j < |posts| ==> Outcome(net(n + j, posts[j])).Err?) ==> OkReplies(net, n, posts) == []
  {
    if posts != [] {
      var init := posts[..|posts| - 1];
      OkRepliesMeaning(net, n, init);
      assert forall j :: 0 <= j < |init| ==> init[j] == posts[j];
    }
  }

  /** What sending a list of texts in turn did: the posts made, and the result. */
  datatype Delivery = Delivery(posts: seq<Post>, result: Result<seq<string>, BotError>)

  /**
   * Sending `texts` one by one, post number `n` first, stopping after the first
   * post that fails; that failure is the result.
   */
  function SendInTurn(net: (nat, Post) -> Response, n: nat, baseUrl: string, chatId: ChatId,
                      texts: seq<string>, parseMode: Option<string>): Delivery
    decreases |texts|
  {
    if texts == [] then Delivery([], Ok([]))
    else
      var post := SendPost(baseUrl, chatId, texts[0], parseMode);
      var o := Outcome(net(n, post));
      if o.Err? then Delivery([post], Err(o.error))
      else
        var rest := SendInTurn(net, n + 1, baseUrl, chatId, texts[1..], parseMode);
        Delivery([post] + rest.posts, if rest.result.Ok? then Ok([o.value] + rest.result.value) else rest.result)
  }

  /** The posts made are those of the first texts, in order. */
  lemma {:induction false} SendInTurnPosts(net: (nat, Post) -> Response, n: nat, baseUrl: string, chatId: ChatId,
                                           texts: seq<string>, parseMode: Option<string>)
    ensures var d := SendInTurn(net, n, baseUrl, chatId, texts, parseMode);
      && |d.posts| <= |texts|
      && forall j :: 0 <= j < |d.posts| ==> d.posts[j] == SendPost(baseUrl, chatId, texts[j], parseMode)
    decreases |texts|
  {
    if texts != [] && Outcome(net(n, SendPost(baseUrl, chatId, texts[0], parseMode))).Ok? {
      SendInTurnPosts(net, n + 1, baseUrl, chatId, texts[1..], parseMode);
      var rest := SendInTurn(net, n + 1, baseUrl, chatId, texts[1..], parseMode);
      var d := SendInTurn(net, n, baseUrl, chatId, texts, parseMode);
      forall j | 1 <= j < |d.posts| ensures d.posts[j] == rest.posts[j - 1] { }
    }
  }

  /** Each of `posts`, sent from number `n` on, was answered with the matching one of `replies`. */
  predicate Replied(net: (nat, Post) -> Response, n: nat, posts: seq<Post>, replies: seq<string>)
    decreases |posts|
  {
    if posts == [] || replies == [] then posts == [] && replies == []
    else Outcome(net(n, posts[0])) == Ok(replies[0]) && Replied(net, n + 1, posts[1..], replies[1..])
  }

  /** `Replied` element by element. */
  lemma {:induction false} RepliedMeaning(net: (nat, Post) -> Response, n: nat, posts: seq<Post>, replies: seq<string>)
    requires Replied(net, n, posts, replies)
    ensures |posts| == |replies|
    ensures forall j :: 0 <= j < |posts| ==> Outcome(net(n + j, posts[j])) == Ok(replies[j])
    decreases |posts|
  {
    if posts != [] {
      RepliedMeaning(net, n + 1, posts[1..], replies[1..]);
      forall j | 1 <= j < |posts| ensures Outcome(net(n + j, posts[j])) == Ok(replies[j]) {
        assert posts[j] == posts[1..][j - 1] && replies[j] == replies[1..][j - 1];
        assert n + j == (n + 1) + (j - 1);
      }
    }
  }

  /** On success every text was sent and the result lists every reply, in order. */
  lemma {:induction false} SendInTurnSuccess(net: (nat, Post) -> Response, n: nat, baseUrl: string, chatId: ChatId,
                                             texts: seq<string>, parseMode: Option<string>)
    ensures var d := SendInTurn(net, n, baseUrl, chatId, texts, parseMode);
      d.result.Ok? ==> |d.posts| == |texts| && Replied(net, n, d.posts, d.result.value)
    decreases |texts|
  {
    if texts != [] {
      var post := SendPost(baseUrl, chatId, texts[0], parseMode);
      var o := Outcome(net(n, post));
      var d := SendInTurn(net, n, baseUrl, chatId, texts, parseMode);
      if o.Ok? && d.result.Ok? {
        SendInTurnSuccess(net, n + 1, baseUrl, chatId, texts[1..], parseMode);
        var rest := SendInTurn(net, n + 1, baseUrl, chatId, texts[1..], parseMode);
        assert rest.result.Ok? && d.posts == [post] + rest.posts && d.result.value == [o.value] + rest.result.value;
        assert d.posts[1..] == rest.posts && d.result.value[1..] == rest.result.value;
      }
    }
  }

  /** On failure every post but the last succeeded, and the last one's error is the result. */
  lemma {:induction false} SendInTurnFailure(net: (nat, Post) -> Response, n: nat, baseUrl: string, chatId: ChatId,
                                             texts: seq<string>, parseMode: Option<string>)
    ensures var d := SendInTurn(net, n, baseUrl, chatId, texts, parseMode);
      d.result.Err? ==>
        && 0 < |d.posts|
        && Outcome(net(n + |d.posts| - 1, d.posts[|d.posts| - 1])) == Err(d.result.error)
        && forall j :: 0 <= j < |d.posts| - 1 ==> Outcome(net(n + j, d.posts[j])).Ok?
    decreases |texts|
  {
    if texts != [] && Outcome(net(n, SendPost(baseUrl, chatId, texts[0], parseMode))).Ok? {
      SendInTurnFailure(net, n + 1, baseUrl, chatId, texts[1..], parseMode);
      var rest := SendInTurn(net, n + 1, baseUrl, chatId, texts[1..], parseMode);
      var d := SendInTurn(net, n, baseUrl, chatId, texts, parseMode);
      if d.result.Err? {
        assert d.posts == [d.posts[0]] + rest.posts;
        assert n + |d.posts| - 1 == (n + 1) + |rest.posts| - 1;
        forall j | 1 <= j < |d.posts| - 1
          ensures Outcome(net(n + j, d.posts[j])).Ok?
        {
          assert d.posts[j] == rest.posts[j - 1];
          assert n + j == (n + 1) + (j - 1);
        }
      }
    }
  }

  /** When every post would succeed, everything is delivered. */
  lemma {:induction false} SendInTurnAllDelivered(net: (nat, Post) -> Response, n: nat, baseUrl: string, chatId: ChatId,
                                                  texts: seq<string>, parseMode: Option<string>)
    requires forall j :: 0 <= j < |texts| ==> Outcome(net(n + j, SendPost(baseUrl, chatId, texts[j], parseMode))).Ok?
    ensures SendInTurn(net, n, baseUrl, chatId, texts, parseMode).result.Ok?
    ensures SendInTurn(net, n, baseUrl, chatId, texts, parseMode).posts == Posts(baseUrl, chatId, texts, parseMode)
    decreases |texts|
  {
    if texts != [] {
      assert Outcome(net(n + 0, SendPost(baseUrl, chatId, texts[0], parseMode))).Ok?;
      forall j | 0 <= j < |texts[1..]|
        ensures Outcome(net(n + 1 + j, SendPost(baseUrl, chatId, texts[1..][j], parseMode))).Ok?
      {
        assert texts[1..][j] == texts[j + 1];
        assert n + 1 + j == n + (j + 1);
      }
      SendInTurnAllDelivered(net, n + 1, baseUrl, chatId, texts[1..], parseMode);
      var d := SendInTurn(net, n, baseUrl, chatId, texts, parseMode);
      var rest := SendInTurn(net, n + 1, baseUrl, chatId, texts[1..], parseMode);
      assert d.posts == [d.posts[0]] + rest.posts;
      assert |d.posts| == |texts|;
      SendInTurnPosts(net, n, baseUrl, chatId, texts, parseMode);
    }
  }

  /** Unfolds one slice of sending `text` in slices from position `i` on. */
  lemma SendChunkStep(net: (nat, Post) -> Response, n: nat, baseUrl: string, chatId: ChatId,
                      text: string, i: nat, size: nat)
    requires size > 0 && i < |text|
    ensures var end := Min(i + size, |text|);
      var post := SendPost(baseUrl, chatId, text[i..end], None);
      var o := Outcome(net(n, post));
      SendInTurn(net, n, baseUrl, chatId, Split(text[i..], size), None)
        == if o.Err? then Delivery([post], Err(o.error))
           else Resumed([post], [o.value], SendInTurn(net, n + 1, baseUrl, chatId, Split(text[end..], size), None))
  {
    var end := Min(i + size, |text|);
    var chunks := Split(text[i..], size);
    SplitStep(text[i..], size);
    assert text[i..][..Min(size, |text| - i)] == text[i..end];
    assert text[i..][Min(size, |text| - i)..] == text[end..];
    assert chunks[0] == text[i..end] && chunks[1..] == Split(text[end..], size);
    SendInTurnStep(net, n, baseUrl, chatId, chunks, None);
  }


  /**
   * Sending the slices of `text` from position `i` on, post number `n` first,
   * stopping after the first failure: the loop of `send_long_message`.
   */
  function SliceDelivery(net: (nat, Post) -> Response, n: nat, baseUrl: string, chatId: ChatId,
                         text: string, i: nat, size: Positive): Delivery
    decreases |text| - i
  {
    if i >= |text| then Delivery([], Ok([]))
    else
      var end := Min(i + size, |text|);
      var post := SendPost(baseUrl, chatId, text[i..end], None);
      var o := Outcome(net(n, post));
      if o.Err? then Delivery([post], Err(o.error))
      else Resumed([post], [o.value], SliceDelivery(net, n + 1, baseUrl, chatId, text, end, size))
  }

  /**
   * One turn of the loop of `send_long_message`: after the slice at `i` is
   * sent, the delivery from `i` on is resumed after it, or ends with its failure.
   */
  lemma SliceDeliveryStep(net: (nat, Post) -> Response, n: nat, baseUrl: string, chatId: ChatId,
                          text: string, i: nat, size: Positive, sent: seq<Post>, replies: seq<string>)
    requires i < |text|
    ensures var end := Min(i + size, |text|);
      var post := SendPost(baseUrl, chatId, text[i..end], None);
      var o := Outcome(net(n, post));
      var all := Resumed(sent, replies, SliceDelivery(net, n, baseUrl, chatId, text, i, size));
      && (o.Err? ==> all == Delivery(sent + [post], Err(o.error)))
      && (o.Ok? ==> all == Resumed(sent + [post], replies + [o.value],
                                   SliceDelivery(net, n + 1, baseUrl, chatId, text, end, size)))
  {
    var end := Min(i + size, |text|);
    var post := SendPost(baseUrl, chatId, text[i..end], None);
    var o := Outcome(net(n, post));
    if o.Ok? {
      ResumedTwice(sent, replies, [post], [o.value], SliceDelivery(net, n + 1, baseUrl, chatId, text, end, size));
    }
  }

  /** The loop sends exactly the chunks of `text[i..]`, in turn. */
  lemma {:induction false} SliceDeliveryChunks(net: (nat, Post) -> Response, n: nat, baseUrl: string, chatId: ChatId,
                                               text: string, i: nat, size: nat)
    requires size > 0 && i <= |text|
    ensures SliceDelivery(net, n, baseUrl, chatId, text, i, size)
         == SendInTurn(net, n, baseUrl, chatId, Split(text[i..], size), None)
    decreases |text| - i
  {
    if i == |text| {
      assert text[i..] == [];
    } else {
      var end := Min(i + size, |text|);
      SendChunkStep(net, n, baseUrl, chatId, text, i, size);
      SliceDeliveryChunks(net, n + 1, baseUrl, chatId, text, end, size);
    }
  }

  /** Sending after some posts already delivered: their posts and replies come first. */
  function Resumed(done: seq<Post>, replies: seq<string>, d: Delivery): Delivery {
    Delivery(done + d.posts, if d.result.Ok? then Ok(replies + d.result.value) else d.result)
  }

  /** Nothing delivered before: nothing changes. */
  lemma ResumedNothing(d: Delivery)
    ensures Resumed([], [], d) == d
  {
    assert [] + d.posts == d.posts;
    if d.result.Ok? {
      assert [] + d.result.value == d.result.value;
    }
  }

  /** Resuming twice is resuming once after both. */
  lemma ResumedTwice(done: seq<Post>, replies: seq<string>, done2: seq<Post>, replies2: seq<string>, d: Delivery)
    ensures Resumed(done, replies, Resumed(done2, replies2, d)) == Resumed(done + done2, replies + replies2, d)
  {
    assert done + (done2 + d.posts) == done + done2 + d.posts;
    if d.result.Ok? {
      assert replies + (replies2 + d.result.value) == replies + replies2 + d.result.value;
    }
  }

  /** Unfolds one post of `SendInTurn`. */
  lemma SendInTurnStep(net: (nat, Post) -> Response, n: nat, baseUrl: string, chatId: ChatId,
                       texts: seq<string>, parseMode: Option<string>)
    requires texts != []
    ensures var post := SendPost(baseUrl, chatId, texts[0], parseMode);
      var o := Outcome(net(n, post));
      SendInTurn(net, n, baseUrl, chatId, texts, parseMode)
        == if o.Err? then Delivery([post], Err(o.error))
           else Resumed([post], [o.value], SendInTurn(net, n + 1, baseUrl, chatId, texts[1..], parseMode))
  {
  }

  /** One more text adds its post at the end. */
  lemma PostsSnoc(baseUrl: string, chatId: ChatId, texts: seq<string>, text: string, parseMode: Option<string>)
    ensures Posts(baseUrl, chatId, texts + [text], parseMode)
         == Posts(baseUrl, chatId, texts, parseMode) + [SendPost(baseUrl, chatId, text, parseMode)]
  {
    var longer := Posts(baseUrl, chatId, texts + [text], parseMode);
    var shorter := Posts(baseUrl, chatId, texts, parseMode) + [SendPost(baseUrl, chatId, text, parseMode)];
    forall j | 0 <= j < |texts| + 1
      ensures longer[j] == shorter[j]
    {
      if j < |texts| {
        assert (texts + [text])[j] == texts[j];
      }
    }
  }

  /** One more post adds its reply when it succeeds. */
  lemma OkRepliesStep(net: (nat, Post) -> Response, n: nat, posts: seq<Post>, post: Post)
    ensures OkReplies(net, n, posts + [post])
         == OkReplies(net, n, posts) + (if Outcome(net(n + |posts|, post)).Ok? then [Outcome(net(n + |posts|, post)).value] else [])
  {
    assert (posts + [post])[..|posts|] == posts;
  }

  /** One more formatted entry sent: its post joins the posts, and its reply body the replies when it succeeded. */
  lemma SendEntryStep(net: (nat, Post) -> Response, n: nat, baseUrl: string, chatId: ChatId,
                      texts: seq<string>, text: string, results: seq<string>, res: Result<string, BotError>)
    requires results == OkReplies(net, n, Posts(baseUrl, chatId, texts, Some(MARKDOWN)))
    requires res == Outcome(net(n + |texts|, SendPost(baseUrl, chatId, text, Some(MARKDOWN))))
    ensures Posts(baseUrl, chatId, texts + [text], Some(MARKDOWN))
         == Posts(baseUrl, chatId, texts, Some(MARKDOWN)) + [SendPost(baseUrl, chatId, text, Some(MARKDOWN))]
    ensures (if res.Ok? then results + [res.value] else results)
         == OkReplies(net, n, Posts(baseUrl, chatId, texts + [text], Some(MARKDOWN)))
  {
    PostsSnoc(baseUrl, chatId, texts, text, Some(MARKDOWN));
    OkRepliesStep(net, n, Posts(baseUrl, chatId, texts, Some(MARKDOWN)), SendPost(baseUrl, chatId, text, Some(MARKDOWN)));
  }

  /**
   * What `send_rss_update` delivers for updates posted from number `n` on:
   * the header (when the feed has a title) and then one Markdown post per text.
   */
  function RssUpdate(net: (nat, Post) -> Response, n: nat, baseUrl: string, chatId: ChatId,
                     texts: seq<string>, feedTitle: string): Delivery
  {
    var posts := Posts(baseUrl, chatId, texts, Some(MARKDOWN));
    if feedTitle == "" then Delivery(posts, Ok(OkReplies(net, n, posts)))
    else
      var header := SendPost(baseUrl, chatId, RssHeader(feedTitle), Some(MARKDOWN));
      var o := Outcome(net(n, header));
      if o.Err? then Delivery([header], Err(o.error))
      else Delivery([header] + posts, Ok([o.value] + OkReplies(net, n + 1, posts)))
  }

  /** Only the header can fail a feed update, and then nothing else is sent. */
  lemma RssUpdateFailure(net: (nat, Post) -> Response, n: nat, baseUrl: string, chatId: ChatId,
                         texts: seq<string>, feedTitle: string)
    ensures var d := RssUpdate(net, n, baseUrl, chatId, texts, feedTitle);
      var header := SendPost(baseUrl, chatId, RssHeader(feedTitle), Some(MARKDOWN));
      && (d.result.Err? <==> feedTitle != "" && Outcome(net(n, header)).Err?)
      && (d.result.Err? ==> d.posts == [header] && d.result.error == Outcome(net(n, header)).error)
  {
  }

  /** Otherwise every message is posted in Markdown, in order, after the header. */
  lemma RssUpdateSent(net: (nat, Post) -> Response, n: nat, baseUrl: string, chatId: ChatId,
                      texts: seq<string>, feedTitle: string)
    ensures var d := RssUpdate(net, n, baseUrl, chatId, texts, feedTitle);
      var skip := if feedTitle != "" then 1 else 0;
      d.result.Ok? ==>
        && |d.posts| == skip + |texts|
        && (feedTitle != "" ==> d.posts[0] == SendPost(baseUrl, chatId, RssHeader(feedTitle), Some(MARKDOWN)))
        && (forall j :: 0 <= j < |texts| ==> d.posts[skip + j] == SendPost(baseUrl, chatId, texts[j], Some(MARKDOWN)))
  {
  }

  /**
   * A failed entry is skipped without a reply: after the header's reply come
   * the replies to the entries' posts that succeeded, in order.
   */
  lemma RssUpdateReplies(net: (nat, Post) -> Response, n: nat, baseUrl: string, chatId: ChatId,
                         texts: seq<string>, feedTitle: string)
    ensures var d := RssUpdate(net, n, baseUrl, chatId, texts, feedTitle);
      var skip := if feedTitle != "" then 1 else 0;
      d.result.Ok? ==>
        && skip <= |d.result.value|
        && d.result.value[skip..] == OkReplies(net, n + skip, Posts(baseUrl, chatId, texts, Some(MARKDOWN)))
  {
    var posts := Posts(baseUrl, chatId, texts, Some(MARKDOWN));
    var d := RssUpdate(net, n, baseUrl, chatId, texts, feedTitle);
    if d.result.Ok? {
      if feedTitle == "" {
        assert d.result.value[0..] == d.result.value;
      } else {
        var o := Outcome(net(n, SendPost(baseUrl, chatId, RssHeader(feedTitle), Some(MARKDOWN))));
        assert d.result.value == [o.value] + OkReplies(net, n + 1, posts);
        assert d.result.value[1..] == OkReplies(net, n + 1, posts);
      }
    }
  }

  /** Never more than one reply per entry after the header's. */
  lemma RssUpdateReplyCount(net: (nat, Post) -> Response, n: nat, baseUrl: string, chatId: ChatId,
                            texts: seq<string>, feedTitle: string)
    ensures var d := RssUpdate(net, n, baseUrl, chatId, texts, feedTitle);
      var skip := if feedTitle != "" then 1 else 0;
      d.result.Ok? ==> skip <= |d.result.value| <= skip + |texts|
  {
    var d := RssUpdate(net, n, baseUrl, chatId, texts, feedTitle);
    var posts := Posts(baseUrl, chatId, texts, Some(MARKDOWN));
    var skip := if feedTitle != "" then 1 else 0;
    if d.result.Ok? {
      RssUpdateReplies(net, n, baseUrl, chatId, texts, feedTitle);
      OkRepliesMeaning(net, n + skip, posts);
      var replies := d.result.value;
      assert |replies[skip..]| == |replies| - skip;
    }
  }

  // ---------------------------------------------------------------------------
  // The bot

  class Bot {
    const botToken: string
    const baseUrl: string
    /** The answer the network gives to the bot's n-th post. */
    const net: (nat, Post) -> Response
    /** Every post made so far, in order. */
    var outbox: seq<Post>

    constructor (botToken: string, net: (nat, Post) -> Response)
      requires botToken != ""
      ensures this.botToken == botToken && baseUrl == API_ROOT + botToken
      ensures this.net == net && outbox == []
    {
      this.botToken := botToken;
      this.baseUrl := API_ROOT + botToken;
      this.net := net;
      this.outbox := [];
    }

    /**
     * `send_message`: builds the JSON body, posts it, and classifies the answer.
     * The body is checked against `MessagePayload` as it is built.
     */
    method SendMessage(chatId: ChatId, text: string, parseMode: Option<string>, disablePreview: bool,
                       disableNotification: bool, replyTo: Option<int>) returns (r: Result<string, BotError>)
      modifies this
      ensures var post := Post(baseUrl + SEND_MESSAGE,
                               Message(chatId, text, parseMode, disablePreview, disableNotification, replyTo));
        outbox == old(outbox) + [post] && r == Outcome(net(|old(outbox)|, post))
    {
      var message := Message(chatId, text, parseMode, disablePreview, disableNotification, replyTo);
      var payload: Payload := map[
        ChatIdKey := VChat(chatId),
        TextKey := VStr(text),
        DisablePreviewKey := VBool(disablePreview),
        DisableNotificationKey := VBool(disableNotification)];
      if Truthy(parseMode) {
        payload := payload[ParseModeKey := VStr(parseMode.value)];
      }
      if TruthyId(replyTo) {
        payload := payload[ReplyToKey := VInt(replyTo.value)];
      }
      assert payload == MessagePayload(message);
      var post := Post(baseUrl + SEND_MESSAGE, message);
      r := Outcome(net(|outbox|, post));
      outbox := outbox + [post];
    }

    method SendMarkdownMessage(chatId: ChatId, text: string) returns (r: Result<string, BotError>)
      modifies this
      ensures var post := SendPost(baseUrl, chatId, text, Some(MARKDOWN));
        outbox == old(outbox) + [post] && r == Outcome(net(|old(outbox)|, post))
    {
      r := SendMessage(chatId, text, Some(MARKDOWN), false, false, None);
    }

    method SendLongMessage(chatId: ChatId, text: string, chunkSize: int) returns (r: Result<seq<string>, BotError>)
      modifies this
      ensures Chunks(text, chunkSize).None? ==> r == Err(ZeroChunkSize) && outbox == old(outbox)
      ensures Chunks(text, chunkSize).Some? ==>
        var d := SendInTurn(net, |old(outbox)|, baseUrl, chatId, Chunks(text, chunkSize).value, None);
        outbox == old(outbox) + d.posts && r == d.result
    {
      var start := |outbox|;
      if |text| <= chunkSize {
        SendInTurnStep(net, start, baseUrl, chatId, [text], None);
        assert [text][1..] == [];
        var one := SendMessage(chatId, text, None, false, false, None);
        assert outbox == old(outbox) + [SendPost(baseUrl, chatId, text, None)];
        assert [SendPost(baseUrl, chatId, text, None)] + [] == [SendPost(baseUrl, chatId, text, None)];
        if one.Err? {
          return Err(one.error);
        }
        assert [one.value] + [] == [one.value];
        return Ok([one.value]);
      }
      if chunkSize == 0 {
        return Err(ZeroChunkSize);
      }
      if chunkSize < 0 {
        assert old(outbox) + [] == old(outbox);
        return Ok([]);
      }
      SliceDeliveryChunks(net, |outbox|, baseUrl, chatId, text, 0, chunkSize);
      assert text[0..] == text;
      r := SendChunks(chatId, text, chunkSize);
    }

    /** The loop of `send_long_message`: one message per slice of `chunkSize` characters, stopping at the first failure. */
    method SendChunks(chatId: ChatId, text: string, chunkSize: Positive) returns (r: Result<seq<string>, BotError>)
      modifies this
      ensures var d := SliceDelivery(net, |old(outbox)|, baseUrl, chatId, text, 0, chunkSize);
        outbox == old(outbox) + d.posts && r == d.result
    {
      ghost var all := SliceDelivery(net, |outbox|, baseUrl, chatId, text, 0, chunkSize);
      ghost var sent: seq<Post> := [];
      var results: seq<string> := [];
      var i := 0;
      assert outbox == old(outbox) + sent;
      ResumedNothing(all);
      // `i` advances by the length of each slice: `chunkSize`, except for the
      // last slice, after which the loop ends as `range` does.
      while i < |text|
        invariant 0 <= i <= |text|
        invariant outbox == old(outbox) + sent
        invariant all == Resumed(sent, results, SliceDelivery(net, |outbox|, baseUrl, chatId, text, i, chunkSize))
        decreases |text| - i
      {
        var end := Min(i + chunkSize, |text|);
        var chunk := text[i..end];
        ghost var n := |outbox|;
        SliceDeliveryStep(net, n, baseUrl, chatId, text, i, chunkSize, sent, results);
        var res := SendMessage(chatId, chunk, None, false, false, None);
        ghost var post := SendPost(baseUrl, chatId, chunk, None);
        assert outbox == old(outbox) + (sent + [post]);
        if res.Err? {
          return Err(res.error);
        }
        sent := sent + [post];
        results := results + [res.value];
        i := end;
      }
      assert sent + [] == sent && results + [] == results;
      r := Ok(results);
    }

    /** `format_rss_entry`: the message is built section by section. */
    method FormatRssEntry(entry: EntryRecord) returns (message: string)
      ensures message == EntryMessage(entry)
    {
      var title := if Title in entry then entry[Title] else "No Title";
      var link := if Link in entry then entry[Link] else "";
      var published := if Published in entry then entry[Published] else "";
      var content := if Content in entry then entry[Content] else "";
      message := NEWSPAPER + " *" + title + "*\n\n";
      if content != "" {
        var contentPreview := if |content| > PREVIEW_LENGTH then content[..PREVIEW_LENGTH] + "..." else content;
        message := message + (contentPreview + "\n\n");
      } else {
        assert message + "" == message;
      }
      if published != "" {
        message := message + (CALENDAR + " " + published + "\n");
      } else {
        assert message + "" == message;
      }
      if link != "" {
        message := message + (LINK + " [Read more](" + link + ")");
      } else {
        assert message + "" == message;
      }
    }

    /** `send_rss_update`: the header first, then every entry; a failed entry is skipped. */
    method SendRssUpdate(chatId: ChatId, entries: seq<EntryRecord>, feedTitle: string)
      returns (r: Result<seq<string>, BotError>)
      modifies this
      ensures var d := RssUpdate(net, |old(outbox)|, baseUrl, chatId, Messages(entries), feedTitle);
        outbox == old(outbox) + d.posts && r == d.result
    {
      ghost var headerPosts: seq<Post> := [];
      ghost var posts := Posts(baseUrl, chatId, Messages(entries), Some(MARKDOWN));
      var results: seq<string> := [];
      if feedTitle != "" {
        var header := ANTENNA + " *RSS Update: " + feedTitle + "*\n\n";
        var sent := SendMarkdownMessage(chatId, header);
        headerPosts := [SendPost(baseUrl, chatId, header, Some(MARKDOWN))];
        if sent.Err? {
          return Err(sent.error);
        }
        results := [sent.value];
      }
      assert outbox == old(outbox) + headerPosts;
      var replies := SendEntries(chatId, entries);
      assert [] + replies == replies;
      r := Ok(results + replies);
    }

    /** The loop of `send_rss_update`: every entry is formatted and sent; failures are skipped. */
    method SendEntries(chatId: ChatId, entries: seq<EntryRecord>) returns (results: seq<string>)
      modifies this
      ensures outbox == old(outbox) + Posts(baseUrl, chatId, Messages(entries), Some(MARKDOWN))
      ensures results == OkReplies(net, |old(outbox)|, Posts(baseUrl, chatId, Messages(entries), Some(MARKDOWN)))
    {
      results := [];
      ghost var texts: seq<string> := [];
      ghost var first := |outbox|;
      var k := 0;
      while k < |entries|
        invariant 0 <= k <= |entries|
        invariant |texts| == k && forall j {:trigger entries[j]} :: 0 <= j < k ==> texts[j] == EntryMessage(entries[j])
        invariant outbox == old(outbox) + Posts(baseUrl, chatId, texts, Some(MARKDOWN))
        invariant results == OkReplies(net, first, Posts(baseUrl, chatId, texts, Some(MARKDOWN)))
      {
        assert |outbox| == first + |texts|;
        var formattedMessage := FormatRssEntry(entries[k]);
        var result := SendMarkdownMessage(chatId, formattedMessage);
        SendEntryStep(net, first, baseUrl, chatId, texts, formattedMessage, results, result);
        if result.Ok? {
          results := results + [result.value];
        }
        MessagesSnoc(entries, texts, formattedMessage);
        texts := texts + [formattedMessage];
        k := k + 1;
      }
      MessagesExactly(entries, texts);
    }
  }

  /** The constructor refuses an empty token. */
  method NewBot(botToken: string, net: (nat, Post) -> Response) returns (r: Result<Bot, BotError>)
    ensures r.Err? <==> botToken == ""
    ensures r.Err? ==> r.error == MissingToken
    ensures r.Ok? ==> fresh(r.value) && r.value.outbox == [] && r.value.baseUrl == API_ROOT + botToken && r.value.net == net
  {
    if botToken == "" {
      return Err(MissingToken);
    }
    var bot := new Bot(botToken, net);
    return Ok(bot);
  }
}
