/**
 * The decisions `main.py` takes around its collaborators: which PDF to
 * summarise and whether it is small enough, which message to post for a
 * relevant entry, whether Telegram is configured at all, and the per-entry
 * loop that ties classification, summarisation and posting together.
 * Every network answer is a parameter: `classify` (the relevance verdict
 * for an entry), `head` (the `Content-Length` of a HEAD request, `None` when
 * the header is absent), `summarize` (the summary of a PDF) and `post` (the
 * status of a Telegram POST); an `Err` is an exception they raise.
 */
module Pipeline {
  import opened Wrappers
  import opened PyText
  import RssHelper
  import OpenAIHelper

  const ABS_PREFIX := "https://arxiv.org/abs/"
  const PDF_PREFIX := "https://arxiv.org/pdf/"
  const PDF_SUFFIX := ".pdf"
  /** 10 MiB: the largest file that is still summarised. */
  const MAX_PDF_BYTES := 10 * 1024 * 1024
  const SUMMARIZER_MODEL := "gpt-5-mini"
  const TELEGRAM_API := "https://api.telegram.org/bot"
  const SEND_MESSAGE := "/sendMessage"
  const PAGE := "\U{1F4C4}"
  const LINK := "\U{1F517}"
  const ABSTRACT_INTRO := "This is the abstract:\n\n"

  /** A chat id as YAML can give it: a name or a number. */
  datatype ChatSetting = ChatText(name: string) | ChatNumber(number: int)

  /**
   * The configuration values the pipeline reads, with `config.data.get`'s
   * string defaults already applied; the two model names are `None` when
   * their key is absent. `envKey` is the `OPENAI_API_KEY` environment value.
   */
  datatype Settings = Settings(apiKey: string, apiBaseUrl: Option<string>, summarizerModel: Option<string>,
                               selectorModel: Option<string>, envKey: Option<string>,
                               botToken: string, chatId: ChatSetting)

  /** `config.data.get("SUMMARIZER_MODEL", "gpt-5-mini")`. */
  function SummarizerModel(s: Settings): string {
    s.summarizerModel.GetOr(SUMMARIZER_MODEL)
  }

  /** `config.data.get("SELECTOR_MODEL", "gpt-5-nano")`. */
  function SelectorModel(s: Settings): string {
    s.selectorModel.GetOr(OpenAIHelper.DEFAULT_MODEL)
  }

  /** The summariser `summarize_selected_paper` builds. */
  function Summarizer(s: Settings): Result<OpenAIHelper.Helper, OpenAIHelper.Failure> {
    OpenAIHelper.New(Some(s.apiKey), s.envKey, s.apiBaseUrl, SummarizerModel(s), None)
  }

  /** The classifier `main` builds before its loop. */
  function Selector(s: Settings): Result<OpenAIHelper.Helper, OpenAIHelper.Failure> {
    OpenAIHelper.New(Some(s.apiKey), s.envKey, s.apiBaseUrl, SelectorModel(s), None)
  }

  /**
   * Both helpers are built from the same key, so once the classifier exists
   * the summariser can be built too, with the model the configuration names.
   */
  lemma SummarizerFollowsSelector(s: Settings)
    ensures Selector(s).Ok? <==> Summarizer(s).Ok?
    ensures Selector(s).Ok? ==>
      Selector(s).value.model == SelectorModel(s) && Summarizer(s).value.model == SummarizerModel(s)
      && Selector(s).value.client == Summarizer(s).value.client
  {
    OpenAIHelper.NewChecksKey(Some(s.apiKey), s.envKey, s.apiBaseUrl, SelectorModel(s), None);
    OpenAIHelper.NewChecksKey(Some(s.apiKey), s.envKey, s.apiBaseUrl, SummarizerModel(s), None);
  }

  /** The request `send_message_to_telegram` posts. */
  datatype TelegramPost = TelegramPost(url: string, chatId: ChatSetting, text: string)

  datatype PipelineError =
    | ClassifierUnavailable(cause: OpenAIHelper.Failure)
    | SummarizerUnavailable(cause: OpenAIHelper.Failure)
    | HeadFailed(reason: string)
    | SummaryFailed(reason: string)
    | ClassifyFailed(reason: string)
    | PostFailed(reason: string)

  // ---------------------------------------------------------------------------
  // `summarize_selected_paper`

  /** `link.replace("https://arxiv.org/abs/", "https://arxiv.org/pdf/") + ".pdf"`. */
  function PdfLink(link: string): string {
    Replace(link, ABS_PREFIX, PDF_PREFIX) + PDF_SUFFIX
  }

  /** An arXiv abstract page becomes its PDF; any other link only gains ".pdf". */
  lemma PdfLinkRewrite(id: string, other: string)
    requires !Contains(id, ABS_PREFIX) && !Contains(other, ABS_PREFIX)
    ensures PdfLink(ABS_PREFIX + id) == PDF_PREFIX + id + PDF_SUFFIX
    ensures PdfLink(other) == other + PDF_SUFFIX
  {
    ReplaceLeading(ABS_PREFIX, id, PDF_PREFIX);
    ReplaceAbsent(id, ABS_PREFIX, PDF_PREFIX);
    ReplaceAbsent(other, ABS_PREFIX, PDF_PREFIX);
  }

  /** The size guard, with the missing header read as 0. */
  predicate TooLarge(fileSize: int) {
    fileSize > MAX_PDF_BYTES
  }

  /**
   * `file_size / (1024 * 1024) > 10` in exact arithmetic is the integer test:
   * exactly 10 MiB is still summarised, one byte more is not.
   */
  lemma SizeGuardExact(fileSize: int)
    ensures (fileSize as real) / 1048576.0 > 10.0 <==> TooLarge(fileSize)
    ensures !TooLarge(MAX_PDF_BYTES) && TooLarge(MAX_PDF_BYTES + 1) && !TooLarge(0)
  {
  }

  /**
   * `summarize_selected_paper`: the summary of the entry's PDF, `None` when
   * there is no link or the file is too large, or the exception raised
   * building the summariser, reading the size or summarising.
   */
  function SummarizeSelectedPaper(s: Settings, entry: RssHelper.Record,
                                  head: string -> Result<Option<int>, string>,
                                  summarize: (OpenAIHelper.Helper, string) -> Result<string, string>)
    : Result<Option<string>, PipelineError>
  {
    var summarizer := Summarizer(s);
    if summarizer.Err? then Err(SummarizerUnavailable(summarizer.error))
    else if entry.link == "" then Ok(None)
    else
      var link := PdfLink(entry.link);
      var size := head(link);
      if size.Err? then Err(HeadFailed(size.error))
      else if TooLarge(size.value.GetOr(0)) then Ok(None)
      else
        var summary := summarize(summarizer.value, link);
        if summary.Err? then Err(SummaryFailed(summary.error)) else Ok(Some(summary.value))
  }

  /**
   * With a usable summariser: no link means no summary and no request at
   * all; an oversized file means no summary and no summarisation; otherwise
   * the summary is the summariser's answer for the PDF link.
   */
  lemma SummarizeSelectedPaperGuards(s: Settings, entry: RssHelper.Record,
                                     head: string -> Result<Option<int>, string>,
                                     summarize: (OpenAIHelper.Helper, string) -> Result<string, string>,
                                     head2: string -> Result<Option<int>, string>,
                                     summarize2: (OpenAIHelper.Helper, string) -> Result<string, string>)
    ensures var h := Summarizer(s);
      var r := SummarizeSelectedPaper(s, entry, head, summarize);
      && (h.Err? ==> r == Err(SummarizerUnavailable(OpenAIHelper.MissingApiKey)))
      && (h.Ok? && entry.link == "" ==>
            r == Ok(None) && SummarizeSelectedPaper(s, entry, head2, summarize2) == Ok(None))
      && (h.Ok? && entry.link != "" && head(PdfLink(entry.link)).Ok? ==>
            var size := head(PdfLink(entry.link)).value.GetOr(0);
            && (TooLarge(size) ==> r == Ok(None) && SummarizeSelectedPaper(s, entry, head, summarize2) == Ok(None))
            && (!TooLarge(size) && summarize(h.value, PdfLink(entry.link)).Ok? ==>
                  r == Ok(Some(summarize(h.value, PdfLink(entry.link)).value))))
  {
    OpenAIHelper.NewChecksKey(Some(s.apiKey), s.envKey, s.apiBaseUrl, SummarizerModel(s), None);
  }

  // ---------------------------------------------------------------------------
  // The message

  function Header(title: string): string {
    PAGE + " *" + title + "*\n\n"
  }

  function Footer(link: string): string {
    "\n\n" + LINK + " [Read more](" + link + ")"
  }

  /** The body: the summary when there is a non-empty one, the abstract otherwise. */
  function Body(entry: RssHelper.Record, summary: Option<string>): string {
    if Truthy(summary) then summary.value else ABSTRACT_INTRO + entry.content
  }

  /** The two f-strings of the loop, which share their first and last lines. */
  function ComposeMessage(entry: RssHelper.Record, summary: Option<string>): string {
    Header(entry.title) + Body(entry, summary) + Footer(entry.link)
  }

  /**
   * Every message opens with the title and closes with the link, and the
   * text between them can be cut back out: the summary itself when there is
   * a non-empty one, the abstract introduction and the content otherwise.
   */
  lemma ComposeMessageParts(entry: RssHelper.Record, summary: Option<string>)
    ensures var m := ComposeMessage(entry, summary);
      var h := |Header(entry.title)|;
      var f := |Footer(entry.link)|;
      && h + f <= |m|
      && m[..h] == Header(entry.title)
      && m[|m| - f..] == Footer(entry.link)
      && (Truthy(summary) ==> m[h..|m| - f] == summary.value)
      && (!Truthy(summary) ==> m[h..|m| - f] == ABSTRACT_INTRO + entry.content)
  {
    var m := ComposeMessage(entry, summary);
    var h := |Header(entry.title)|;
    var f := |Footer(entry.link)|;
    assert m[..h] == Header(entry.title);
    assert m[|m| - f..] == Footer(entry.link);
    assert m[h..|m| - f] == Body(entry, summary);
  }

  // ---------------------------------------------------------------------------
  // `send_message_to_telegram`

  predicate ChatTruthy(c: ChatSetting) {
    match c
    case ChatText(name) => name != ""
    case ChatNumber(number) => number != 0
  }

  predicate Configured(s: Settings) {
    s.botToken != "" && ChatTruthy(s.chatId)
  }

  /** The POST `send_message_to_telegram` makes, or `None` when it returns early. */
  function SendMessageToTelegram(s: Settings, text: string): Option<TelegramPost> {
    if s.botToken == "" || !ChatTruthy(s.chatId) then None
    else Some(TelegramPost(TELEGRAM_API + s.botToken + SEND_MESSAGE, s.chatId, text))
  }

  /** Sending does nothing iff the token or the chat id is empty, and otherwise posts the text unchanged. */
  lemma SendMessageToTelegramGuard(s: Settings, text: string)
    ensures SendMessageToTelegram(s, text).None? <==> s.botToken == "" || !ChatTruthy(s.chatId)
    ensures SendMessageToTelegram(s, text).Some? ==>
      var p := SendMessageToTelegram(s, text).value;
      p.text == text && p.chatId == s.chatId && p.url == TELEGRAM_API + s.botToken + SEND_MESSAGE
  {
  }

  // ---------------------------------------------------------------------------
  // The loop of `main`

  /** What the loop does for one entry before posting: the post to make, if any, or the exception. */
  function Step(s: Settings, entry: RssHelper.Record, classify: RssHelper.Record -> Result<bool, string>,
                head: string -> Result<Option<int>, string>,
                summarize: (OpenAIHelper.Helper, string) -> Result<string, string>)
    : Result<Option<TelegramPost>, PipelineError>
  {
    var relevant := classify(entry);
    if relevant.Err? then Err(ClassifyFailed(relevant.error))
    else if !relevant.value then Ok(None)
    else
      var summary := SummarizeSelectedPaper(s, entry, head, summarize);
      if summary.Err? then Err(summary.error)
      else Ok(SendMessageToTelegram(s, ComposeMessage(entry, summary.value)))
  }

  /** The posts a run made, and how it ended. */
  datatype Run = Run(sent: seq<TelegramPost>, result: Result<(), PipelineError>)

  function Prepend(p: TelegramPost, r: Run): Run {
    Run([p] + r.sent, r.result)
  }

  /** The loop over the entries, stopping at the first exception. */
  function Dispatch(s: Settings, entries: seq<RssHelper.Record>, classify: RssHelper.Record -> Result<bool, string>,
                    head: string -> Result<Option<int>, string>,
                    summarize: (OpenAIHelper.Helper, string) -> Result<string, string>,
                    post: TelegramPost -> Result<int, string>): Run
    decreases |entries|
  {
    if entries == [] then Run([], Ok(()))
    else
      var step := Step(s, entries[0], classify, head, summarize);
      if step.Err? then Run([], Err(step.error))
      else if step.value.None? then Dispatch(s, entries[1..], classify, head, summarize, post)
      else
        var p := step.value.value;
        var status := post(p);
        if status.Err? then Run([p], Err(PostFailed(status.error)))
        else Prepend(p, Dispatch(s, entries[1..], classify, head, summarize, post))
  }

  /** The entries the classifier accepts, in feed order. */
  function Relevant(entries: seq<RssHelper.Record>, classify: RssHelper.Record -> Result<bool, string>)
    : seq<RssHelper.Record>
  {
    if entries == [] then []
    else (if classify(entries[0]) == Ok(true) then [entries[0]] else []) + Relevant(entries[1..], classify)
  }

  /** Without a bot token and chat id nothing is ever posted. */
  lemma {:induction false} DispatchUnconfigured(s: Settings, entries: seq<RssHelper.Record>,
                                                classify: RssHelper.Record -> Result<bool, string>,
                                                head: string -> Result<Option<int>, string>,
                                                summarize: (OpenAIHelper.Helper, string) -> Result<string, string>,
                                                post: TelegramPost -> Result<int, string>)
    requires !Configured(s)
    ensures Dispatch(s, entries, classify, head, summarize, post).sent == []
    decreases |entries|
  {
    if entries != [] {
      DispatchUnconfigured(s, entries[1..], classify, head, summarize, post);
    }
  }

  /**
   * A run that ends normally with Telegram configured posts exactly once
   * per relevant entry, in feed order, and never for an irrelevant one:
   * the k-th post is the one the loop makes for the k-th relevant entry.
   */
  lemma {:induction false} DispatchOnePerRelevant(s: Settings, entries: seq<RssHelper.Record>,
                                                  classify: RssHelper.Record -> Result<bool, string>,
                                                  head: string -> Result<Option<int>, string>,
                                                  summarize: (OpenAIHelper.Helper, string) -> Result<string, string>,
                                                  post: TelegramPost -> Result<int, string>)
    requires Configured(s)
    ensures var run := Dispatch(s, entries, classify, head, summarize, post);
      var relevant := Relevant(entries, classify);
      run.result.Ok? ==>
        && |run.sent| == |relevant|
        && forall k :: 0 <= k < |run.sent| ==> Step(s, relevant[k], classify, head, summarize) == Ok(Some(run.sent[k]))
    decreases |entries|
  {
    if entries != [] {
      var e := entries[0];
      var step := Step(s, e, classify, head, summarize);
      var run := Dispatch(s, entries, classify, head, summarize, post);
      var rest := Dispatch(s, entries[1..], classify, head, summarize, post);
      var relevant := Relevant(entries, classify);
      DispatchOnePerRelevant(s, entries[1..], classify, head, summarize, post);
      if run.result.Ok? {
        assert step.Ok?;
        if step.value.None? {
          assert classify(e) != Ok(true);
          assert run == rest && relevant == Relevant(entries[1..], classify);
        } else {
          assert classify(e) == Ok(true);
          assert run.sent == [step.value.value] + rest.sent;
          assert relevant == [e] + Relevant(entries[1..], classify);
          forall k | 0 <= k < |run.sent|
            ensures Step(s, relevant[k], classify, head, summarize) == Ok(Some(run.sent[k]))
          {
            if k > 0 {
              assert run.sent[k] == rest.sent[k - 1] && relevant[k] == Relevant(entries[1..], classify)[k - 1];
            }
          }
        }
      }
    }
  }

  /** A relevant entry's post carries the composed message to the configured chat. */
  lemma StepAnnounces(s: Settings, entry: RssHelper.Record, classify: RssHelper.Record -> Result<bool, string>,
                      head: string -> Result<Option<int>, string>,
                      summarize: (OpenAIHelper.Helper, string) -> Result<string, string>)
    requires Configured(s) && classify(entry) == Ok(true)
    requires SummarizeSelectedPaper(s, entry, head, summarize).Ok?
    ensures var summary := SummarizeSelectedPaper(s, entry, head, summarize).value;
      Step(s, entry, classify, head, summarize)
        == Ok(Some(TelegramPost(TELEGRAM_API + s.botToken + SEND_MESSAGE, s.chatId, ComposeMessage(entry, summary))))
  {
  }

  function ResumedRun(sent: seq<TelegramPost>, r: Run): Run {
    Run(sent + r.sent, r.result)
  }

  /** The loop of `main`: one entry at a time, in feed order. */
  method RunEntries(s: Settings, entries: seq<RssHelper.Record>, classify: RssHelper.Record -> Result<bool, string>,
                    head: string -> Result<Option<int>, string>,
                    summarize: (OpenAIHelper.Helper, string) -> Result<string, string>,
                    post: TelegramPost -> Result<int, string>)
    returns (sent: seq<TelegramPost>, r: Result<(), PipelineError>)
    ensures Run(sent, r) == Dispatch(s, entries, classify, head, summarize, post)
  {
    sent := [];
    var i := 0;
    assert ResumedRun(sent, Dispatch(s, entries[i..], classify, head, summarize, post)) == Dispatch(s, entries, classify, head, summarize, post) by {
      assert entries[0..] == entries;
    }
    while i < |entries|
      invariant 0 <= i <= |entries|
      invariant ResumedRun(sent, Dispatch(s, entries[i..], classify, head, summarize, post))
             == Dispatch(s, entries, classify, head, summarize, post)
    {
      var entry := entries[i];
      assert entries[i..][0] == entry && entries[i..][1..] == entries[i + 1..];
      var isRelevant := classify(entry);
      if isRelevant.Err? {
        return sent, Err(ClassifyFailed(isRelevant.error));
      }
      if isRelevant.value {
        var summary := SummarizeSelectedPaper(s, entry, head, summarize);
        if summary.Err? {
          return sent, Err(summary.error);
        }
        var message := ComposeMessage(entry, summary.value);
        var request := SendMessageToTelegram(s, message);
        if request.Some? {
          var status := post(request.value);
          if status.Err? {
            return sent + [request.value], Err(PostFailed(status.error));
          }
          assert sent + ([request.value] + Dispatch(s, entries[i + 1..], classify, head, summarize, post).sent)
              == (sent + [request.value]) + Dispatch(s, entries[i + 1..], classify, head, summarize, post).sent;
          sent := sent + [request.value];
        }
      }
      i := i + 1;
    }
    assert sent + [] == sent;
    r := Ok(());
  }

  /**
   * `main` after loading the configuration: a failed feed posts nothing and
   * ends quietly; otherwise the classifier is built, which raises without a
   * key, and then the loop runs.
   */
  method RunFeed(s: Settings, feed: Result<RssHelper.Processed, RssHelper.RssError>,
                 classify: RssHelper.Record -> Result<bool, string>,
                 head: string -> Result<Option<int>, string>,
                 summarize: (OpenAIHelper.Helper, string) -> Result<string, string>,
                 post: TelegramPost -> Result<int, string>)
    returns (sent: seq<TelegramPost>, r: Result<(), PipelineError>)
    ensures feed.Err? ==> sent == [] && r == Ok(())
    ensures feed.Ok? && Selector(s).Err? ==> sent == [] && r == Err(ClassifierUnavailable(Selector(s).error))
    ensures feed.Ok? && Selector(s).Ok? ==>
      Run(sent, r) == Dispatch(s, feed.value.entries, classify, head, summarize, post)
  {
    if feed.Err? {
      return [], Ok(());
    }
    var analyzer := Selector(s);
    if analyzer.Err? {
      return [], Err(ClassifierUnavailable(analyzer.error));
    }
    sent, r := RunEntries(s, feed.value.entries, classify, head, summarize, post);
  }
}
