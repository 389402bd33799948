# rss-auto-reader, modelled in Dafny

rss-auto-reader does four things. It reads an RSS feed and normalises its
entries. It asks a language model whether each entry's abstract matches the
configured interests. For a relevant arXiv entry it asks for a summary of the
PDF. It then posts a message about the entry to a Telegram chat.

Most of the program is thin wrappers over HTTP, the OpenAI client,
feedparser, html2text and YAML. This project models the layer of
deterministic string and list logic around those wrappers, and proves what
that layer promises:

- `wrappers.dfy` (`Wrappers`): `Option`, `Result` and Python truthiness of an
  optional string.
- `text.dfy` (`PyText`): the Python string operations the core uses. These are
  ASCII `lower`, `isspace`/`strip`, `join`, `replace` and substring `in`.
- `telegram_bot.dfy` (`TelegramBot`): `TelegramBotHelper`, a class `Bot` with
  an `outbox` of every post it made. It covers:
  - the `sendMessage` payload and the way an answer becomes a result or an
    exception;
  - the chunking loop of `send_long_message`;
  - the `+=` construction of `format_rss_entry`;
  - the header-then-entries loop of `send_rss_update`, which skips failed
    entries.
- `openai_helper.dfy` (`OpenAIHelper`): the constructor's key check, `_as_list`,
  the rendering of targets and exclusions, and the classifier prompt. It also
  covers the request sent with and without `reasoning`, the `'yes'` verdict,
  the wrapping of provider errors, and the two summarisation requests.
- `yaml_helper.dfy` (`YamlHelper`): `YAMLHelper`, a class `Config` whose `data`
  field is replaced by `load_yaml`, and `check_necessary_keys`. That check is
  an order-preserving filter: it raises iff the filter result is non-empty,
  and the message quotes every missing key.
- `rss_helper.dfy` (`RssHelper`): the content priority of `_extract_content`,
  the `limit` slice and field defaults of `get_entries` (a loop, as in the
  source), `parse_feed`'s defaults and the bozo guard of `process_feed`.
- `pipeline.dfy` (`Pipeline`): `main.py`. It covers the arXiv link rewrite, the
  10 MiB size guard, the choice between summary and abstract messages, the
  not-configured no-op of `send_message_to_telegram`, and the per-entry loop of
  `main`.

Every network answer is a parameter, as are every foreign library and the
environment:
- `Bot.net` answers the bot's n-th post.
- `provider` is the OpenAI endpoint.
- `fetch` stands for the HTTP GET followed by feedparser.
- `handle` is html2text.
- `load` stands for `open` followed by `yaml.safe_load`.
- `head` is the `Content-Length` a HEAD request returns.
- `classify`, `summarize` and `post` are the classifier, the summariser and the Telegram POST as `main.py` uses them.
- `envKey` is `OPENAI_API_KEY`.

An `Err` from any of these oracles stands for an exception.

A few decisions shape the model:
- In `send_long_message`, a text no longer than `chunk_size` is sent as one
  message.
- Otherwise `range(0, len(text), chunk_size)` behaves as Python's does. A step
  of 0 raises (`ZeroChunkSize`), and a negative step yields no chunks, so
  nothing is sent and the result is `[]`.
- In `send_message`, status 400 raises a plain exception that the `except
  requests.RequestException` does not catch (`BadRequest`). Any other status
  from 400 to 599 makes `raise_for_status` raise (`HttpFailed`). Every other
  status returns the body.
- In `send_rss_update`, the header is sent outside the `try`, so its failure
  propagates. A failed entry is caught, logged and skipped, but the post for
  it was still made.
- The emoji in `utils/telegram_bot_helper.py` are stored as UTF-8 bytes read
  back as Windows-1252, so each one is four characters. The model keeps those
  exact characters. The emoji in `main.py` are real code points.

## Model

| member | source | states |
|---|---|---|
| PyText.Lower | utils/openai_helper.py:72 | `lower()` keeps the length and lowercases each character on its own |
| PyText.LStripShape | utils/rss_helper.py:63 | the left strip is a suffix of the input, only whitespace was removed, and it starts with no whitespace |
| PyText.RStripShape | utils/rss_helper.py:63 | the right strip is a prefix of the input, only whitespace was removed, and it ends with no whitespace |
| PyText.StripSlice | utils/rss_helper.py:63 | `strip()` returns a contiguous slice of its input |
| PyText.StripTrimmed | utils/rss_helper.py:63 | the result of `strip()` is empty or starts and ends with a non-whitespace character |
| PyText.StripSurrounded | utils/openai_helper.py:39-56 | stripping whitespace from both sides of a text that starts and ends with non-whitespace gives back exactly that text |
| PyText.LStripSpaces | utils/openai_helper.py:56 | leading whitespace before a non-whitespace character is removed exactly |
| PyText.RStripSpaces | utils/openai_helper.py:56 | trailing whitespace after a non-whitespace character is removed exactly |
| PyText.Join | utils/openai_helper.py:54-55 | `", ".join` of one item is that item, and the first item always comes first |
| PyText.JoinSnoc | utils/openai_helper.py:54-55 | joining one more item appends the separator and the item |
| PyText.JoinHasItem | utils/openai_helper.py:54-55 | every item occurs in the joined text, at the index returned |
| PyText.ReplaceAbsent | main.py:17 | `replace` leaves a text without the pattern unchanged |
| TelegramBot.OutcomeClassifies | utils/telegram_bot_helper.py:42-50 | a reply succeeds iff its status is outside 400..599, and then gives the body; 400 is BadRequest with the text, other 4xx/5xx are HttpFailed, and a lost request fails |
| TelegramBot.MessagePayloadKeys | utils/telegram_bot_helper.py:29-40 | the payload always has chat_id, text and both flags; it has parse_mode iff that is truthy and reply_to_message_id iff that is truthy, each with the given value |
| TelegramBot.PayloadDetermined | utils/telegram_bot_helper.py:29-40 | the key/value description fixes the payload uniquely |
| TelegramBot.Bot.constructor | utils/telegram_bot_helper.py:9-15 | a bot keeps its token, talks to `https://api.telegram.org/bot<token>` and has posted nothing |
| TelegramBot.NewBot | utils/telegram_bot_helper.py:9-15 | construction fails with MissingToken iff the token is empty |
| TelegramBot.Bot.SendMessage | utils/telegram_bot_helper.py:17-50 | appends one POST to `<base>/sendMessage` carrying exactly the given message; the result is how the answer to that post is classified |
| TelegramBot.Bot.SendMarkdownMessage | utils/telegram_bot_helper.py:147-149 | one post with parse mode "Markdown" and the default flags |
| TelegramBot.ChunksFit | utils/telegram_bot_helper.py:157-158 | a text no longer than the chunk size is sent whole, as the only message |
| TelegramBot.SplitConcat | utils/telegram_bot_helper.py:161-162 | the chunks, concatenated in order, give back the text |
| TelegramBot.SplitSizes | utils/telegram_bot_helper.py:161-162 | every chunk is non-empty and at most the chunk size, and every one but the last is exactly the chunk size |
| TelegramBot.SplitCount | utils/telegram_bot_helper.py:160-166 | the number of chunks is the ceiling of the length over the chunk size |
| TelegramBot.SplitSlice | utils/telegram_bot_helper.py:161-162 | chunk k is `text[k*size : (k+1)*size]`, clipped at the end |
| TelegramBot.ChunksRoundTrip | utils/telegram_bot_helper.py:155-166 | for a positive chunk size: a round trip, every part within the chunk size, and ceiling-many parts |
| TelegramBot.ThreeChunks | utils/telegram_bot_helper.py:155-166 | 9000 characters with the default size 4000 give 3 messages |
| TelegramBot.NegativeChunkSizeSendsNothing | utils/telegram_bot_helper.py:161 | a negative size with a non-empty text gives an empty range: nothing is sent |
| TelegramBot.SendInTurnPosts | utils/telegram_bot_helper.py:160-166 | sending in turn posts a prefix of the texts, in order, each as its own message |
| TelegramBot.SendInTurnSuccess | utils/telegram_bot_helper.py:160-166 | on success every text was posted, and the results pair up with the posts' replies |
| TelegramBot.RepliedMeaning | utils/telegram_bot_helper.py:163 | the pairing is element by element: result j is the reply to post j |
| TelegramBot.SendInTurnFailure | utils/telegram_bot_helper.py:160-166 | on failure every post before the last succeeded, and the last post's error is the exception raised |
| TelegramBot.SendInTurnAllDelivered | utils/telegram_bot_helper.py:160-166 | when every post succeeds, every text is posted and the result is Ok |
| TelegramBot.SliceDeliveryChunks | utils/telegram_bot_helper.py:161-163 | the slicing loop sends exactly the chunks of the text, in turn |
| TelegramBot.Bot.SendLongMessage | utils/telegram_bot_helper.py:155-166 | the outbox grows by exactly the posts of the chunks sent in turn, and the result is theirs; a step of 0 raises without posting |
| TelegramBot.Bot.SendChunks | utils/telegram_bot_helper.py:160-166 | the loop, with its invariant, does what the slice-by-slice delivery describes |
| TelegramBot.PreviewMeaning | utils/telegram_bot_helper.py:179 | content longer than 300 characters becomes its first 300 plus "...", and shorter content is kept verbatim |
| TelegramBot.EntryMessageSections | utils/telegram_bot_helper.py:168-188 | the message is a run of sections rendered in order: the title header (default "No Title") first and only once, then preview, date and link in source order, each present iff its field is non-empty and carrying that field |
| TelegramBot.Bot.FormatRssEntry | utils/telegram_bot_helper.py:168-188 | the successive `+=` build exactly the entry's message |
| TelegramBot.MessagesMeaning | utils/telegram_bot_helper.py:198-200 | one formatted message per entry, in entry order |
| TelegramBot.MessagesExactly | utils/telegram_bot_helper.py:198-200 | any list of messages formatted one per entry is that list |
| TelegramBot.OkRepliesMeaning | utils/telegram_bot_helper.py:198-206 | skipping failures keeps at most one reply per post, all of them in order when every post succeeds, and none when every post fails |
| TelegramBot.RssUpdateFailure | utils/telegram_bot_helper.py:194-196 | only the header can fail a feed update, and only when the title is non-empty; then nothing else is posted |
| TelegramBot.RssUpdateSent | utils/telegram_bot_helper.py:194-206 | otherwise the header (iff the title is non-empty) and then every entry's message are posted in Markdown, in order |
| TelegramBot.RssUpdateReplies | utils/telegram_bot_helper.py:198-206 | after the header's reply come the replies of the successful entry posts, in order |
| TelegramBot.RssUpdateReplyCount | utils/telegram_bot_helper.py:192-208 | there are never more results than the header plus one per entry |
| TelegramBot.Bot.SendRssUpdate | utils/telegram_bot_helper.py:190-208 | the outbox and result are exactly the feed-update delivery |
| TelegramBot.Bot.SendEntries | utils/telegram_bot_helper.py:198-206 | one Markdown post per entry with its formatted message; the results are the successful replies, in order |
| OpenAIHelper.NewChecksKey | utils/openai_helper.py:10-20 | construction fails iff both the argument and the environment key are empty or absent; the argument wins when truthy; the base URL is passed on exactly when truthy, and model and reasoning are kept |
| OpenAIHelper.AsListShape | utils/openai_helper.py:26-34 | None gives [], a string gives itself as one item, an iterable gives its items, any other value gives its `str` |
| OpenAIHelper.RenderListMeaning | utils/openai_helper.py:54-55 | an empty list renders "(none)"; a non-string item makes `join` raise; otherwise every item appears, and one item renders as itself |
| OpenAIHelper.RenderSingleSubject | utils/openai_helper.py:26-55 | a bare string subject renders as itself, so "" and None render differently |
| OpenAIHelper.HeadText | utils/openai_helper.py:39-56 | the dedented, formatted and stripped head is exactly the rule text with targets and exclusions filled in |
| OpenAIHelper.PromptFrame | utils/openai_helper.py:57 | the prompt is the head, a newline, the abstract verbatim, then "\n\nAnswer:\n" |
| OpenAIHelper.ClassifierPromptMeaning | utils/openai_helper.py:36-57 | the prompt is built from the rendered targets and exclusions, and fails iff one of them cannot be joined |
| OpenAIHelper.ClassifyRequestReasoning | utils/openai_helper.py:59-83 | the request carries an effort iff reasoning is truthy, and is otherwise the same request |
| OpenAIHelper.VerdictIff | utils/openai_helper.py:72 | the verdict is true iff the output is exactly "yes" in any letter case, with nothing trimmed |
| OpenAIHelper.VerdictExamples | utils/openai_helper.py:85 | "YES", "Yes" and "yes" are true; " yes", "yes\n", "yes." and "no" are false |
| OpenAIHelper.AnalyzeOutcome | utils/openai_helper.py:58-88 | the answer is the verdict on the provider's output, and a provider error is re-raised with the "Failed to analyze…" prefix, never turned into false |
| OpenAIHelper.AnalyzeIgnoresReasoning | utils/openai_helper.py:59-85 | the verdict does not depend on reasoning when the provider answers both requests alike |
| OpenAIHelper.SummarizeRequestShape | utils/openai_helper.py:90-270 | the request uses the helper's model; the system message holds only text and the user message carries the file; the effort is "low" in the Markdown variant and the reasoning otherwise, iff reasoning is truthy; errors get the "Failed to summarize…" prefix |
| YamlHelper.MissingMembers | utils/yaml_helper.py:17 | a key is reported missing iff it is required and absent from the data |
| YamlHelper.MissingConcat | utils/yaml_helper.py:17 | the filter works part by part, so the required order is kept |
| YamlHelper.MissingExtremes | utils/yaml_helper.py:17-18 | nothing is missing when all keys are present, and everything is missing when none are |
| YamlHelper.ListReprNames | utils/yaml_helper.py:20 | the list repr quotes every key |
| YamlHelper.MessageNames | utils/yaml_helper.py:20 | the error message names every missing key in quotes |
| YamlHelper.CheckKeysMeaning | utils/yaml_helper.py:16-21 | the check raises iff some required key is absent, reports exactly the missing keys in order, and quotes each in the message; on data `in` cannot search it raises |
| YamlHelper.RequiredKeysReport | utils/yaml_helper.py:9-17 | for a mapping, exactly the absent ones among API_KEY, RSS and INTERESTS are reported, in that order |
| YamlHelper.Config.constructor | utils/yaml_helper.py:5-7 | keeps the file name |
| YamlHelper.Config.LoadYaml | utils/yaml_helper.py:11-14 | replaces the data with the loaded document, or raises leaving it as it was |
| YamlHelper.Config.CheckNecessaryKeys | utils/yaml_helper.py:16-21 | raises exactly as the key check says, and modifies nothing |
| YamlHelper.Open | utils/yaml_helper.py:5-9 | construction succeeds iff the file loads and holds all three required keys, and then keeps the loaded data |
| RssHelper.ContentSourcePriority | utils/rss_helper.py:54-61 | the content is content[0].value whenever the content list is non-empty (even if that value is ""), else a non-empty summary, else a non-empty description, else "" |
| RssHelper.EmptyContentValueWins | utils/rss_helper.py:56-57 | a non-empty content list whose first value is "" gives "" without looking at the summary |
| RssHelper.ExtractContent | utils/rss_helper.py:52-63 | the if/elif chain picks that source, converts it and strips the result |
| RssHelper.ExtractedContentTrimmed | utils/rss_helper.py:63 | the extracted content is a slice of the converter's output with no surrounding whitespace |
| RssHelper.SelectedMeaning | utils/rss_helper.py:36 | the selection is a prefix: all entries for None or 0, the first `limit` for a positive limit, all but the last `-limit` for a negative one |
| RssHelper.MakeRecordDefaults | utils/rss_helper.py:39-47 | missing fields get "No Title" or "", and tags are the terms in order |
| RssHelper.EntryData | utils/rss_helper.py:39-47 | builds that record |
| RssHelper.GetEntries | utils/rss_helper.py:33-50 | the loop gives one record per selected entry, in feed order |
| RssHelper.ParseFeedDefaults | utils/rss_helper.py:23-31 | the title defaults to "Unknown", and the entry count is every entry whatever the limit |
| RssHelper.ProcessingGuard | utils/rss_helper.py:69-79 | processing raises iff bozo and a bozo exception are both set; otherwise it gives the feed info and one record per selected entry |
| RssHelper.ProcessFeed | utils/rss_helper.py:65-79 | a fetch failure raises with the "Failed to fetch…" prefix; otherwise the result is that processing |
| Pipeline.PdfLinkRewrite | main.py:17 | an arXiv abstract link becomes its PDF link, and any link that does not contain the abstract prefix only gains ".pdf" |
| Pipeline.SizeGuardExact | main.py:18-19 | the float test `size / 2^20 > 10` equals `size > 10485760`: exactly 10 MiB and a missing length (0) are summarised |
| Pipeline.SummarizeSelectedPaperGuards | main.py:10-27 | no link gives no summary and no request; an oversized file gives no summary and no summarisation; otherwise the summary is the summariser's answer for the PDF link |
| Pipeline.ComposeMessageParts | main.py:83-88 | the message opens with the title and closes with the link; between them is the summary when it is truthy, otherwise "This is the abstract:" and the content |
| Pipeline.SendMessageToTelegramGuard | main.py:29-42 | nothing is posted iff the token or the chat id is empty; otherwise the text is posted unchanged, with the chat id, to `https://api.telegram.org/bot<token>/sendMessage` |
| Pipeline.StepAnnounces | main.py:76-88 | a relevant entry with a summary result gets exactly one post of the composed message |
| Pipeline.DispatchUnconfigured | main.py:75-91 | without a bot token and chat id the loop posts nothing |
| Pipeline.DispatchOnePerRelevant | main.py:75-91 | a completed loop posts exactly one message per relevant entry, in feed order, and none for the others |
| Pipeline.RunEntries | main.py:75-91 | the loop, with its invariant, does what the entry-by-entry dispatch describes |
| Pipeline.RunFeed | main.py:65-91 | a failed fetch ends `main` with nothing posted and no error; otherwise a missing API key (the classifier cannot be built) raises with nothing posted; otherwise the loop runs over the entries |
| Pipeline.SummarizerFollowsSelector | main.py:73 | the classifier and the summariser are built from the same key and base URL, so one exists iff the other does, each with its configured model ("gpt-5-nano" and "gpt-5-mini" by default) |

## Left out

- Network I/O is not modelled. The Telegram, OpenAI and HTTP endpoints are deterministic oracle parameters, so timeouts, retries and non-determinism are not captured.
- `response.json()` in `send_message` is modelled as the body text; a body that is not JSON is not modelled.
- Most of the requests exception hierarchy is abstracted. Only "status 400", "other 4xx/5xx" and "no answer" are told apart.
- feedparser, html2text (`handle`), `yaml.safe_load` with `open` (`load`) and the OpenAI client object are foreign libraries and are left abstract. The model claims only the choice of input and the final strip.
- YAML documents have string keys only. A list holds string nodes or other nodes. Non-string mapping keys are not modelled.
- YamlHelper.ListRepr: Python's `repr` of the missing-key list is modelled only for keys made of printable characters other than a quote or a backslash; other characters would be escaped by `repr`.
- `time.sleep`, logging, `datetime.now()` (the `fetched_at` field of `process_feed`) and `argparse` are incidental, and are left out.
- `os.getenv("OPENAI_API_KEY")` is the `envKey` parameter.
- `main`'s configuration reads of `LOG_LEVEL` and of the feed URL under `RSS` are left out. `Settings` holds the values read, with the string defaults applied; the two model names keep their absence, and Pipeline.SummarizerModel and Pipeline.SelectorModel apply their defaults.
- The summarisation prompt texts are constants with no logic, so they are a parameter (`rolePrompt`). The request structure and the hard-coded effort "low" are modelled.
- PyText.Lower lowercases ASCII only, not all of Unicode.
- Pipeline.SizeGuardExact: the division is computed in exact reals. That agrees with the float result for every size below 2^53.
- A numeric chat id keeps its integer form; its JSON and `str` renderings are not modelled.
- `YAMLHelper` always loads in its constructor. The model's `Config` starts with a document `in` cannot search, which stands for the `data` attribute not being set yet.
- The entry dictionaries given to `format_rss_entry` map field names to strings. Non-string values, which could make formatting raise, are not modelled.
- The call sites in `main.py` that cannot run are modelled by their callees' contracts only:
  - `main.py:24` calls a `summarize_paper` method that `OpenAIHelper` does not define.
  - `main.py:77` calls `analyze_subject_from_abstract` with two arguments where three are required.
  - `main.py:77` reads `"Interests"`, while the required key is `"INTERESTS"`.
  
  The loop therefore takes the classifier and the summariser as the oracles `classify` and `summarize`. It does not reproduce the exceptions these lines raise as written.
- `send_message_to_telegram` compares the status with 200 only to choose a log line, so the model drops the status. An exception from the POST ends the loop.
- The other `TelegramBotHelper` endpoints are outside the modelled core and are left out: `send_photo`, `send_document`, `get_me`, `get_updates`, `send_html_message` and `test_connection`.
- TelegramBot.RssUpdateReplyCount: "no reply besides the header's when every entry fails" is not a separate lemma. It follows from TelegramBot.RssUpdateReplies together with TelegramBot.OkRepliesMeaning.
