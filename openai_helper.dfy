/**
 * The classifier side of `OpenAIHelper`: how the constructor settles the API
 * key, how `analyze_subject_from_abstract` turns its target and exclusion
 * subjects into a prompt, what request it sends, and how the model's answer
 * becomes a yes/no verdict. The provider is a function from a request to
 * either the response's `output_text` or the text of the error it raised.
 */
module OpenAIHelper {
  import opened Wrappers
  import opened PyText

  const DEFAULT_MODEL := "gpt-5-nano"
  const ANALYZE_FAILED := "Failed to analyze subject from abstract: "
  const SUMMARIZE_FAILED := "Failed to summarize paper: "
  const SUMMARY_REQUEST := "Please summarize the following paper:"
  /** The effort `summarize_paper_markdown` asks for whenever reasoning is on. */
  const MARKDOWN_EFFORT := "low"

  // ---------------------------------------------------------------------------
  // Construction

  /** The client the helper talks through. */
  datatype Client = Client(apiKey: string, baseUrl: Option<string>)

  datatype Helper = Helper(client: Client, model: string, reasoning: Option<string>)

  datatype Failure =
    | MissingApiKey
    /** `", ".join` met an element that is not a string (a `TypeError`). */
    | NotAString
    /** A provider error, re-raised with the helper's own prefix. */
    | Failed(message: string)

  /**
   * The constructor: the `api_key` argument when it is non-empty, otherwise
   * the `OPENAI_API_KEY` environment value `envKey`; the base URL is passed
   * to the client only when it is non-empty.
   */
  function New(apiKey: Option<string>, envKey: Option<string>, apiBaseUrl: Option<string>,
               model: string, reasoning: Option<string>): Result<Helper, Failure>
  {
    var key := if Truthy(apiKey) then apiKey else envKey;
    if !Truthy(key) then Err(MissingApiKey)
    else Ok(Helper(Client(key.value, if Truthy(apiBaseUrl) then apiBaseUrl else None), model, reasoning))
  }

  /** Construction fails iff neither key is given, and the argument wins over the environment. */
  lemma NewChecksKey(apiKey: Option<string>, envKey: Option<string>, apiBaseUrl: Option<string>,
                     model: string, reasoning: Option<string>)
    ensures var r := New(apiKey, envKey, apiBaseUrl, model, reasoning);
      && (r.Err? <==> !Truthy(apiKey) && !Truthy(envKey))
      && (r.Err? ==> r.error == MissingApiKey)
      && (r.Ok? ==> r.value.client.apiKey == (if Truthy(apiKey) then apiKey.value else envKey.value)
                    && r.value.client.apiKey != ""
                    && (r.value.client.baseUrl.Some? <==> Truthy(apiBaseUrl))
                    && r.value.client.baseUrl == (if Truthy(apiBaseUrl) then apiBaseUrl else None)
                    && r.value.model == model && r.value.reasoning == reasoning)
  {
  }

  // ---------------------------------------------------------------------------
  // Normalising the subjects: `_as_list`

  /** An element of a list: a string, or another value shown by its `repr`. */
  datatype Item = StrItem(s: string) | OtherItem(repr: string)

  /** The kinds of value `_as_list` tells apart. */
  datatype PyValue =
    | PyNone
    | PyStr(s: string)
    /** Any iterable that is not a string; `items` is what `list(value)` yields. */
    | PyIterable(items: seq<Item>)
    /** A value `list()` rejects; `str` is its `str(value)`. */
    | PyScalar(str: string)

  function AsList(v: PyValue): seq<Item> {
    match v
    case PyNone => []
    case PyStr(s) => [StrItem(s)]
    case PyIterable(items) => items
    case PyScalar(str) => [StrItem(str)]
  }

  /**
   * The list is empty exactly for `None` and for an empty iterable; a string
   * or a scalar becomes one string element (a string is never split into its
   * characters), and an iterable keeps its elements in order.
   */
  lemma AsListShape(v: PyValue)
    ensures AsList(v) == [] <==> v == PyNone || v == PyIterable([])
    ensures v.PyStr? ==> |AsList(v)| == 1 && AsList(v)[0] == StrItem(v.s)
    ensures v.PyScalar? ==> |AsList(v)| == 1 && AsList(v)[0] == StrItem(v.str)
    ensures v.PyIterable? ==> AsList(v) == v.items
  {
  }

  // ---------------------------------------------------------------------------
  // Rendering the subjects

  const NONE_GIVEN := "(none)"
  const LIST_SEPARATOR := ", "

  predicate AllStrings(items: seq<Item>) {
    forall i :: 0 <= i < |items| ==> items[i].StrItem?
  }

  function Texts(items: seq<Item>): (r: seq<string>)
    requires AllStrings(items)
    ensures |r| == |items|
  {
    seq(|items|, i requires 0 <= i < |items| => items[i].s)
  }

  /** `", ".join(items) if items else "(none)"`. */
  function RenderList(items: seq<Item>): Result<string, Failure> {
    if items == [] then Ok(NONE_GIVEN)
    else if AllStrings(items) then Ok(Join(Texts(items), LIST_SEPARATOR))
    else Err(NotAString)
  }

  /**
   * An empty list renders as "(none)"; a list of strings renders as a text in
   * which every one of them occurs, a single one exactly as itself; any other
   * element makes the join raise.
   */
  lemma RenderListMeaning(items: seq<Item>)
    ensures items == [] ==> RenderList(items) == Ok(NONE_GIVEN)
    ensures RenderList(items).Err? <==> exists i :: 0 <= i < |items| && items[i].OtherItem?
    ensures RenderList(items).Ok? && items != [] ==>
      forall i :: 0 <= i < |items| ==> Contains(RenderList(items).value, items[i].s)
    ensures |items| == 1 && items[0].StrItem? ==> RenderList(items) == Ok(items[0].s)
  {
    if items != [] && AllStrings(items) {
      forall i | 0 <= i < |items| ensures Contains(RenderList(items).value, items[i].s) {
        var at := JoinHasItem(Texts(items), LIST_SEPARATOR, i);
      }
    }
  }

  /** A single subject comes back verbatim, even an empty one, which is not "(none)". */
  lemma RenderSingleSubject(s: string)
    ensures RenderList(AsList(PyStr(s))) == Ok(s)
    ensures RenderList(AsList(PyStr(""))) != RenderList(AsList(PyNone))
  {
    assert Texts([StrItem(s)]) == [s];
    assert Texts([StrItem("")]) == [""];
  }

  // ---------------------------------------------------------------------------
  // The prompt

  const ROLE := "You are a binary classifier."
  const INTRO := ROLE + " Follow these rules strictly and output only yes or no in lowercase."
  const RULES := "Rules:\n- If the abstract mainly talks about any Exclusions -> no.\n- Else if it relates to any Targets -> yes.\n- If both appear -> no.\n- If unclear/insufficient info/off-topic -> no.\n- No explanation, no quotes, only yes or no."
  const ANSWER := "\n\nAnswer:\n"
  const ABSTRACT_LABEL := "\n\nAbstract:"

  /** The template's text between its opening and its closing line break, with both lists filled in. */
  function Filled(targets: string, exclusions: string): string {
    INTRO + "\n\nTargets: " + targets + "\nExclusions: " + exclusions + "\n\n" + RULES + ABSTRACT_LABEL
  }

  /**
   * The dedented, filled-in template before stripping: the literal opens with
   * a line break, and its closing line holds only indentation, which
   * `textwrap.dedent` reduces to nothing.
   */
  function Template(targets: string, exclusions: string): string {
    "\n" + Filled(targets, exclusions) + "\n"
  }

  /** The head of the prompt: the filled-in template, stripped. */
  function Head(targets: string, exclusions: string): string {
    Strip(Template(targets, exclusions))
  }

  lemma LiteralEnds()
    ensures INTRO[0] == 'Y' && ABSTRACT_LABEL[|ABSTRACT_LABEL| - 1] == ':'
  {
    assert ROLE[0] == 'Y';
    assert |ABSTRACT_LABEL| == 11;
  }

  /** Stripping removes exactly the template's first and last line break. */
  lemma HeadText(targets: string, exclusions: string)
    ensures Head(targets, exclusions) == Filled(targets, exclusions)
  {
    var body := Filled(targets, exclusions);
    LiteralEnds();
    assert body[0] == INTRO[0];
    assert body[|body| - 1] == ABSTRACT_LABEL[|ABSTRACT_LABEL| - 1];
    StripSurrounded("\n", body, "\n");
  }

  /** `f"{head}\n{abstract}\n\nAnswer:\n"`. */
  function Prompt(head: string, abstractText: string): string {
    head + "\n" + abstractText + ANSWER
  }

  /**
   * The prompt starts with the head, carries the abstract verbatim right after
   * it (so the abstract can be cut back out), and ends with "Answer:\n".
   */
  lemma PromptFrame(head: string, abstractText: string)
    ensures var p := Prompt(head, abstractText);
      && |p| == |head| + |abstractText| + 11
      && p[..|head|] == head
      && p[|head| + 1..|p| - |ANSWER|] == abstractText
      && p[|p| - |ANSWER|..] == ANSWER
      && Contains(p, abstractText)
  {
    var p := Prompt(head, abstractText);
    assert p[..|head|] == head;
    assert p[|head| + 1..|p| - |ANSWER|] == abstractText;
    assert p[|p| - |ANSWER|..] == ANSWER;
    assert OccursAt(p, abstractText, |head| + 1);
  }

  /** The whole prompt for an abstract, or the failure of rendering a subject list. */
  function ClassifierPrompt(abstractText: string, targets: PyValue, exclusions: PyValue): Result<string, Failure> {
    var t := RenderList(AsList(targets));
    if t.Err? then Err(t.error)
    else
      var e := RenderList(AsList(exclusions));
      if e.Err? then Err(e.error)
      else Ok(Prompt(Head(t.value, e.value), abstractText))
  }

  /** The prompt fails only on a non-string subject, and otherwise names both lists and the abstract. */
  lemma ClassifierPromptMeaning(abstractText: string, targets: PyValue, exclusions: PyValue)
    ensures var p := ClassifierPrompt(abstractText, targets, exclusions);
      var t := RenderList(AsList(targets));
      var e := RenderList(AsList(exclusions));
      && (p.Err? <==> t.Err? || e.Err?)
      && (p.Err? ==> p.error == NotAString)
      && (p.Ok? ==> p.value == Prompt(Filled(t.value, e.value), abstractText))
  {
    var t := RenderList(AsList(targets));
    var e := RenderList(AsList(exclusions));
    if t.Ok? && e.Ok? {
      HeadText(t.value, e.value);
    }
  }

  // ---------------------------------------------------------------------------
  // The request and the verdict

  datatype Part = InputText(text: string) | InputFile(fileUrl: string)
  datatype Content = Plain(text: string) | Parts(parts: seq<Part>)
  datatype InputMessage = InputMessage(role: string, content: Content)

  /** The arguments of `client.responses.create`; `effort` is the `reasoning` field, when sent. */
  datatype Request = Request(model: string, input: seq<InputMessage>, temperature: int, effort: Option<string>)

  /** The request `analyze_subject_from_abstract` sends. */
  function ClassifyRequest(h: Helper, prompt: string): Request {
    Request(h.model, [InputMessage("user", Plain(prompt))], 1, if Truthy(h.reasoning) then h.reasoning else None)
  }

  /** Reasoning adds its field when it is set and changes nothing else in the request. */
  lemma ClassifyRequestReasoning(h: Helper, prompt: string)
    ensures ClassifyRequest(h, prompt).effort.Some? <==> Truthy(h.reasoning)
    ensures ClassifyRequest(h, prompt).effort.Some? ==> ClassifyRequest(h, prompt).effort == h.reasoning
    ensures ClassifyRequest(h, prompt).(effort := None) == ClassifyRequest(h.(reasoning := None), prompt)
  {
  }

  /** `output_text.lower() == 'yes'`: no trimming, no prefix matching. */
  predicate Verdict(outputText: string) {
    Lower(outputText) == "yes"
  }

  /** The verdict holds exactly for the three letters y, e, s in any case. */
  lemma VerdictIff(outputText: string)
    ensures Verdict(outputText) <==>
      && |outputText| == 3
      && (outputText[0] == 'y' || outputText[0] == 'Y')
      && (outputText[1] == 'e' || outputText[1] == 'E')
      && (outputText[2] == 's' || outputText[2] == 'S')
  {
    if |outputText| == 3 {
      if Verdict(outputText) {
        assert LowerChar(outputText[0]) == 'y';
        assert LowerChar(outputText[1]) == 'e';
        assert LowerChar(outputText[2]) == 's';
      } else {
        assert Lower(outputText) != "yes";
        assert LowerChar(outputText[0]) != 'y' || LowerChar(outputText[1]) != 'e' || LowerChar(outputText[2]) != 's';
      }
    }
  }

  /** Upper case is accepted; surrounding blanks, a newline or a full stop are not. */
  lemma VerdictExamples()
    ensures Verdict("YES") && Verdict("Yes") && Verdict("yes")
    ensures !Verdict(" yes") && !Verdict("yes\n") && !Verdict("yes.") && !Verdict("no") && !Verdict("")
  {
    VerdictIff("YES");
    VerdictIff("Yes");
    VerdictIff("yes");
    VerdictIff(" yes");
    VerdictIff("yes\n");
    VerdictIff("yes.");
    VerdictIff("no");
    VerdictIff("");
  }

  /** `analyze_subject_from_abstract`: the verdict, or why there is none. */
  function Analyze(h: Helper, abstractText: string, targets: PyValue, exclusions: PyValue,
                   provider: Request -> Result<string, string>): Result<bool, Failure>
  {
    var p := ClassifierPrompt(abstractText, targets, exclusions);
    if p.Err? then Err(p.error)
    else
      var out := provider(ClassifyRequest(h, p.value));
      if out.Err? then Err(Failed(ANALYZE_FAILED + out.error))
      else Ok(Verdict(out.value))
  }

  /**
   * A provider error is re-raised with its text and never read as "no"; a
   * verdict is the verdict on the provider's answer to the classifier prompt.
   */
  lemma AnalyzeOutcome(h: Helper, abstractText: string, targets: PyValue, exclusions: PyValue,
                       provider: Request -> Result<string, string>)
    ensures var r := Analyze(h, abstractText, targets, exclusions, provider);
      var p := ClassifierPrompt(abstractText, targets, exclusions);
      && (r.Ok? <==> p.Ok? && provider(ClassifyRequest(h, p.value)).Ok?)
      && (r.Ok? ==> r.value == Verdict(provider(ClassifyRequest(h, p.value)).value))
      && (p.Ok? && provider(ClassifyRequest(h, p.value)).Err? ==>
            r == Err(Failed(ANALYZE_FAILED + provider(ClassifyRequest(h, p.value)).error)))
  {
  }

  /**
   * Whether reasoning is on does not change how an answer is judged: two
   * helpers that differ only in reasoning, asked through providers that give
   * the same answer to their requests, return the same result.
   */
  lemma AnalyzeIgnoresReasoning(h: Helper, effort: Option<string>, abstractText: string, targets: PyValue,
                                exclusions: PyValue, provider: Request -> Result<string, string>,
                                other: Request -> Result<string, string>)
    requires forall prompt :: provider(ClassifyRequest(h, prompt)) == other(ClassifyRequest(h.(reasoning := effort), prompt))
    ensures Analyze(h, abstractText, targets, exclusions, provider)
         == Analyze(h.(reasoning := effort), abstractText, targets, exclusions, other)
  {
  }

  // ---------------------------------------------------------------------------
  // The summary requests

  /**
   * The request of `summarize_paper_message` (`markdown` false) and of
   * `summarize_paper_markdown` (`markdown` true) for the file at `file`; the
   * latter asks for low effort whatever reasoning the helper was given.
   */
  function SummarizeRequest(h: Helper, rolePrompt: string, file: string, markdown: bool): Request {
    Request(h.model,
            [InputMessage("system", Parts([InputText(rolePrompt)])),
             InputMessage("user", Parts([InputText(SUMMARY_REQUEST), InputFile(file)]))],
            1,
            if !Truthy(h.reasoning) then None else if markdown then Some(MARKDOWN_EFFORT) else h.reasoning)
  }

  /** The summary text, or the provider's error re-raised. */
  function Summarize(h: Helper, rolePrompt: string, file: string, markdown: bool,
                     provider: Request -> Result<string, string>): Result<string, Failure>
  {
    var out := provider(SummarizeRequest(h, rolePrompt, file, markdown));
    if out.Err? then Err(Failed(SUMMARIZE_FAILED + out.error)) else Ok(out.value)
  }

  /**
   * Both summaries send the file as the user's second part and return the
   * answer unchanged; only the plain one passes the configured effort on.
   */
  lemma SummarizeRequestShape(h: Helper, rolePrompt: string, file: string, markdown: bool,
                              provider: Request -> Result<string, string>)
    ensures var q := SummarizeRequest(h, rolePrompt, file, markdown);
      && q.model == h.model && |q.input| == 2
      && q.input[0].role == "system" && q.input[0].content.Parts?
      && (forall part :: part in q.input[0].content.parts ==> part.InputText?)
      && q.input[1].role == "user" && q.input[1].content.Parts? && q.input[1].content.parts[1] == InputFile(file)
      && (q.effort.Some? <==> Truthy(h.reasoning))
      && (q.effort.Some? ==> q.effort.value == (if markdown then MARKDOWN_EFFORT else h.reasoning.value))
    ensures var out := provider(SummarizeRequest(h, rolePrompt, file, markdown));
      var r := Summarize(h, rolePrompt, file, markdown, provider);
      && (r.Ok? <==> out.Ok?) && (r.Ok? ==> r.value == out.value)
      && (r.Err? ==> r.error == Failed(SUMMARIZE_FAILED + out.error))
  {
  }
}
