/** The test-plan routes under `/api/llm`: `/generate` (check the key,
    resolve the provider, fetch the ticket, find the template, generate,
    store the content and append a history row), `/stream` (the same steps,
    then the chunks as server-sent events and no history row), and the two
    history reads. The Jira API, the criteria extractor and the two LLM
    back-ends are the oracles of `Backends`; the clock and the uuid of a
    new history row are parameters. */
module LlmRoutes {
  import opened Wrappers
  import opened Strings
  import opened Errors
  import opened Ordering
  import opened Validators
  import opened Settings
  import opened JiraText
  import opened Jira
  import opened LlmCommon
  import Prompt
  import Templates
  import Groq
  import Ollama

  const SystemPrompt: string :=
    "You are an expert QA Engineer with years of experience in software testing. "
    + "Your task is to generate comprehensive, professional test plans based on "
    + "JIRA tickets and provided templates.\n"
    + "\n"
    + "Guidelines:\n"
    + "1. Follow the template structure exactly, using the same headings and organization\n"
    + "2. Create specific, actionable test cases with clear steps and expected results\n"
    + "3. Map acceptance criteria directly to test scenarios\n"
    + "4. Include positive tests, negative tests, and edge cases\n"
    + "5. Consider the priority level when determining test depth\n"
    + "6. Use professional QA terminology and clear, concise language\n"
    + "7. Ensure each test case is traceable to a requirement\n"
    + "8. Include appropriate test data suggestions where relevant\n"
    + "\n"
    + "Output format: Markdown"

  const MissingTicketId := "Missing required field: ticketId"
  const InvalidTicketPrefix := "Invalid JIRA ticket ID: "
  const DefaultTemplateId := "default-testplan"
  const TemplateMissing := "Template not found"
  const HistoryMissing := "History entry not found"
  const PreviewLength: nat := 500
  const HistoryLimit: nat := 50

  /** The directory the content files are written to. */
  const DataDir := "data/"

  // ---------------------------------------------------------------------
  // The steps of a generation

  /** The request body (or query) of `/generate` and `/stream`; a missing
      field is `None`. */
  datatype GenerateInput = GenerateInput(ticketId: Option<string>, templateId: Option<string>, provider: Option<string>)

  /** The key check both routes start with: the field must be truthy, and
      its sanitised form must pass `validateJiraId`. The error quotes the
      key as given. */
  function CheckTicketId(ticketId: Option<string>): (r: Result<string, AppError>)
    ensures r.Success? <==> Present(ticketId) && ValidateJiraId(SanitizeJiraId(ticketId.value))
    ensures r.Success? ==> r.value == SanitizeJiraId(ticketId.value) && IsTicketKey(r.value)
    ensures !Present(ticketId) ==> r == Failure(ValidationError(MissingTicketId))
    ensures Present(ticketId) && r.Failure? ==> r == Failure(ValidationError(InvalidTicketPrefix + ticketId.value))
  {
    if !Present(ticketId) then Failure(ValidationError(MissingTicketId))
    else
      var sanitized := SanitizeJiraId(ticketId.value);
      if !ValidateJiraId(sanitized) then Failure(ValidationError(InvalidTicketPrefix + ticketId.value))
      else
        ValidateJiraIdIff(sanitized);
        UpperOfUpperCased(sanitized);
        Success(sanitized)
  }

  /** `preferredProvider || settings?.llm_provider || 'groq'`: the request's
      choice, else what the settings read reports. */
  function ResolveProvider(preferred: Option<string>, row: Option<SettingsRow>): (r: string)
    ensures r != ""
    ensures Present(preferred) ==> r == preferred.value
    ensures !Present(preferred) ==> r == ReadSettings(row).provider
  {
    OrElse(preferred, OrElse(Column(row, (s: SettingsRow) => s.llmProvider), DefaultProvider))
  }

  /** `templateId || 'default-testplan'`. */
  function TemplateIdToUse(templateId: Option<string>): (r: string)
    ensures r != ""
    ensures Present(templateId) ==> r == templateId.value
  {
    OrElse(templateId, DefaultTemplateId)
  }

  /** The model recorded for the plan, read from the stored settings row:
      `groq_model` or `ollama_model` with its default. */
  function ModelUsed(provider: string, row: Option<SettingsRow>): (r: string)
    ensures r != ""
    ensures provider == "groq" ==> r == ReadSettings(row).groqModel
    ensures provider != "groq" ==> r == ReadSettings(row).ollamaModel
  {
    if provider == "groq" then OrElse(Column(row, (s: SettingsRow) => s.groqModel), DefaultGroqModel)
    else OrElse(Column(row, (s: SettingsRow) => s.ollamaModel), DefaultOllamaModel)
  }

  /** The recorded model is the one a provider that reads the stored row
      would be configured with. */
  lemma ModelUsedIsConfigured(provider: string, row: Option<SettingsRow>, groqKey: Option<string>)
    ensures provider == "groq" && Groq.ResolveGroqConfigFromRow(row, groqKey).Success? ==>
      ModelUsed(provider, row) == Groq.ResolveGroqConfigFromRow(row, groqKey).value.model
    ensures provider != "groq" ==> ModelUsed(provider, row) == Ollama.ResolveOllamaConfigFromRow(row).model
  {
  }

  /** As the providers are written, the recorded model differs from the one
      they are configured with exactly when the stored row names a model
      other than the default. */
  lemma ModelUsedIsNotConfigured(provider: string, row: Option<SettingsRow>, groqKey: Option<string>)
    ensures provider == "groq" && Present(groqKey) ==>
      (ModelUsed(provider, row) != Groq.ResolveGroqConfig(row, groqKey).value.model <==>
       ReadSettings(row).groqModel != DefaultGroqModel)
    ensures provider != "groq" ==>
      (ModelUsed(provider, row) != Ollama.ResolveOllamaConfig(row).model <==>
       ReadSettings(row).ollamaModel != DefaultOllamaModel)
  {
  }

  // ---------------------------------------------------------------------
  // wordCount: content.split(/\s+/).length

  /** `s.split(/\s+/)`: the pieces between maximal runs of whitespace; a
      run at either end leaves an empty piece there. */
  function SplitWhite(s: string): (r: seq<string>)
    ensures |r| >= 1
    ensures forall k :: 0 <= k < |r| ==> !exists j :: 0 <= j < |r[k]| && IsWhite(r[k][j])
    decreases |s|
  {
    if s == [] then [""]
    else if IsWhite(s[0]) then [""] + SplitWhite(s[WhiteRun(s)..])
    else
      var rest := SplitWhite(s[1..]);
      assert forall j :: 1 <= j < |[s[0]] + rest[0]| ==> ([s[0]] + rest[0])[j] == rest[0][j - 1];
      [[s[0]] + rest[0]] + rest[1..]
  }

  /** The number of maximal whitespace runs in `s`, counted where each one
      starts; `afterWhite` says whether the character before `s` was
      whitespace. */
  function RunStarts(s: string, afterWhite: bool): nat
    decreases |s|
  {
    if s == [] then 0
    else (if IsWhite(s[0]) && !afterWhite then 1 else 0) + RunStarts(s[1..], IsWhite(s[0]))
  }

  /** `wordCount`: one more than the number of whitespace runs, so
      leading or trailing whitespace counts as a word boundary too. */
  function WordCount(content: string): (n: nat)
    ensures n == 1 + RunStarts(content, false)
  {
    SplitWhiteRuns(content);
    |SplitWhite(content)|
  }

  lemma {:induction false} SplitWhiteRuns(s: string)
    ensures |SplitWhite(s)| == 1 + RunStarts(s, false)
    decreases |s|
  {
    if s != [] {
      if IsWhite(s[0]) {
        var k := WhiteRun(s);
        SplitWhiteRuns(s[k..]);
        assert s[1..][..k - 1] == s[1..k];
        assert s[1..][k - 1..] == s[k..];
        forall j | 0 <= j < k - 1 ensures IsWhite(s[1..][j]) {
          assert s[1..][j] == s[..k][j + 1];
        }
        SkipRun(s[1..], k - 1);
      } else {
        SplitWhiteRuns(s[1..]);
      }
    }
  }

  /** Inside a run, the rest of the run starts nothing new. */
  lemma {:induction false} SkipRun(t: string, n: nat)
    requires n <= |t|
    requires forall j :: 0 <= j < n ==> IsWhite(t[j])
    requires n == |t| || !IsWhite(t[n])
    ensures RunStarts(t, true) == RunStarts(t[n..], false)
    decreases n
  {
    if n > 0 {
      assert forall j :: 0 <= j < n - 1 ==> t[1..][j] == t[j + 1];
      SkipRun(t[1..], n - 1);
      assert t[1..][n - 1..] == t[n..];
    } else {
      assert t[0..] == t;
    }
  }

  /** Text without whitespace is one word, whatever its length. */
  lemma {:induction false} WordCountOfWord(w: string)
    requires forall j :: 0 <= j < |w| ==> !IsWhite(w[j])
    ensures WordCount(w) == 1
  {
    NoRunStarts(w);
  }

  lemma {:induction false} NoRunStarts(w: string)
    requires forall j :: 0 <= j < |w| ==> !IsWhite(w[j])
    ensures RunStarts(w, false) == 0
    decreases |w|
  {
    if w != [] {
      assert forall j :: 0 <= j < |w| - 1 ==> w[1..][j] == w[j + 1];
      NoRunStarts(w[1..]);
    }
  }

  /** Two words with whitespace between them count as two, and the empty
      content counts as one. */
  lemma WordCountOfTwo(a: string, gap: string, b: string)
    requires forall j :: 0 <= j < |a| ==> !IsWhite(a[j])
    requires forall j :: 0 <= j < |b| ==> !IsWhite(b[j])
    requires |gap| > 0 && forall j :: 0 <= j < |gap| ==> IsWhite(gap[j])
    ensures WordCount(a + gap + b) == 2
  {
    RunStartsAppend(a, gap + b);
    assert a + gap + b == a + (gap + b);
    var t := gap + b;
    assert forall j :: 0 <= j < |gap| - 1 ==> t[1..][j] == t[j + 1];
    if |gap| > 1 || |b| == 0 {
      assert |gap| - 1 == |t[1..]| || !IsWhite(t[1..][|gap| - 1]);
    }
    SkipRun(t[1..], |gap| - 1);
    assert t[1..][|gap| - 1..] == b;
    NoRunStarts(b);
  }

  /** Words before `t` add no run. */
  lemma {:induction false} RunStartsAppend(a: string, t: string)
    requires forall j :: 0 <= j < |a| ==> !IsWhite(a[j])
    ensures RunStarts(a + t, false) == RunStarts(t, false)
    decreases |a|
  {
    if a != [] {
      assert (a + t)[0] == a[0] && (a + t)[1..] == a[1..] + t;
      assert !IsWhite(a[0]);
      assert forall j :: 0 <= j < |a| - 1 ==> a[1..][j] == a[j + 1];
      RunStartsAppend(a[1..], t);
    } else {
      assert a + t == t;
    }
  }

  // ---------------------------------------------------------------------
  // preview: content.substring(0, 500) + '...'

  function Preview(content: string): (p: string)
    ensures |p| == Min(PreviewLength, |content|) + 3
    ensures p[..|p| - 3] == content[..|p| - 3]
    ensures p[|p| - 3..] == "..."
  {
    content[..Min(PreviewLength, |content|)] + "..."
  }

  /** The ellipsis is added even when nothing was cut. */
  lemma PreviewOfShort(content: string)
    requires |content| <= PreviewLength
    ensures Preview(content) == content + "..."
  {
    assert content[..|content|] == content;
  }

  // ---------------------------------------------------------------------
  // The history ledger

  /** Where the content of a plan is written: `<data dir>/<id>.md`. */
  function ContentPath(historyId: string): string {
    DataDir + historyId + ".md"
  }

  /** Different plans are written to different files. */
  lemma ContentPathInjective(a: string, b: string)
    requires ContentPath(a) == ContentPath(b)
    ensures a == b
  {
    assert ContentPath(a) == DataDir + (a + ".md");
    assert ContentPath(b) == DataDir + (b + ".md");
    Prompt.Cancel(DataDir, a, b, ".md");
  }

  /** A row of `generation_history`; `generatedAt` is the insert's
      timestamp as a number. */
  datatype HistoryRow = HistoryRow(
    id: string,
    ticketId: string,
    ticketSummary: string,
    templateId: string,
    templateName: string,
    provider: string,
    model: string,
    preview: string,
    fullContentPath: string,
    wordCount: nat,
    generationTimeMs: int,
    generatedAt: int)

  predicate DistinctIds(rows: seq<HistoryRow>) {
    forall i, j :: 0 <= i < j < |rows| ==> rows[i].id != rows[j].id
  }

  predicate HasId(rows: seq<HistoryRow>, id: string) {
    exists i :: 0 <= i < |rows| && rows[i].id == id
  }

  /** Every row's content sits in the file named after the row. */
  predicate FilesInPlace(rows: seq<HistoryRow>, files: map<string, string>) {
    forall i :: 0 <= i < |rows| ==> rows[i].fullContentPath == ContentPath(rows[i].id) && ContentPath(rows[i].id) in files
  }

  function GeneratedKey(r: HistoryRow): Rank { Rank(r.generatedAt, 0) }

  /** A row as the history list returns it. */
  datatype HistoryEntry = HistoryEntry(
    id: string,
    ticketId: string,
    ticketSummary: string,
    templateName: string,
    provider: string,
    model: string,
    generatedAt: int,
    preview: string,
    wordCount: nat)

  function EntryOf(r: HistoryRow): HistoryEntry {
    HistoryEntry(r.id, r.ticketId, r.ticketSummary, r.templateName, r.provider, r.model, r.generatedAt, r.preview, r.wordCount)
  }

  function HistoryId(r: HistoryRow): string { r.id }

  /** The `n` newest rows of the ledger keep their ids distinct. */
  lemma TopIdsDistinct(rows: seq<HistoryRow>, n: nat)
    ensures DistinctIds(rows) ==> DistinctIds(Top(rows, GeneratedKey, n))
  {
    if DistinctIds(rows) {
      assert DistinctBy(rows, HistoryId);
      TopDistinctBy(rows, GeneratedKey, n, HistoryId);
    }
  }

  /** GET /history: the 50 newest rows, newest first. */
  function HistoryList(rows: seq<HistoryRow>): (r: seq<HistoryEntry>)
    ensures |r| == Min(HistoryLimit, |rows|)
    ensures forall i, j :: 0 <= i < j < |r| ==> r[i].generatedAt >= r[j].generatedAt
    ensures forall e :: e in r ==> exists x :: x in rows && e == EntryOf(x)
    ensures DistinctIds(rows) ==> forall i, j :: 0 <= i < j < |r| ==> r[i].id != r[j].id
  {
    var top := Top(rows, GeneratedKey, HistoryLimit);
    TopIdsDistinct(rows, HistoryLimit);
    var r := seq(|top|, i requires 0 <= i < |top| => EntryOf(top[i]));
    forall e | e in r ensures exists x :: x in rows && e == EntryOf(x) {
      var i :| 0 <= i < |r| && r[i] == e;
      assert top[i] in top;
    }
    assert forall i, j :: 0 <= i < j < |r| ==> AtLeast(GeneratedKey(top[i]), GeneratedKey(top[j]));
    r
  }

  /** No row left out of the list is newer than a row in it. */
  lemma HistoryListNewest(rows: seq<HistoryRow>)
    ensures var top := Top(rows, GeneratedKey, HistoryLimit);
      forall x, y :: x in top && y in multiset(rows) - multiset(top) ==> x.generatedAt >= y.generatedAt
  {
    TopKeepsHighest(rows, GeneratedKey, HistoryLimit);
  }

  /** What GET /history/:id returns. */
  datatype HistoryDetail = HistoryDetail(
    id: string,
    ticketId: string,
    ticketSummary: string,
    templateName: string,
    provider: string,
    model: string,
    generatedAt: int,
    wordCount: nat,
    generationTimeMs: int,
    content: string)

  function FindEntry(rows: seq<HistoryRow>, id: string): (r: Option<nat>)
    ensures r.Some? ==> r.value < |rows| && rows[r.value].id == id
    ensures r.None? <==> !HasId(rows, id)
    ensures r.Some? && DistinctIds(rows) ==> forall j :: 0 <= j < |rows| && rows[j].id == id ==> j == r.value
    decreases |rows|
  {
    if rows == [] then None
    else if rows[0].id == id then Some(0)
    else
      var rest := FindEntry(rows[1..], id);
      assert forall j :: 1 <= j < |rows| ==> rows[j] == rows[1..][j - 1];
      if rest.None? then None else Some(rest.value + 1)
  }

  /** The error `readFileSync` raises for a missing file: a `code` and no
      status. */
  function ReadFailure(path: string): AppError {
    Base("ENOENT: no such file or directory, open '" + path + "'", None, Some("ENOENT"))
  }

  /** GET /history/:id: the row, then its content file. */
  function LookupEntry(rows: seq<HistoryRow>, files: map<string, string>, id: string): (r: Result<HistoryDetail, AppError>)
    ensures !HasId(rows, id) ==> r == Failure(ValidationError(HistoryMissing))
    ensures r.Success? ==>
      exists i :: 0 <= i < |rows| && rows[i].id == id
        && rows[i].fullContentPath in files && r.value.content == files[rows[i].fullContentPath]
    ensures FilesInPlace(rows, files) && HasId(rows, id) ==> r.Success?
  {
    match FindEntry(rows, id)
    case None => Failure(ValidationError(HistoryMissing))
    case Some(i) =>
      var h := rows[i];
      if h.fullContentPath !in files then Failure(ReadFailure(h.fullContentPath))
      else Success(HistoryDetail(h.id, h.ticketId, h.ticketSummary, h.templateName, h.provider, h.model,
                                 h.generatedAt, h.wordCount, h.generationTimeMs, files[h.fullContentPath]))
  }

  /** A stored plan reads back with the content that was generated, and
      storing it changes no other plan's content. */
  lemma AppendThenLookup(rows: seq<HistoryRow>, files: map<string, string>, row: HistoryRow, content: string)
    requires DistinctIds(rows) && FilesInPlace(rows, files) && !HasId(rows, row.id)
    requires row.fullContentPath == ContentPath(row.id)
    ensures var files' := files[row.fullContentPath := content];
      && LookupEntry(rows + [row], files', row.id).Success?
      && LookupEntry(rows + [row], files', row.id).value.content == content
      && forall i :: 0 <= i < |rows| ==> files'[rows[i].fullContentPath] == files[rows[i].fullContentPath]
  {
    var rows' := rows + [row];
    assert rows'[|rows|].id == row.id;
    forall j | 0 <= j < |rows| ensures rows'[j].id != row.id {
      assert rows'[j] == rows[j];
    }
    forall i | 0 <= i < |rows| ensures rows[i].fullContentPath != row.fullContentPath {
      if rows[i].fullContentPath == row.fullContentPath {
        ContentPathInjective(rows[i].id, row.id);
      }
    }
  }

  class HistoryLedger {
    var rows: seq<HistoryRow>
    /** The content files, by path. */
    var files: map<string, string>

    predicate Valid()
      reads this
    {
      DistinctIds(rows) && FilesInPlace(rows, files)
    }

    constructor ()
      ensures rows == [] && files == map[] && Valid()
    {
      rows := [];
      files := map[];
    }

    /** `writeFileSync` of the content, then the INSERT of the row. */
    method Append(row: HistoryRow, content: string)
      requires Valid() && !HasId(rows, row.id) && row.fullContentPath == ContentPath(row.id)
      modifies this
      ensures Valid()
      ensures files == old(files)[row.fullContentPath := content]
      ensures rows == old(rows) + [row]
    {
      AppendThenLookup(rows, files, row, content);
      files := files[row.fullContentPath := content];
      rows := rows + [row];
      assert forall i :: 0 <= i < |old(rows)| ==> rows[i] == old(rows)[i];
    }

    function List(): (r: seq<HistoryEntry>)
      reads this
      ensures |r| <= HistoryLimit
      ensures forall i, j :: 0 <= i < j < |r| ==> r[i].generatedAt >= r[j].generatedAt
    {
      HistoryList(rows)
    }

    function Get(id: string): (r: Result<HistoryDetail, AppError>)
      reads this
      requires Valid()
      ensures r.Success? <==> HasId(rows, id)
      ensures r.Failure? ==> r.error == ValidationError(HistoryMissing)
    {
      LookupEntry(rows, files, id)
    }
  }

  // ---------------------------------------------------------------------
  // POST /generate and GET /stream

  /** The services the routes reach over the network: the Jira issue API,
      the acceptance-criteria extractor, and each back-end's one-shot and
      streaming completion. */
  datatype Backends = Backends(
    jiraApi: (JiraConfig, string) -> Result<RawIssue, Thrown>,
    criteria: AdfValue -> Option<string>,
    groqApi: Groq.ChatRequest -> Result<Option<string>, Thrown>,
    groqStream: Groq.ChatRequest -> StreamReply,
    ollamaApi: Ollama.GenerateRequest -> Result<string, Thrown>,
    ollamaStream: Ollama.GenerateRequest -> StreamReply)

  /** `new JiraClient().fetchTicket(id)`: a fresh client reads its
      configuration first. */
  function Fetched(id: string, row: Option<SettingsRow>, jiraToken: Option<string>, o: Backends): Result<TicketData, AppError> {
    var cfg := ResolveJiraConfig(row, jiraToken);
    if cfg.Success? then FetchResult(id, o.jiraApi(cfg.value, id), o.criteria) else Failure(cfg.error)
  }

  /** What both routes have in hand before the back-end is called, with
      the system prompt they send. */
  datatype Prepared = Prepared(provider: string, ticket: TicketData, template: Templates.Template, systemPrompt: string)

  /** The steps both routes share, in their order: the key check, the
      ticket fetch, then the template row (`templateId` or the default
      template). */
  function Prepare(input: GenerateInput, row: Option<SettingsRow>, jiraToken: Option<string>,
                   templates: seq<Templates.Template>, o: Backends, systemPrompt: string): Result<Prepared, AppError> {
    match CheckTicketId(input.ticketId)
    case Failure(e) => Failure(e)
    case Success(id) =>
      var provider := ResolveProvider(input.provider, row);
      match Fetched(id, row, jiraToken, o)
      case Failure(e) => Failure(e)
      case Success(ticket) =>
        match Templates.FindById(templates, TemplateIdToUse(input.templateId))
        case None => Failure(ValidationError(TemplateMissing))
        case Some(i) => Success(Prepared(provider, ticket, templates[i], systemPrompt))
  }

  /** Preparation succeeds exactly when the key passes, the ticket is
      fetched and the template row exists; the first failing step's error
      is the route's error, and a missing template is a validation error
      raised only after the fetch. */
  lemma PrepareSteps(input: GenerateInput, row: Option<SettingsRow>, jiraToken: Option<string>,
                     templates: seq<Templates.Template>, o: Backends, systemPrompt: string)
    ensures var r := Prepare(input, row, jiraToken, templates, o, systemPrompt);
      && (CheckTicketId(input.ticketId).Failure? ==> r == Failure(CheckTicketId(input.ticketId).error))
      && (r.Success? <==>
            && CheckTicketId(input.ticketId).Success?
            && Fetched(CheckTicketId(input.ticketId).value, row, jiraToken, o).Success?
            && Templates.HasId(templates, TemplateIdToUse(input.templateId)))
      && (r.Success? ==>
            && r.value.provider == ResolveProvider(input.provider, row)
            && r.value.ticket == Fetched(CheckTicketId(input.ticketId).value, row, jiraToken, o).value
            && r.value.template in templates
            && r.value.template.id == TemplateIdToUse(input.templateId)
            && r.value.systemPrompt == systemPrompt)
      && (CheckTicketId(input.ticketId).Success?
            && Fetched(CheckTicketId(input.ticketId).value, row, jiraToken, o).Success?
            && !Templates.HasId(templates, TemplateIdToUse(input.templateId)) ==>
              r == Failure(ValidationError(TemplateMissing)))
  {
  }

  /** A ticket fetch fails on a missing Jira configuration with the
      configuration's error, and otherwise exactly when the API call does. */
  lemma FetchedCases(id: string, row: Option<SettingsRow>, jiraToken: Option<string>, o: Backends)
    ensures var cfg := ResolveJiraConfig(row, jiraToken);
      && (cfg.Failure? ==> Fetched(id, row, jiraToken, o) == Failure(cfg.error))
      && (cfg.Success? ==> (Fetched(id, row, jiraToken, o).Success? <==> o.jiraApi(cfg.value, id).Success?))
  {
  }

  function RequestOf(p: Prepared): GenerationRequest {
    GenerationRequest(p.ticket, p.template.extractedText, p.systemPrompt)
  }

  /** The back-end's answer: Groq when the provider is exactly `groq`,
      Ollama for anything else, each through a fresh provider. */
  function Generated(p: Prepared, row: Option<SettingsRow>, groqKey: Option<string>, o: Backends): Result<string, AppError> {
    if p.provider == "groq" then
      match Groq.ResolveGroqConfig(row, groqKey)
      case Failure(e) => Failure(e)
      case Success(c) => Groq.GenerateOutcome(o.groqApi(Groq.ChatRequestFor(c, RequestOf(p), false)))
    else
      var c := Ollama.ResolveOllamaConfig(row);
      Ollama.GenerateOutcome(c.model, o.ollamaApi(Ollama.GenerateRequestFor(c, RequestOf(p), false)))
  }

  /** Groq without a key fails before any call and never answers with an
      empty plan; Ollama succeeds exactly when its call does. */
  lemma GeneratedCases(p: Prepared, row: Option<SettingsRow>, groqKey: Option<string>, o: Backends)
    ensures var r := Generated(p, row, groqKey, o);
      && (p.provider == "groq" && !Present(groqKey) ==> r == Failure(LlmError(Groq.KeyMissing, None)))
      && (p.provider == "groq" && r.Success? ==> r.value != "")
      && (p.provider != "groq" ==>
            (r.Success? <==> o.ollamaApi(Ollama.GenerateRequestFor(Ollama.ResolveOllamaConfig(row), RequestOf(p), false)).Success?))
  {
  }

  /** The `testPlan` of the response. */
  datatype TestPlan = TestPlan(
    id: string,
    ticketId: string,
    ticketSummary: string,
    templateName: string,
    provider: string,
    model: string,
    content: string,
    wordCount: nat,
    generationTimeMs: int)

  function PlanOf(p: Prepared, row: Option<SettingsRow>, content: string, historyId: string, elapsed: int): TestPlan {
    TestPlan(historyId, p.ticket.key, p.ticket.summary, p.template.name, p.provider,
             ModelUsed(p.provider, row), content, WordCount(content), elapsed)
  }

  /** The `generation_history` row stored for a plan. */
  function HistoryRowOf(p: Prepared, plan: TestPlan, generatedAt: int): (h: HistoryRow)
    ensures h.id == plan.id && h.fullContentPath == ContentPath(plan.id)
    ensures h.templateId == p.template.id && h.preview == Preview(plan.content)
  {
    HistoryRow(plan.id, plan.ticketId, plan.ticketSummary, p.template.id, plan.templateName, plan.provider,
               plan.model, Preview(plan.content), ContentPath(plan.id), plan.wordCount, plan.generationTimeMs, generatedAt)
  }

  /** What a successful generation leaves behind: the response's test
      plan and the history row stored for it. */
  datatype Generation = Generation(plan: TestPlan, stored: HistoryRow)

  /** The steps after preparation: the back-end's answer, the plan built
      from it, and its history row stamped `finish`. */
  function Produced(p: Prepared, row: Option<SettingsRow>, groqKey: Option<string>, o: Backends,
                    historyId: string, start: int, finish: int): Result<Generation, AppError> {
    match Generated(p, row, groqKey, o)
    case Failure(e) => Failure(e)
    case Success(content) =>
      var plan := PlanOf(p, row, content, historyId, finish - start);
      Success(Generation(plan, HistoryRowOf(p, plan, finish)))
  }

  /** The whole of POST /generate as a value: the plan and its row, or the
      first error on the way. `start` and `finish` are the clock readings
      around it. */
  function PlanFor(input: GenerateInput, row: Option<SettingsRow>, jiraToken: Option<string>, groqKey: Option<string>,
                   templates: seq<Templates.Template>, o: Backends, systemPrompt: string, historyId: string, start: int, finish: int)
    : Result<Generation, AppError>
  {
    match Prepare(input, row, jiraToken, templates, o, systemPrompt)
    case Failure(e) => Failure(e)
    case Success(p) => Produced(p, row, groqKey, o, historyId, start, finish)
  }

  /** A plan is produced exactly when preparation and generation both
      succeed; it carries the generated content, its word count, the
      elapsed time, the resolved provider and that provider's model, and
      its row points at the plan's content file and holds its preview. */
  lemma PlanForMeaning(input: GenerateInput, row: Option<SettingsRow>, jiraToken: Option<string>, groqKey: Option<string>,
                       templates: seq<Templates.Template>, o: Backends, systemPrompt: string, historyId: string, start: int, finish: int)
    ensures var r := PlanFor(input, row, jiraToken, groqKey, templates, o, systemPrompt, historyId, start, finish);
      var prep := Prepare(input, row, jiraToken, templates, o, systemPrompt);
      && (r.Success? <==> prep.Success? && Generated(prep.value, row, groqKey, o).Success?)
      && (prep.Failure? ==> r == Failure(prep.error))
      && (r.Success? ==>
            && r.value.plan.id == historyId
            && r.value.plan.content == Generated(prep.value, row, groqKey, o).value
            && r.value.plan.wordCount == 1 + RunStarts(r.value.plan.content, false)
            && r.value.plan.generationTimeMs == finish - start
            && r.value.plan.provider == ResolveProvider(input.provider, row)
            && r.value.plan.model == ModelUsed(r.value.plan.provider, row)
            && r.value.plan.ticketId == prep.value.ticket.key
            && r.value.plan.templateName == prep.value.template.name
            && r.value.stored.id == historyId
            && r.value.stored.fullContentPath == ContentPath(historyId)
            && r.value.stored.templateId == TemplateIdToUse(input.templateId)
            && r.value.stored.preview == Preview(r.value.plan.content)
            && r.value.stored.generatedAt == finish)
  {
    PrepareSteps(input, row, jiraToken, templates, o, systemPrompt);
  }

  /** The plan records the model of the stored row, while its back-end was
      called with the default model. */
  lemma PlanModelVersusRequest(input: GenerateInput, row: Option<SettingsRow>, jiraToken: Option<string>, groqKey: Option<string>,
                               templates: seq<Templates.Template>, o: Backends, systemPrompt: string, historyId: string, start: int, finish: int)
    requires PlanFor(input, row, jiraToken, groqKey, templates, o, systemPrompt, historyId, start, finish).Success?
    ensures var plan := PlanFor(input, row, jiraToken, groqKey, templates, o, systemPrompt, historyId, start, finish).value.plan;
      var req := RequestOf(Prepare(input, row, jiraToken, templates, o, systemPrompt).value);
      && (plan.provider == "groq" ==>
            Groq.ResolveGroqConfig(row, groqKey).Success?
            && Groq.ChatRequestFor(Groq.ResolveGroqConfig(row, groqKey).value, req, false).model == DefaultGroqModel
            && plan.model == ReadSettings(row).groqModel)
      && (plan.provider != "groq" ==>
            Ollama.GenerateRequestFor(Ollama.ResolveOllamaConfig(row), req, false).model == DefaultOllamaModel
            && plan.model == ReadSettings(row).ollamaModel)
  {
    var p := Prepare(input, row, jiraToken, templates, o, systemPrompt).value;
    PlanForMeaning(input, row, jiraToken, groqKey, templates, o, systemPrompt, historyId, start, finish);
    assert Generated(p, row, groqKey, o).Success?;
  }

  /** The recent-tickets cache after either route: written exactly when
      the key passed the check and the fetch succeeded, whatever happens
      afterwards. */
  function RecentAfter(rows: seq<RecentRow>, input: GenerateInput, row: Option<SettingsRow>, jiraToken: Option<string>,
                       o: Backends, fetchedAt: int, write: CacheWrite): (r: seq<RecentRow>)
    requires DistinctKeys(rows)
    ensures DistinctKeys(r)
    ensures CheckTicketId(input.ticketId).Failure? ==> r == rows
  {
    match CheckTicketId(input.ticketId)
    case Failure(_) => rows
    case Success(id) =>
      match Fetched(id, row, jiraToken, o)
      case Failure(_) => rows
      case Success(ticket) => SaveRecent(rows, ticket, fetchedAt, write)
  }

  /** Whether the request reached the Ollama provider (whose configuration
      sets `OLLAMA_HOST`). */
  predicate ReachesOllama(input: GenerateInput, row: Option<SettingsRow>, jiraToken: Option<string>,
                          templates: seq<Templates.Template>, o: Backends, systemPrompt: string) {
    Prepare(input, row, jiraToken, templates, o, systemPrompt).Success? && Prepare(input, row, jiraToken, templates, o, systemPrompt).value.provider != "groq"
  }

  /** The route's steps up to the back-end call: a fresh Jira client
      fetches the ticket (and writes the cache), then the template row is
      looked up. */
  method PrepareRequest(input: GenerateInput, settings: SettingsStore, vault: Vault, recent: RecentTickets,
                        templates: Templates.TemplateStore, o: Backends, systemPrompt: string, fetchedAt: int, write: CacheWrite)
    returns (r: Result<Prepared, AppError>)
    requires recent.Valid()
    modifies recent
    ensures recent.Valid()
    ensures r == Prepare(input, settings.row, vault.Get(JiraTokenAccount), templates.rows, o, systemPrompt)
    ensures recent.rows == RecentAfter(old(recent.rows), input, settings.row, vault.Get(JiraTokenAccount), o, fetchedAt, write)
  {
    var checked := CheckTicketId(input.ticketId);
    if checked.Failure? {
      return Failure(checked.error);
    }
    var provider := ResolveProvider(input.provider, settings.row);
    var jira := new JiraClient();
    var ticket := jira.FetchTicket(checked.value, settings, vault, o.jiraApi, o.criteria, recent, fetchedAt, write);
    if ticket.Failure? {
      return Failure(ticket.error);
    }
    var found := Templates.FindById(templates.rows, TemplateIdToUse(input.templateId));
    if found.None? {
      return Failure(ValidationError(TemplateMissing));
    }
    r := Success(Prepared(provider, ticket.value, templates.rows[found.value], systemPrompt));
  }

  /** The back-end call of POST /generate, through a fresh provider. */
  method GenerateContent(p: Prepared, settings: SettingsStore, vault: Vault, env: Ollama.ProcessEnv, o: Backends)
    returns (r: Result<string, AppError>)
    modifies env
    ensures r == Generated(p, settings.row, vault.Get(GroqKeyAccount), o)
    ensures env.ollamaHost == if p.provider != "groq" then Some(Ollama.ResolveOllamaConfig(settings.row).baseUrl) else old(env.ollamaHost)
  {
    if p.provider == "groq" {
      var groq := new Groq.GroqProvider();
      r := groq.GenerateTestPlan(RequestOf(p), settings, vault, o.groqApi);
    } else {
      var ollama := new Ollama.OllamaProvider();
      r := ollama.GenerateTestPlan(RequestOf(p), settings, env, o.ollamaApi);
    }
  }

  /** The steps of POST /generate after preparation: the back-end call,
      then the content file and the history row, written only when the
      back-end answered. */
  method Produce(p: Prepared, settings: SettingsStore, vault: Vault, env: Ollama.ProcessEnv, ledger: HistoryLedger,
                 o: Backends, historyId: string, start: int, finish: int)
    returns (r: Result<Generation, AppError>)
    requires ledger.Valid() && !HasId(ledger.rows, historyId)
    modifies env, ledger
    ensures r == Produced(p, settings.row, vault.Get(GroqKeyAccount), o, historyId, start, finish)
    ensures ledger.Valid()
    ensures r.Success? ==>
      && ledger.rows == old(ledger.rows) + [r.value.stored]
      && ledger.files == old(ledger.files)[ContentPath(historyId) := r.value.plan.content]
      && ledger.Get(historyId).Success?
      && ledger.Get(historyId).value.content == r.value.plan.content
    ensures r.Failure? ==> ledger.rows == old(ledger.rows) && ledger.files == old(ledger.files)
    ensures env.ollamaHost == if p.provider != "groq" then Some(Ollama.ResolveOllamaConfig(settings.row).baseUrl) else old(env.ollamaHost)
  {
    var content := GenerateContent(p, settings, vault, env, o);
    if content.Failure? {
      return Failure(content.error);
    }
    var plan := PlanOf(p, settings.row, content.value, historyId, finish - start);
    var h := HistoryRowOf(p, plan, finish);
    AppendThenLookup(ledger.rows, ledger.files, h, content.value);
    ledger.Append(h, content.value);
    r := Success(Generation(plan, h));
  }

  /** What `/stream` writes: one `data:` event per chunk, then `done`. */
  datatype StreamEvent = Chunk(text: string) | Done

  /** The events written for the chunks a back-end yielded and how its
      stream ended: `done` only when nothing was thrown. */
  function StreamEvents(result: StreamResult): (r: seq<StreamEvent>)
    ensures |r| == |result.yielded| + (if result.error.None? then 1 else 0)
    ensures forall i :: 0 <= i < |result.yielded| ==> r[i] == Chunk(result.yielded[i])
    ensures result.error.None? ==> r[|r| - 1] == Done
  {
    seq(|result.yielded|, i requires 0 <= i < |result.yielded| => Chunk(result.yielded[i]))
      + (if result.error.None? then [Done] else [])
  }

  function ChunkTexts(events: seq<StreamEvent>): seq<string> {
    if events == [] then []
    else (if events[0].Chunk? then [events[0].text] else []) + ChunkTexts(events[1..])
  }

  /** The chunk events carry, in order, exactly the non-empty text the
      back-end streamed: joined, they are the whole streamed answer. */
  lemma StreamEventsCarryText(result: StreamResult, chunks: seq<Option<string>>)
    requires result.yielded == TruthyTexts(chunks)
    ensures ChunkTexts(StreamEvents(result)) == result.yielded
    ensures Concat(ChunkTexts(StreamEvents(result))) == Concat(Texts(chunks))
  {
    var texts := result.yielded;
    var tail := if result.error.None? then [Done] else [];
    var es := seq(|texts|, i requires 0 <= i < |texts| => Chunk(texts[i])) + tail;
    assert StreamEvents(result) == es;
    ChunkTextsOf(texts, tail);
    TruthyTextsKeepText(chunks);
  }

  lemma {:induction false} ChunkTextsOf(texts: seq<string>, tail: seq<StreamEvent>)
    requires forall i :: 0 <= i < |tail| ==> tail[i].Done?
    ensures ChunkTexts(seq(|texts|, i requires 0 <= i < |texts| => Chunk(texts[i])) + tail) == texts
    decreases |texts|
  {
    var es := seq(|texts|, i requires 0 <= i < |texts| => Chunk(texts[i])) + tail;
    if texts == [] {
      assert es == tail;
      DoneTexts(tail);
    } else {
      var rest := seq(|texts| - 1, i requires 0 <= i < |texts| - 1 => Chunk(texts[1..][i]));
      assert es[0] == Chunk(texts[0]);
      assert es[1..] == rest + tail;
      ChunkTextsOf(texts[1..], tail);
      assert texts == [texts[0]] + texts[1..];
    }
  }

  lemma {:induction false} DoneTexts(tail: seq<StreamEvent>)
    requires forall i :: 0 <= i < |tail| ==> tail[i].Done?
    ensures ChunkTexts(tail) == []
    decreases |tail|
  {
    if tail != [] {
      assert forall i :: 0 <= i < |tail| - 1 ==> tail[1..][i] == tail[i + 1];
      DoneTexts(tail[1..]);
    }
  }

  /** The back-end's stream for a prepared request, through a fresh
      provider. */
  function Streamed(p: Prepared, row: Option<SettingsRow>, groqKey: Option<string>, o: Backends): (r: StreamResult)
    ensures p.provider == "groq" && !Present(groqKey) ==> r == StreamResult([], Some(LlmError(Groq.KeyMissing, None)))
    ensures forall x :: x in r.yielded ==> x != ""
  {
    if p.provider == "groq" then
      match Groq.ResolveGroqConfig(row, groqKey)
      case Failure(e) => StreamResult([], Some(e))
      case Success(c) => Groq.StreamOutcome(o.groqStream(Groq.ChatRequestFor(c, RequestOf(p), true)))
    else
      Ollama.StreamOutcome(o.ollamaStream(Ollama.GenerateRequestFor(Ollama.ResolveOllamaConfig(row), RequestOf(p), true)))
  }

  /** The back-end call of GET /stream, through a fresh provider. */
  method StreamContent(p: Prepared, settings: SettingsStore, vault: Vault, env: Ollama.ProcessEnv, o: Backends)
    returns (r: StreamResult)
    modifies env
    ensures r == Streamed(p, settings.row, vault.Get(GroqKeyAccount), o)
    ensures env.ollamaHost == if p.provider != "groq" then Some(Ollama.ResolveOllamaConfig(settings.row).baseUrl) else old(env.ollamaHost)
  {
    if p.provider == "groq" {
      var groq := new Groq.GroqProvider();
      r := groq.StreamTestPlan(RequestOf(p), settings, vault, o.groqStream);
    } else {
      var ollama := new Ollama.OllamaProvider();
      r := ollama.StreamTestPlan(RequestOf(p), settings, env, o.ollamaStream);
    }
  }

  /** The chunks forwarded one event each, then `done` if the stream
      ended cleanly. */
  method Forward(s: StreamResult) returns (events: seq<StreamEvent>)
    ensures events == StreamEvents(s)
  {
    events := [];
    var i := 0;
    while i < |s.yielded|
      invariant 0 <= i <= |s.yielded|
      invariant |events| == i
      invariant forall k :: 0 <= k < i ==> events[k] == Chunk(s.yielded[k])
    {
      events := events + [Chunk(s.yielded[i])];
      i := i + 1;
    }
    if s.error.None? {
      events := events + [Done];
    }
  }

  /** The `/api/llm` router: the system prompt it sends with every
      request, and its two generation routes. */
  class LlmRouter {
    const systemPrompt: string

    constructor ()
      ensures systemPrompt == SystemPrompt
    {
      systemPrompt := SystemPrompt;
    }

    /** POST /generate: prepare, call the chosen back-end, then write the
        content file and the history row. The response is `r.value.plan`. A
        failure at any step leaves the history as it was, and the cache write
        of a fetched ticket stays even when a later step fails. */
    method Generate(input: GenerateInput, settings: SettingsStore, vault: Vault, env: Ollama.ProcessEnv,
                    recent: RecentTickets, templates: Templates.TemplateStore, ledger: HistoryLedger,
                    o: Backends, start: int, fetchedAt: int, finish: int, write: CacheWrite, historyId: string)
      returns (r: Result<Generation, AppError>)
      requires recent.Valid() && ledger.Valid()
      requires !HasId(ledger.rows, historyId)
      modifies recent, env, ledger
      ensures r == PlanFor(input, settings.row, vault.Get(JiraTokenAccount), vault.Get(GroqKeyAccount), templates.rows, o, systemPrompt, historyId, start, finish)
      ensures recent.Valid() && ledger.Valid()
      ensures recent.rows == RecentAfter(old(recent.rows), input, settings.row, vault.Get(JiraTokenAccount), o, fetchedAt, write)
      ensures r.Success? ==>
        && ledger.rows == old(ledger.rows) + [r.value.stored]
        && ledger.files == old(ledger.files)[ContentPath(historyId) := r.value.plan.content]
        && ledger.Get(historyId).Success?
        && ledger.Get(historyId).value.content == r.value.plan.content
      ensures r.Failure? ==> ledger.rows == old(ledger.rows) && ledger.files == old(ledger.files)
      ensures env.ollamaHost ==
        if ReachesOllama(input, settings.row, vault.Get(JiraTokenAccount), templates.rows, o, systemPrompt)
        then Some(Ollama.ResolveOllamaConfig(settings.row).baseUrl) else old(env.ollamaHost)
    {
      var prepared := PrepareRequest(input, settings, vault, recent, templates, o, systemPrompt, fetchedAt, write);
      if prepared.Failure? {
        return Failure(prepared.error);
      }
      r := Produce(prepared.value, settings, vault, env, ledger, o, historyId, start, finish);
    }

    /** GET /stream: the same preparation as POST /generate, then the
        back-end's chunks forwarded one event each as they arrive, and
        `done` when the stream ended cleanly. An error before or during the
        stream is handed on after the events already written; no history row
        is stored. */
    method Stream(input: GenerateInput, settings: SettingsStore, vault: Vault, env: Ollama.ProcessEnv,
                  recent: RecentTickets, templates: Templates.TemplateStore,
                  o: Backends, fetchedAt: int, write: CacheWrite)
      returns (events: seq<StreamEvent>, failure: Option<AppError>)
      requires recent.Valid()
      modifies recent, env
      ensures recent.Valid()
      ensures recent.rows == RecentAfter(old(recent.rows), input, settings.row, vault.Get(JiraTokenAccount), o, fetchedAt, write)
      ensures var prepared := Prepare(input, settings.row, vault.Get(JiraTokenAccount), templates.rows, o, systemPrompt);
        if prepared.Failure? then events == [] && failure == Some(prepared.error)
        else
          var s := Streamed(prepared.value, settings.row, vault.Get(GroqKeyAccount), o);
          events == StreamEvents(s) && failure == s.error
      ensures env.ollamaHost ==
        if ReachesOllama(input, settings.row, vault.Get(JiraTokenAccount), templates.rows, o, systemPrompt)
        then Some(Ollama.ResolveOllamaConfig(settings.row).baseUrl) else old(env.ollamaHost)
    {
      var prepared := PrepareRequest(input, settings, vault, recent, templates, o, systemPrompt, fetchedAt, write);
      if prepared.Failure? {
        return [], Some(prepared.error);
      }
      var s := StreamContent(prepared.value, settings, vault, env, o);
      events := Forward(s);
      failure := s.error;
    }
  }
}
