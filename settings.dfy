/** The singleton `settings` row (id 1), the keychain that holds the two
    secrets, and the three settings routes: read with defaults, save the
    Jira connection, save the LLM provider. A missing row is `None`: every
    read then falls back to its default and every UPDATE changes nothing.
    A missing request field or column (`undefined`/`null`) is `None`. */
module Settings {
  import opened Wrappers
  import opened Strings
  import opened Errors
  import opened Validators

  const DefaultProvider := "groq"
  const DefaultGroqModel := "openai/gpt-oss-120b"
  const DefaultTemperature: real := 0.7
  const DefaultOllamaUrl := "http://localhost:11434"
  const DefaultOllamaModel := "llama3.1"

  /** The keychain account names. */
  const JiraTokenAccount := "jira-api-token"
  const GroqKeyAccount := "groq-api-key"

  datatype SettingsRow = SettingsRow(
    jiraBaseUrl: Option<string>,
    jiraUsername: Option<string>,
    llmProvider: Option<string>,
    groqModel: Option<string>,
    groqTemperature: Option<real>,
    ollamaBaseUrl: Option<string>,
    ollamaModel: Option<string>,
    updatedAt: Option<int>)

  /** `settings?.column` for a string column. */
  function Column(row: Option<SettingsRow>, get: SettingsRow -> Option<string>): Option<string> {
    if row.Some? then get(row.value) else None
  }

  function TemperatureColumn(row: Option<SettingsRow>): Option<real> {
    if row.Some? then row.value.groqTemperature else None
  }

  // ---------------------------------------------------------------------
  // GET /api/settings

  /** What the read route returns: the row's values with defaults, and no
      secret (neither the Jira token nor the Groq key is a field). */
  datatype SettingsView = SettingsView(
    jiraBaseUrl: string,
    jiraUsername: string,
    provider: string,
    groqModel: string,
    groqTemperature: real,
    ollamaBaseUrl: string,
    ollamaModel: string)

  /** The value read for a string column: the stored text when it is
      truthy, the fallback otherwise. */
  predicate ReadsAs(stored: Option<string>, got: string, fallback: string) {
    (Present(stored) ==> got == stored.value) && (!Present(stored) ==> got == fallback)
  }

  /** Every string column falls back when missing or empty (`||`); the
      temperature only when missing (`??`), so a stored 0 is returned. */
  function ReadSettings(row: Option<SettingsRow>): (v: SettingsView)
    ensures v.provider != "" && v.groqModel != "" && v.ollamaBaseUrl != "" && v.ollamaModel != ""
    ensures TemperatureColumn(row).Some? ==> v.groqTemperature == TemperatureColumn(row).value
    ensures TemperatureColumn(row).None? ==> v.groqTemperature == DefaultTemperature
    ensures row.Some? ==> ReadsAs(row.value.jiraBaseUrl, v.jiraBaseUrl, "")
    ensures row.Some? ==> ReadsAs(row.value.jiraUsername, v.jiraUsername, "")
    ensures row.Some? ==> ReadsAs(row.value.llmProvider, v.provider, DefaultProvider)
    ensures row.Some? ==> ReadsAs(row.value.groqModel, v.groqModel, DefaultGroqModel)
    ensures row.Some? ==> ReadsAs(row.value.ollamaBaseUrl, v.ollamaBaseUrl, DefaultOllamaUrl)
    ensures row.Some? ==> ReadsAs(row.value.ollamaModel, v.ollamaModel, DefaultOllamaModel)
    ensures row.None? ==> v == SettingsView("", "", DefaultProvider, DefaultGroqModel, DefaultTemperature,
                                            DefaultOllamaUrl, DefaultOllamaModel)
  {
    SettingsView(
      OrElse(Column(row, (r: SettingsRow) => r.jiraBaseUrl), ""),
      OrElse(Column(row, (r: SettingsRow) => r.jiraUsername), ""),
      OrElse(Column(row, (r: SettingsRow) => r.llmProvider), DefaultProvider),
      OrElse(Column(row, (r: SettingsRow) => r.groqModel), DefaultGroqModel),
      TemperatureColumn(row).GetOr(DefaultTemperature),
      OrElse(Column(row, (r: SettingsRow) => r.ollamaBaseUrl), DefaultOllamaUrl),
      OrElse(Column(row, (r: SettingsRow) => r.ollamaModel), DefaultOllamaModel))
  }

  /** With no row at all, the read returns the defaults. */
  lemma ReadDefaults()
    ensures ReadSettings(None) == SettingsView("", "", "groq", "openai/gpt-oss-120b", 0.7, "http://localhost:11434", "llama3.1")
  {
  }

  /** What `db.prepare(sql).get()` hands the two LLM providers. In
      node-sqlite3, `Statement.get` called without a callback queues the
      query and returns the statement itself, so the object the providers
      read has none of the columns: every `settings?.column` is missing,
      whatever the table holds. */
  const StatementRow: Option<SettingsRow> := Some(SettingsRow(None, None, None, None, None, None, None, None))

  // ---------------------------------------------------------------------
  // The keychain

  /** The secure store behind keytar: account name to secret. */
  class Vault {
    var secrets: map<string, string>

    constructor (initial: map<string, string>)
      ensures secrets == initial
    {
      secrets := initial;
    }

    /** `getPassword`: null when the account has no entry. */
    function Get(account: string): (r: Option<string>)
      reads this
      ensures r.Some? <==> account in secrets
      ensures r.Some? ==> r.value == secrets[account]
    {
      if account in secrets then Some(secrets[account]) else None
    }

    method Set(account: string, secret: string)
      modifies this
      ensures secrets == old(secrets)[account := secret]
    {
      secrets := secrets[account := secret];
    }
  }

  // ---------------------------------------------------------------------
  // POST /api/settings/jira

  datatype JiraSettingsInput = JiraSettingsInput(baseUrl: Option<string>, username: Option<string>, apiToken: Option<string>)

  function Present(s: Option<string>): bool { s.Some? && s.value != "" }

  /** The checks of the Jira save, in order: all three fields truthy, then
      an HTTPS URL. `parse` is the URL parser. */
  function CheckJiraInput(input: JiraSettingsInput, parse: string -> ParsedUrl): (r: Outcome<AppError>)
    ensures r.Pass? <==>
      Present(input.baseUrl) && Present(input.username) && Present(input.apiToken) && ValidateUrl(parse(input.baseUrl.value))
    ensures r.Fail? ==> r.error.ValidationError?
    ensures !(Present(input.baseUrl) && Present(input.username) && Present(input.apiToken)) ==>
      r == Fail(ValidationError("Missing required fields: baseUrl, username, apiToken"))
  {
    if !Present(input.baseUrl) || !Present(input.username) || !Present(input.apiToken) then
      Fail(ValidationError("Missing required fields: baseUrl, username, apiToken"))
    else if !ValidateUrl(parse(input.baseUrl.value)) then
      Fail(ValidationError("Invalid JIRA base URL. Must be a valid HTTPS URL."))
    else Pass
  }

  /** The UPDATE of the Jira save: the URL, user name and timestamp columns
      of the row, nothing else. */
  function WithJira(row: Option<SettingsRow>, baseUrl: string, username: string, now: int): Option<SettingsRow> {
    if row.None? then None
    else Some(row.value.(jiraBaseUrl := Some(baseUrl), jiraUsername := Some(username), updatedAt := Some(now)))
  }

  /** The Jira save touches none of the LLM columns, and a read afterwards
      returns the saved URL and user name. */
  lemma WithJiraThenRead(row: SettingsRow, baseUrl: string, username: string, now: int)
    requires baseUrl != "" && username != ""
    ensures var after := ReadSettings(WithJira(Some(row), baseUrl, username, now));
      && after.jiraBaseUrl == baseUrl && after.jiraUsername == username
      && after.(jiraBaseUrl := "", jiraUsername := "") == ReadSettings(Some(row)).(jiraBaseUrl := "", jiraUsername := "")
  {
  }

  // ---------------------------------------------------------------------
  // POST /api/settings/llm

  datatype GroqInput = GroqInput(apiKey: Option<string>, model: Option<string>, temperature: Option<real>)
  datatype OllamaInput = OllamaInput(baseUrl: Option<string>, model: Option<string>)
  datatype LlmSettingsInput = LlmSettingsInput(provider: Option<string>, groq: Option<GroqInput>, ollama: Option<OllamaInput>)

  /** `!provider || !['groq', 'ollama'].includes(provider)`. */
  function CheckProvider(provider: Option<string>): (r: Outcome<AppError>)
    ensures r.Pass? <==> provider == Some("groq") || provider == Some("ollama")
    ensures r.Fail? ==> r.error == ValidationError("Invalid provider. Must be \"groq\" or \"ollama\"")
  {
    if provider.Some? && (provider.value == "groq" || provider.value == "ollama") then Pass
    else Fail(ValidationError("Invalid provider. Must be \"groq\" or \"ollama\""))
  }

  /** The values the Groq branch writes: the model with its default (`||`)
      and the temperature with its default (`??`). */
  function GroqModelOf(g: Option<GroqInput>): string {
    OrElse(if g.Some? then g.value.model else None, DefaultGroqModel)
  }

  function GroqTemperatureOf(g: Option<GroqInput>): real {
    if g.Some? && g.value.temperature.Some? then g.value.temperature.value else DefaultTemperature
  }

  function OllamaUrlOf(o: Option<OllamaInput>): string {
    OrElse(if o.Some? then o.value.baseUrl else None, DefaultOllamaUrl)
  }

  function OllamaModelOf(o: Option<OllamaInput>): string {
    OrElse(if o.Some? then o.value.model else None, DefaultOllamaModel)
  }

  function WithGroq(row: Option<SettingsRow>, g: Option<GroqInput>): Option<SettingsRow> {
    if row.None? then None
    else Some(row.value.(llmProvider := Some("groq"), groqModel := Some(GroqModelOf(g)),
                         groqTemperature := Some(GroqTemperatureOf(g))))
  }

  function WithOllama(row: Option<SettingsRow>, o: Option<OllamaInput>): Option<SettingsRow> {
    if row.None? then None
    else Some(row.value.(llmProvider := Some("ollama"), ollamaBaseUrl := Some(OllamaUrlOf(o)),
                         ollamaModel := Some(OllamaModelOf(o))))
  }

  /** After a Groq save, a read reports the Groq provider, the given model
      (or its default) and the given temperature, including 0 (or 0.7 when
      none was given); the Jira and Ollama values read as before. */
  lemma WithGroqThenRead(row: SettingsRow, g: Option<GroqInput>)
    ensures var before := ReadSettings(Some(row));
      var after := ReadSettings(WithGroq(Some(row), g));
      && after.provider == "groq"
      && after.groqModel == (if g.Some? && Present(g.value.model) then g.value.model.value else DefaultGroqModel)
      && after.groqTemperature == (if g.Some? && g.value.temperature.Some? then g.value.temperature.value else 0.7)
      && after.jiraBaseUrl == before.jiraBaseUrl && after.jiraUsername == before.jiraUsername
      && after.ollamaBaseUrl == before.ollamaBaseUrl && after.ollamaModel == before.ollamaModel
  {
  }

  /** After an Ollama save, a read reports the Ollama provider and the given
      URL and model (or their defaults); the Jira and Groq values read as
      before. */
  lemma WithOllamaThenRead(row: SettingsRow, o: Option<OllamaInput>)
    ensures var before := ReadSettings(Some(row));
      var after := ReadSettings(WithOllama(Some(row), o));
      && after.provider == "ollama"
      && after.ollamaBaseUrl == (if o.Some? && Present(o.value.baseUrl) then o.value.baseUrl.value else DefaultOllamaUrl)
      && after.ollamaModel == (if o.Some? && Present(o.value.model) then o.value.model.value else DefaultOllamaModel)
      && after.jiraBaseUrl == before.jiraBaseUrl && after.jiraUsername == before.jiraUsername
      && after.groqModel == before.groqModel && after.groqTemperature == before.groqTemperature
  {
  }

  // ---------------------------------------------------------------------
  // The table

  class SettingsStore {
    var row: Option<SettingsRow>

    constructor (initial: Option<SettingsRow>)
      ensures row == initial
    {
      row := initial;
    }

    /** `SELECT * FROM settings WHERE id = 1` followed by the read route's
        defaults. */
    function Read(): (v: SettingsView)
      reads this
      ensures v.provider != "" && v.groqModel != "" && v.ollamaBaseUrl != "" && v.ollamaModel != ""
      ensures v == ReadSettings(row)
    {
      ReadSettings(row)
    }

    /** POST /jira. On a failed check nothing is written; otherwise the
        row's Jira columns are updated, then the token is put in the
        keychain. */
    method SaveJira(input: JiraSettingsInput, parse: string -> ParsedUrl, vault: Vault, now: int)
      returns (r: Outcome<AppError>)
      modifies this, vault
      ensures r == CheckJiraInput(input, parse)
      ensures r.Fail? ==> row == old(row) && vault.secrets == old(vault.secrets)
      ensures r.Pass? ==>
        && row == WithJira(old(row), input.baseUrl.value, input.username.value, now)
        && vault.secrets == old(vault.secrets)[JiraTokenAccount := input.apiToken.value]
    {
      r := CheckJiraInput(input, parse);
      if r.Pass? {
        row := WithJira(row, input.baseUrl.value, input.username.value, now);
        vault.Set(JiraTokenAccount, input.apiToken.value);
      }
    }

    /** POST /llm. An unknown provider writes nothing. For `groq` the key is
        stored only when one is given, then the provider, model and
        temperature columns are updated; for `ollama` the provider, URL and
        model columns are updated and the keychain is untouched. */
    method SaveLlm(input: LlmSettingsInput, vault: Vault) returns (r: Outcome<AppError>)
      modifies this, vault
      ensures r == CheckProvider(input.provider)
      ensures r.Fail? ==> row == old(row) && vault.secrets == old(vault.secrets)
      ensures r.Pass? && input.provider == Some("groq") ==>
        && row == WithGroq(old(row), input.groq)
        && vault.secrets == (if input.groq.Some? && Present(input.groq.value.apiKey)
                             then old(vault.secrets)[GroqKeyAccount := input.groq.value.apiKey.value]
                             else old(vault.secrets))
      ensures r.Pass? && input.provider == Some("ollama") ==>
        row == WithOllama(old(row), input.ollama) && vault.secrets == old(vault.secrets)
    {
      r := CheckProvider(input.provider);
      if r.Fail? {
        return;
      }
      if input.provider.value == "groq" {
        if input.groq.Some? && Present(input.groq.value.apiKey) {
          vault.Set(GroqKeyAccount, input.groq.value.apiKey.value);
        }
        row := WithGroq(row, input.groq);
      } else {
        row := WithOllama(row, input.ollama);
      }
    }
  }
}
