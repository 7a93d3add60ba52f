/** The Groq provider: its configuration from the keychain and the
    defaults, the connection test, and test-plan generation, whole or
    streamed. The Groq SDK is the oracle `api` (a completion) or `stream`
    (a streamed completion), called with the request the provider builds. */
module Groq {
  import opened Wrappers
  import opened Strings
  import opened Errors
  import opened Settings
  import opened Prompt
  import opened LlmCommon

  /** The models the connection test offers, first the default. */
  const Models: seq<string> := [
    "openai/gpt-oss-120b",
    "openai/gpt-oss-20b",
    "llama-3.3-70b-versatile",
    "llama-3.1-70b-versatile",
    "llama-3.1-8b-instant",
    "llama3-70b-8192",
    "llama3-8b-8192",
    "mixtral-8x7b-32768",
    "gemma2-9b-it"]

  const MaxTokens := 4096
  const KeyMissing := "Groq API key not found. Please configure settings first."
  const EmptyResponse := "Empty response from Groq API"

  datatype GroqConfig = GroqConfig(apiKey: string, model: string, temperature: real)

  /** The configuration `initialize` would build from the stored row: the
      key must be in the keychain and non-empty; the model and temperature
      come from the row with their defaults. */
  function ResolveGroqConfigFromRow(row: Option<SettingsRow>, key: Option<string>): (r: Result<GroqConfig, AppError>)
    ensures r.Success? <==> Present(key)
    ensures r.Failure? ==> r.error == LlmError(KeyMissing, None)
    ensures r.Success? ==> r.value.apiKey == key.value && r.value.model != ""
    ensures r.Success? ==> r.value.model == ReadSettings(row).groqModel
    ensures r.Success? ==> r.value.temperature == ReadSettings(row).groqTemperature
  {
    if !Present(key) then Failure(LlmError(KeyMissing, None))
    else
      var model := if row.Some? then OrElse(row.value.groqModel, DefaultGroqModel) else DefaultGroqModel;
      var temperature := if row.Some? then row.value.groqTemperature.GetOr(DefaultTemperature) else DefaultTemperature;
      Success(GroqConfig(key.value, model, temperature))
  }

  /** `initialize` as written: it reads the statement object rather than
      the stored `row`, so the key decides success and the model and
      temperature are always the defaults. */
  function ResolveGroqConfig(row: Option<SettingsRow>, key: Option<string>): (r: Result<GroqConfig, AppError>)
    ensures r.Success? <==> Present(key)
    ensures r.Failure? ==> r.error == LlmError(KeyMissing, None)
    ensures r.Success? ==> r.value == GroqConfig(key.value, DefaultGroqModel, DefaultTemperature)
  {
    ResolveGroqConfigFromRow(StatementRow, key)
  }

  datatype Message = Message(role: string, content: string)

  /** The body of `chat.completions.create`. */
  datatype ChatRequest = ChatRequest(model: string, temperature: real, maxTokens: int, stream: bool, messages: seq<Message>)

  function ChatRequestFor(c: GroqConfig, req: GenerationRequest, stream: bool): (r: ChatRequest)
    ensures r.model == c.model && r.temperature == c.temperature && r.maxTokens == MaxTokens
    ensures r.stream == stream
    ensures |r.messages| == 2
    ensures r.messages[0] == Message("system", req.systemPrompt)
    ensures r.messages[1] == Message("user", BuildPrompt(req.ticket, req.templateText))
  {
    ChatRequest(c.model, c.temperature, MaxTokens, stream,
      [Message("system", req.systemPrompt), Message("user", BuildPrompt(req.ticket, req.templateText))])
  }

  /** The streamed request is the plain one with the stream flag set. */
  lemma StreamRequestOnlyAddsFlag(c: GroqConfig, req: GenerationRequest)
    ensures ChatRequestFor(c, req, true) == ChatRequestFor(c, req, false).(stream := true)
  {
  }

  /** The outcome of the guarded part of `generateTestPlan`: the
      completion's first message content, or the mapped error. An empty
      content raises an error inside the guard, which is caught and raised
      again with the same message. */
  function GenerateOutcome(reply: Result<Option<string>, Thrown>): (r: Result<string, AppError>)
    ensures r.Success? <==> reply.Success? && IsTruthy(reply.value)
    ensures r.Success? ==> r.value == reply.value.value
    ensures r.Failure? ==> r.error.LlmError?
    ensures reply.Success? && !IsTruthy(reply.value) ==> r == Failure(LlmError(EmptyResponse, None))
    ensures r.Failure? ==> (r.error.StatusCode() == 401 <==> reply.Failure? && reply.error.status == Some(401))
    ensures r.Failure? ==> (r.error.StatusCode() == 429 <==> reply.Failure? && reply.error.status == Some(429))
    ensures reply.Failure? && reply.error.status == Some(401) ==>
      r == Failure(LlmError("Invalid Groq API key", Some(401)))
    ensures reply.Failure? && reply.error.status == Some(429) ==>
      r == Failure(LlmError("Rate limit exceeded. Please try again later.", Some(429)))
    ensures reply.Failure? && reply.error.status != Some(401) && reply.error.status != Some(429) ==>
      r == Failure(LlmError(OrElse(Some(reply.error.message), "Failed to generate test plan"), None))
  {
    var caught :=
      if reply.Failure? then reply.error
      else if !IsTruthy(reply.value) then Thrown(None, EmptyResponse)
      else Thrown(None, "");
    if reply.Success? && IsTruthy(reply.value) then Success(reply.value.value)
    else if caught.status == Some(401) then Failure(LlmError("Invalid Groq API key", Some(401)))
    else if caught.status == Some(429) then Failure(LlmError("Rate limit exceeded. Please try again later.", Some(429)))
    else Failure(LlmError(OrElse(Some(caught.message), "Failed to generate test plan"), None))
  }

  /** An error the SDK raises without a message gets the fallback text. */
  lemma GenerateFallbackMessage(status: Option<int>)
    requires status != Some(401) && status != Some(429)
    ensures GenerateOutcome(Failure(Thrown(status, ""))) == Failure(LlmError("Failed to generate test plan", None))
  {
  }

  /** The guarded part of `streamTestPlan`: every truthy delta is yielded,
      then an error breaking the stream off is raised as a 500 with its
      message. */
  function StreamOutcome(reply: StreamReply): (r: StreamResult)
    ensures r.yielded == TruthyTexts(reply.chunks)
    ensures r.error.Some? <==> reply.failure.Some?
    ensures r.error.Some? ==> r.error.value.LlmError? && r.error.value.StatusCode() == 500
    ensures r.error.Some? && reply.failure.value.message != "" ==> r.error.value.message == reply.failure.value.message
  {
    StreamResult(
      TruthyTexts(reply.chunks),
      if reply.failure.Some?
        then Some(LlmError(OrElse(Some(reply.failure.value.message), "Failed to stream test plan"), None))
        else None)
  }

  class GroqProvider {
    var config: Option<GroqConfig>

    constructor ()
      ensures config.None?
    {
      config := None;
    }

    /** `initialize`: sets the configuration, or raises and leaves it. */
    method Initialize(settings: SettingsStore, vault: Vault) returns (r: Outcome<AppError>)
      modifies this
      ensures var c := ResolveGroqConfig(settings.row, vault.Get(GroqKeyAccount));
        && (r.Pass? <==> c.Success?)
        && (c.Success? ==> config == Some(c.value))
        && (c.Failure? ==> r == Fail(c.error) && config == old(config))
      ensures r.Pass? ==> config.value.model == DefaultGroqModel && config.value.temperature == DefaultTemperature
    {
      var c := ResolveGroqConfig(settings.row, vault.Get(GroqKeyAccount));
      if c.Success? {
        config := Some(c.value);
        r := Pass;
      } else {
        r := Fail(c.error);
      }
    }

    /** The configuration an operation works with: the one already set, or
        the outcome of initialising. */
    method Configure(settings: SettingsStore, vault: Vault) returns (c: Result<GroqConfig, AppError>)
      modifies this
      ensures c == if old(config).Some? then Success(old(config).value)
                   else ResolveGroqConfig(settings.row, vault.Get(GroqKeyAccount))
      ensures config == if c.Success? then Some(c.value) else old(config)
    {
      if config.Some? {
        return Success(config.value);
      }
      var init := Initialize(settings, vault);
      if init.Fail? {
        return Failure(init.error);
      }
      c := Success(config.value);
    }

    /** `testConnection`: succeeds, with the fixed model list, exactly when
        the provider is or can be configured; it never raises. */
    method TestConnection(settings: SettingsStore, vault: Vault) returns (r: ConnectionResult)
      modifies this
      ensures var cfg := if old(config).Some? then Success(old(config).value)
                         else ResolveGroqConfig(settings.row, vault.Get(GroqKeyAccount));
        && config == (if cfg.Success? then Some(cfg.value) else old(config))
        && (r.success <==> cfg.Success?)
        && (r.success ==> r == ConnectionResult(true, "Groq API connection successful", Some(Models)))
        && (!r.success ==> r == ConnectionResult(false, OrElse(Some(cfg.error.message), "Failed to connect to Groq API"), None))
    {
      var c := Configure(settings, vault);
      if c.Failure? {
        return ConnectionResult(false, OrElse(Some(c.error.message), "Failed to connect to Groq API"), None);
      }
      r := ConnectionResult(true, "Groq API connection successful", Some(Models));
    }

    /** `generateTestPlan`: a configuration error is raised as it is; the
        completion call and its answer go through `GenerateOutcome`. */
    method GenerateTestPlan(req: GenerationRequest, settings: SettingsStore, vault: Vault,
                            api: ChatRequest -> Result<Option<string>, Thrown>)
      returns (r: Result<string, AppError>)
      modifies this
      ensures var cfg := if old(config).Some? then Success(old(config).value)
                         else ResolveGroqConfig(settings.row, vault.Get(GroqKeyAccount));
        && config == (if cfg.Success? then Some(cfg.value) else old(config))
        && r == (if cfg.Success? then GenerateOutcome(api(ChatRequestFor(cfg.value, req, false))) else Failure(cfg.error))
    {
      var c := Configure(settings, vault);
      if c.Failure? {
        return Failure(c.error);
      }
      var reply := api(ChatRequestFor(c.value, req, false));
      r := GenerateOutcome(reply);
    }

    /** `streamTestPlan`: a configuration error is raised before anything
        is yielded; otherwise the truthy deltas are yielded as they come. */
    method StreamTestPlan(req: GenerationRequest, settings: SettingsStore, vault: Vault,
                          stream: ChatRequest -> StreamReply)
      returns (r: StreamResult)
      modifies this
      ensures var cfg := if old(config).Some? then Success(old(config).value)
                         else ResolveGroqConfig(settings.row, vault.Get(GroqKeyAccount));
        && config == (if cfg.Success? then Some(cfg.value) else old(config))
        && r == (if cfg.Success? then StreamOutcome(stream(ChatRequestFor(cfg.value, req, true)))
                 else StreamResult([], Some(cfg.error)))
    {
      var c := Configure(settings, vault);
      if c.Failure? {
        return StreamResult([], Some(c.error));
      }
      var reply := stream(ChatRequestFor(c.value, req, true));
      var yielded := Drain(reply.chunks);
      var error := if reply.failure.Some?
        then Some(LlmError(OrElse(Some(reply.failure.value.message), "Failed to stream test plan"), None))
        else None;
      r := StreamResult(yielded, error);
    }
  }
}
