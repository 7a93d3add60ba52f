/** The Ollama provider: its configuration (always the defaults), the
    connection test against the server's model list, and test-plan
    generation, whole or streamed. `fetch` and the Ollama client library are
    the oracles `tags` (the model list), `api` (a completion) and `stream`
    (a streamed completion), called with the request the provider builds. */
module Ollama {
  import opened Wrappers
  import opened Strings
  import opened Errors
  import opened Settings
  import opened Prompt
  import opened LlmCommon

  const Temperature: real := 0.7
  const NumPredict := 4096
  const ConnectFallback := "Failed to connect to Ollama. Make sure Ollama is running."
  const Refused := "Cannot connect to Ollama. Make sure it is running on the configured port."
  const GenerateFallback := "Failed to generate test plan with Ollama"
  const StreamFallback := "Failed to stream test plan from Ollama"
  const FoundPrefix := "Ollama connection successful. Found "

  datatype OllamaConfig = OllamaConfig(baseUrl: string, model: string)

  /** The configuration `initialize` would build from the stored row: the
      server address and the model, each with its default when missing or
      empty; it cannot fail. */
  function ResolveOllamaConfigFromRow(row: Option<SettingsRow>): (r: OllamaConfig)
    ensures r.baseUrl == ReadSettings(row).ollamaBaseUrl
    ensures r.model == ReadSettings(row).ollamaModel
    ensures r.baseUrl != "" && r.model != ""
  {
    if row.Some?
    then OllamaConfig(OrElse(row.value.ollamaBaseUrl, DefaultOllamaUrl), OrElse(row.value.ollamaModel, DefaultOllamaModel))
    else OllamaConfig(DefaultOllamaUrl, DefaultOllamaModel)
  }

  /** `initialize` as written: it reads the statement object rather than
      the stored `row`, so the server address and the model are always the
      defaults. */
  function ResolveOllamaConfig(row: Option<SettingsRow>): (r: OllamaConfig)
    ensures r == OllamaConfig(DefaultOllamaUrl, DefaultOllamaModel)
  {
    ResolveOllamaConfigFromRow(StatementRow)
  }

  /** The process environment, of which the provider writes `OLLAMA_HOST`. */
  class ProcessEnv {
    var ollamaHost: Option<string>

    constructor (host: Option<string>)
      ensures ollamaHost == host
    {
      ollamaHost := host;
    }
  }

  // ---------------------------------------------------------------------
  // testConnection

  /** The answer of `GET {baseUrl}/api/tags`: `ok`, the status line, and the
      parsed body, whose `models` list (of names) may be missing. A body
      that does not parse is a failure. */
  datatype TagsResponse = TagsResponse(ok: bool, status: nat, statusText: string, body: Result<Option<seq<string>>, Thrown>)

  function TagsUrl(c: OllamaConfig): string {
    c.baseUrl + "/api/tags"
  }

  /** The message of the error raised for a response that is not `ok`. */
  function HttpFailure(status: nat, statusText: string): string {
    "HTTP " + NatToString(status) + ": " + statusText
  }

  function FoundMessage(n: nat): string {
    FoundPrefix + NatToString(n) + " models."
  }

  /** The guarded part of `testConnection` once the configuration is set:
      success with the server's model names (none when the body lists
      none), or failure with the message of what was raised. */
  function ConnectionOutcome(reply: Result<TagsResponse, Thrown>): (r: ConnectionResult)
    ensures r.success <==> reply.Success? && reply.value.ok && reply.value.body.Success?
    ensures r.success ==> r.models == Some(reply.value.body.value.GetOr([]))
    ensures r.success ==> r.message == FoundMessage(|r.models.value|)
    ensures !r.success ==> r.models.None? && r.message != ""
    ensures reply.Success? && !reply.value.ok ==> r.message == HttpFailure(reply.value.status, reply.value.statusText)
    ensures reply.Failure? ==> r.message == OrElse(Some(reply.error.message), ConnectFallback)
  {
    if reply.Failure? then ConnectionResult(false, OrElse(Some(reply.error.message), ConnectFallback), None)
    else if !reply.value.ok then ConnectionResult(false, HttpFailure(reply.value.status, reply.value.statusText), None)
    else if reply.value.body.Failure? then ConnectionResult(false, OrElse(Some(reply.value.body.error.message), ConnectFallback), None)
    else
      var models := reply.value.body.value.GetOr([]);
      ConnectionResult(true, FoundMessage(|models|), Some(models))
  }

  /** The count in the success message reads back as the number of models. */
  lemma FoundMessageReadsBack(n: nat)
    ensures var m := FoundMessage(n);
      |FoundPrefix| <= |m| && m[..|FoundPrefix|] == FoundPrefix
      && DigitRun(m[|FoundPrefix|..]) == |NatToString(n)|
      && DecimalValue(m[|FoundPrefix|..][..|NatToString(n)|]) == n
  {
    var num := NatToString(n);
    var m := FoundMessage(n);
    assert m == FoundPrefix + (num + " models.");
    assert m[..|FoundPrefix|] == FoundPrefix;
    assert m[|FoundPrefix|..] == num + " models.";
    DigitRunOfPrefix(num, " models.");
    assert (num + " models.")[..|num|] == num;
    DecimalRoundTrip(n);
  }

  /** The status line of a failed request is in the message, and the
      status reads back from it. */
  lemma HttpFailureReadsBack(status: nat, statusText: string)
    ensures var m := HttpFailure(status, statusText);
      var num := NatToString(status);
      m[..5] == "HTTP " && DecimalValue(m[5..5 + |num|]) == status
      && m[5 + |num|..] == ": " + statusText
  {
    var num := NatToString(status);
    var m := HttpFailure(status, statusText);
    assert m == "HTTP " + (num + (": " + statusText));
    assert m[5..5 + |num|] == num;
    DecimalRoundTrip(status);
  }

  // ---------------------------------------------------------------------
  // generateTestPlan, streamTestPlan

  /** The body of `ollama.generate`. */
  datatype GenerateRequest = GenerateRequest(model: string, system: string, prompt: string, temperature: real, numPredict: int, stream: bool)

  function GenerateRequestFor(c: OllamaConfig, req: GenerationRequest, stream: bool): (r: GenerateRequest)
    ensures r.model == c.model && r.system == req.systemPrompt
    ensures r.temperature == Temperature && r.numPredict == NumPredict && r.stream == stream
    ensures r.prompt == BuildPrompt(req.ticket, req.templateText)
  {
    GenerateRequest(c.model, req.systemPrompt, BuildPrompt(req.ticket, req.templateText), Temperature, NumPredict, stream)
  }

  /** The streamed request is the plain one with the stream flag set. */
  lemma StreamRequestOnlyAddsFlag(c: OllamaConfig, req: GenerationRequest)
    ensures GenerateRequestFor(c, req, true) == GenerateRequestFor(c, req, false).(stream := true)
  {
  }

  function NotFoundMessage(model: string): string {
    "Model \"" + model + "\" not found. Run: ollama pull " + model
  }

  /** The error `generateTestPlan` raises for what the library raised: a
      refused connection first, then an unknown model, then the message. */
  function GenerateError(model: string, t: Thrown): (e: AppError)
    ensures e.LlmError?
    ensures e.StatusCode() == 503 <==> Contains(t.message, "connection refused")
    ensures e.StatusCode() == 404 <==> !Contains(t.message, "connection refused") && Contains(t.message, "not found")
    ensures e.StatusCode() == 503 ==> e.message == Refused
    ensures e.StatusCode() == 404 ==> e.message == NotFoundMessage(model)
    ensures e.StatusCode() == 500 <==> !Contains(t.message, "connection refused") && !Contains(t.message, "not found")
    ensures e.StatusCode() == 500 ==> e.message == OrElse(Some(t.message), GenerateFallback)
  {
    if Contains(t.message, "connection refused") then LlmError(Refused, Some(503))
    else if Contains(t.message, "not found") then LlmError(NotFoundMessage(model), Some(404))
    else LlmError(OrElse(Some(t.message), GenerateFallback), None)
  }

  /** The not-found message names the model and ends with the command that
      fetches it. */
  lemma NotFoundNamesModel(model: string)
    ensures EndsWith(NotFoundMessage(model), "ollama pull " + model)
    ensures OccursAt(NotFoundMessage(model), model, 7)
  {
    var m := NotFoundMessage(model);
    assert m == "Model \"" + (model + ("\" not found. Run: " + ("ollama pull " + model)));
    assert m[7..7 + |model|] == model;
  }

  /** The guarded part of `generateTestPlan`: the completion's text as it
      came, even when empty, or the mapped error. */
  function GenerateOutcome(model: string, reply: Result<string, Thrown>): (r: Result<string, AppError>)
    ensures r.Success? <==> reply.Success?
    ensures r.Success? ==> r.value == reply.value
    ensures r.Failure? ==> r.error == GenerateError(model, reply.error)
  {
    match reply
    case Success(text) => Success(text)
    case Failure(t) => Failure(GenerateError(model, t))
  }

  /** The guarded part of `streamTestPlan`: every truthy chunk is yielded,
      then an error breaking the stream off is raised as a 500 with its
      message. */
  function StreamOutcome(reply: StreamReply): (r: StreamResult)
    ensures r.yielded == TruthyTexts(reply.chunks)
    ensures r.error.Some? <==> reply.failure.Some?
    ensures r.error.Some? ==> r.error.value == LlmError(OrElse(Some(reply.failure.value.message), StreamFallback), None)
  {
    StreamResult(
      TruthyTexts(reply.chunks),
      if reply.failure.Some? then Some(LlmError(OrElse(Some(reply.failure.value.message), StreamFallback), None)) else None)
  }

  class OllamaProvider {
    var config: Option<OllamaConfig>

    constructor ()
      ensures config.None?
    {
      config := None;
    }

    /** `initialize`: sets the configuration and points `OLLAMA_HOST` at
        the server. */
    method Initialize(settings: SettingsStore, env: ProcessEnv)
      modifies this, env
      ensures config == Some(ResolveOllamaConfig(settings.row))
      ensures env.ollamaHost == Some(config.value.baseUrl)
      ensures env.ollamaHost == Some(DefaultOllamaUrl) && config.value.model == DefaultOllamaModel
    {
      var c := ResolveOllamaConfig(settings.row);
      config := Some(c);
      env.ollamaHost := Some(c.baseUrl);
    }

    /** The configuration an operation works with: the one already set, or
        the one `initialize` sets. */
    method Configure(settings: SettingsStore, env: ProcessEnv) returns (c: OllamaConfig)
      modifies this, env
      ensures c == if old(config).Some? then old(config).value else ResolveOllamaConfig(settings.row)
      ensures config == Some(c)
      ensures env.ollamaHost == if old(config).Some? then old(env.ollamaHost) else Some(c.baseUrl)
    {
      if config.None? {
        Initialize(settings, env);
      }
      c := config.value;
    }

    /** `testConnection`: asks the server for its models; it never raises. */
    method TestConnection(settings: SettingsStore, env: ProcessEnv, tags: string -> Result<TagsResponse, Thrown>)
      returns (r: ConnectionResult)
      modifies this, env
      ensures var cfg := if old(config).Some? then old(config).value else ResolveOllamaConfig(settings.row);
        && config == Some(cfg)
        && r == ConnectionOutcome(tags(TagsUrl(cfg)))
      ensures env.ollamaHost == if old(config).Some? then old(env.ollamaHost) else Some(config.value.baseUrl)
    {
      var c := Configure(settings, env);
      var reply := tags(TagsUrl(c));
      r := ConnectionOutcome(reply);
    }

    /** `generateTestPlan`: one completion with the configured model. */
    method GenerateTestPlan(req: GenerationRequest, settings: SettingsStore, env: ProcessEnv,
                            api: GenerateRequest -> Result<string, Thrown>)
      returns (r: Result<string, AppError>)
      modifies this, env
      ensures var cfg := if old(config).Some? then old(config).value else ResolveOllamaConfig(settings.row);
        && config == Some(cfg)
        && r == GenerateOutcome(cfg.model, api(GenerateRequestFor(cfg, req, false)))
      ensures env.ollamaHost == if old(config).Some? then old(env.ollamaHost) else Some(config.value.baseUrl)
    {
      var c := Configure(settings, env);
      var reply := api(GenerateRequestFor(c, req, false));
      r := GenerateOutcome(c.model, reply);
    }

    /** `streamTestPlan`: the truthy chunks as they come, then the error
        that broke the stream off, if any. */
    method StreamTestPlan(req: GenerationRequest, settings: SettingsStore, env: ProcessEnv,
                          stream: GenerateRequest -> StreamReply)
      returns (r: StreamResult)
      modifies this, env
      ensures var cfg := if old(config).Some? then old(config).value else ResolveOllamaConfig(settings.row);
        && config == Some(cfg)
        && r == StreamOutcome(stream(GenerateRequestFor(cfg, req, true)))
      ensures env.ollamaHost == if old(config).Some? then old(env.ollamaHost) else Some(config.value.baseUrl)
    {
      var c := Configure(settings, env);
      var reply := stream(GenerateRequestFor(c, req, true));
      var yielded := Drain(reply.chunks);
      var error := if reply.failure.Some? then Some(LlmError(OrElse(Some(reply.failure.value.message), StreamFallback), None)) else None;
      r := StreamResult(yielded, error);
    }
  }
}
