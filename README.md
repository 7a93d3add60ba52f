# Intelligent test plan agent: a verified model of the backend core

This project models the backend of the intelligent test plan agent in Dafny and proves properties of that model. The backend is an Express service. It fetches a Jira ticket, picks a test-plan template and asks a language model to write a test plan from both. It has two model back-ends: the Groq API and a local Ollama daemon. It keeps a ledger of generated plans, a cache of recently fetched tickets, a template store and a singleton settings row.

The modules follow the source files:

- `Errors` (`utils/errors.ts`, and the error handler in `index.ts`): the error kinds, each with its status and code, and the JSON error response.
- `Validators` (`utils/validators.ts`): the ticket-key language, the sanitiser, the temperature range and the URL check.
- `Settings` (`routes/settings.ts`): the singleton settings row as a class. Reads apply defaults. `saveJira` and `saveLLM` update only their own columns. The keychain is a `Vault` class holding a map.
- `JiraText` and `Jira` (`services/jira-client.ts`):
  - flattening of Atlassian Document Format trees;
  - description formatting;
  - post-processing of acceptance criteria;
  - normalising a fetched issue into a ticket, and mapping fetch errors;
  - the lazily configured client, including its connection test;
  - the recent-tickets cache as a class.
- `Prompt` (`buildPrompt`, whose text is the same in both providers), `LlmCommon`, `Groq` and `Ollama` (`services/llm-providers/`): configuration, which as written is always the defaults, the request each provider sends, error mapping and the stream chunk filter.
- `PdfParser` (`services/pdf-parser.ts`): parse-failure wrapping, and `extractSections` as the `while` loop of the source, proved equal to a specification of the regular expression's successive matches.
- `Templates` (`routes/templates.ts`): the template table as a class with list, get, upload and delete.
- `LlmRoutes` (`routes/llm.ts`): the `/generate` pipeline, the `/stream` event sequence, and the history ledger as a class.
- `Strings`, `Ordering` and `Wrappers`: the JavaScript string built-ins the source relies on, a descending sort with its `LIMIT n`, and `Option`/`Result`. Strings are sequences of characters: upper-casing covers ASCII letters only, and lengths count characters rather than UTF-16 code units (see "## Left out").

SDK calls, SQL queries, the keychain, the file system and regular-expression matching are treated as follows:

- Calls into code outside the core (the Jira, Groq and Ollama SDKs, `fetch`, `pdf-parse`, `readFileSync`) are function-typed parameters: oracles that return a value or a `Thrown` failure.
- Tables are sequences held by classes.
- Clock readings and generated ids are parameters.

## Model

| member | source | states |
|---|---|---|
| Errors.Respond | intelligent-test-plan-agent/backend/src/index.ts:42-56 | the response carries the error's status, message and code, and falls back to 500, `Internal server error` and `INTERNAL_ERROR` when one is missing (zero or empty) |
| Errors.BaseDefaults | intelligent-test-plan-agent/backend/src/utils/errors.ts:1-10 | a plain application error has status 500 and code `INTERNAL_ERROR` |
| Errors.ClientErrorsAre400 | intelligent-test-plan-agent/backend/src/utils/errors.ts:12-38 | validation and template errors always answer 400, with `VALIDATION_ERROR` and `TEMPLATE_ERROR` respectively |
| Errors.UpstreamErrorStatus | intelligent-test-plan-agent/backend/src/utils/errors.ts:19-31 | Jira and LLM errors keep the status they are given (default 500) and have codes `JIRA_ERROR` and `LLM_ERROR`; a status of 0 answers 500 |
| Errors.CodeIdentifiesSubclass | intelligent-test-plan-agent/backend/src/utils/errors.ts:12-38 | two errors of the subclasses with the same code are of the same subclass |
| Validators.ValidateJiraIdIff | intelligent-test-plan-agent/backend/src/utils/validators.ts:1-4 | `Validators.ValidateJiraId`: an id is accepted iff its upper-cased form is a letter, then letters or digits, one hyphen, then one or more digits |
| Validators.MatchesKeyPatternIff | intelligent-test-plan-agent/backend/src/utils/validators.ts:2 | the regular expression, read left to right, accepts exactly the strings with that key shape |
| Validators.KeyTailIff | intelligent-test-plan-agent/backend/src/utils/validators.ts:2 | the part after the first letter matches iff it splits into alphanumerics, a hyphen and a digit run |
| Validators.KeySplitUnique | intelligent-test-plan-agent/backend/src/utils/validators.ts:2 | a valid key has exactly one place where project and number split |
| Validators.ValidateJiraIdCaseInsensitive | intelligent-test-plan-agent/backend/src/utils/validators.ts:3 | validating an id and validating its upper-cased form agree |
| Validators.ValidateJiraIdAccepts | intelligent-test-plan-agent/backend/src/utils/validators.ts:1-4 | `ABC-123`, `A1-7` and lower-case `abc-123` are accepted |
| Validators.ValidateJiraIdRejects | intelligent-test-plan-agent/backend/src/utils/validators.ts:1-4 | a key without a hyphen, with an empty project or with an empty number is rejected |
| Validators.ValidateJiraIdRejectsMore | intelligent-test-plan-agent/backend/src/utils/validators.ts:1-4 | a second hyphen, a trailing space or a leading digit is rejected (no trimming) |
| Validators.SanitizeJiraId | intelligent-test-plan-agent/backend/src/utils/validators.ts:19-21 | the sanitised id has no lower-case ASCII letter and no surrounding whitespace |
| Validators.SanitizeIdempotent | intelligent-test-plan-agent/backend/src/utils/validators.ts:19-21 | sanitising twice is sanitising once |
| Validators.SanitizeThenValidate | intelligent-test-plan-agent/backend/src/utils/validators.ts:1-21 | a padded lower-case id sanitises to `ABC-123`, which validates |
| Validators.ValidateTemperatureBounds | intelligent-test-plan-agent/backend/src/utils/validators.ts:15-17 | 0, 0.7 and 1 are accepted, values just outside the closed unit interval are not |
| Strings.UpperIdempotent | intelligent-test-plan-agent/backend/src/utils/validators.ts:20 | upper-casing an upper-cased string changes nothing |
| Strings.TrimIdempotent | intelligent-test-plan-agent/backend/src/utils/validators.ts:20 | trimming a trimmed string changes nothing |
| Strings.TrimEmptyIffAllWhite | intelligent-test-plan-agent/backend/src/routes/templates.ts:118 | a string trims to empty iff it is all whitespace |
| Strings.ReplaceFirst | intelligent-test-plan-agent/backend/src/routes/templates.ts:112 | replacing a string pattern changes only its first occurrence, and nothing when there is none |
| Strings.ContainsIff | intelligent-test-plan-agent/backend/src/services/llm-providers/ollama-provider.ts:83-86 | `includes` holds iff the pattern occurs at some position |
| Settings.ReadSettings | intelligent-test-plan-agent/backend/src/routes/settings.ts:15-34 | each string field is the stored text when it is non-empty and otherwise its default (`""` for the two Jira fields, `groq`, `openai/gpt-oss-120b`, `http://localhost:11434`, `llama3.1`), the temperature is the stored one unless it is null, and with no row every field is its default |
| Settings.ReadDefaults | intelligent-test-plan-agent/backend/src/routes/settings.ts:20-31 | with no row, the read gives empty Jira fields, provider `groq`, `openai/gpt-oss-120b` at 0.7, and Ollama at `http://localhost:11434` with `llama3.1` |
| Settings.Vault.Get | intelligent-test-plan-agent/backend/src/services/jira-client.ts:44 | a keychain read finds a secret exactly when one is stored under that account |
| Settings.Vault.Set | intelligent-test-plan-agent/backend/src/routes/settings.ts:59 | storing a secret replaces that account's entry and no other |
| Settings.CheckJiraInput | intelligent-test-plan-agent/backend/src/routes/settings.ts:45-51 | the Jira input passes iff all three fields are present and the URL is valid; missing fields give the fixed validation error |
| Settings.WithJiraThenRead | intelligent-test-plan-agent/backend/src/routes/settings.ts:53-56 | `Settings.WithJira`: after the Jira update the read shows the new URL and user, and every other field as before |
| Settings.CheckProvider | intelligent-test-plan-agent/backend/src/routes/settings.ts:72-74 | the provider passes iff it is `groq` or `ollama` |
| Settings.WithGroqThenRead | intelligent-test-plan-agent/backend/src/routes/settings.ts:76-84 | `Settings.WithGroq`: after a Groq save the read shows provider `groq` and the model and temperature with their defaults; Jira and Ollama fields are unchanged |
| Settings.WithOllamaThenRead | intelligent-test-plan-agent/backend/src/routes/settings.ts:85-89 | `Settings.WithOllama`: after an Ollama save the read shows provider `ollama` and the URL and model with their defaults; Jira and Groq fields are unchanged |
| Settings.SettingsStore.Read | intelligent-test-plan-agent/backend/src/routes/settings.ts:13-38 | the settings read is `ReadSettings` of the stored row, so it never yields an empty provider, model or URL |
| Settings.SettingsStore.SaveJira | intelligent-test-plan-agent/backend/src/routes/settings.ts:41-65 | a refused input writes nothing; an accepted one updates the two Jira columns and stores the token |
| Settings.SettingsStore.SaveLlm | intelligent-test-plan-agent/backend/src/routes/settings.ts:68-96 | a refused provider writes nothing; `groq` updates its columns and stores the key only if one is given; `ollama` updates its columns and leaves the keychain alone |
| JiraText.ExtractTextKeepsLeaves | intelligent-test-plan-agent/backend/src/services/jira-client.ts:182-196 | `JiraText.ExtractText`: flattening a document keeps all its text leaves in document order, separated only by spaces |
| JiraText.ExtractTextExamples | intelligent-test-plan-agent/backend/src/services/jira-client.ts:182-196 | a paragraph of two text nodes flattens to `Hello world`; a text node without text and an empty document flatten to the empty string |
| JiraText.FormatDescription | intelligent-test-plan-agent/backend/src/services/jira-client.ts:171-180 | an object description is flattened, anything else is its string form (empty for a falsy one) |
| JiraText.SplitRebuilds | intelligent-test-plan-agent/backend/src/services/jira-client.ts:162 | the pieces of the bullet split, interleaved with the separators found, rebuild the text |
| JiraText.FirstSepLeftmost | intelligent-test-plan-agent/backend/src/services/jira-client.ts:162 | the split cuts at the leftmost separator match |
| JiraText.PostProcess | intelligent-test-plan-agent/backend/src/services/jira-client.ts:163-164 | every criterion kept is the trimmed form of one of the pieces, and is non-empty and shorter than 500 characters |
| JiraText.PostProcessKeeps | intelligent-test-plan-agent/backend/src/services/jira-client.ts:163-164 | every piece whose trimmed form has length 1 to 499 is kept |
| JiraText.PostProcessConcat | intelligent-test-plan-agent/backend/src/services/jira-client.ts:163-164 | the pieces of a concatenation come out as the two halves' results, one after the other, so the kept criteria keep the order of the pieces |
| JiraText.PostProcessSingle | intelligent-test-plan-agent/backend/src/services/jira-client.ts:163-164 | a single piece comes out as its trimmed form when that has length 1 to 499, and is dropped otherwise |
| JiraText.InRangeConcat | intelligent-test-plan-agent/backend/src/services/jira-client.ts:164 | the length filter distributes over concatenation |
| JiraText.PostProcessOfClean | intelligent-test-plan-agent/backend/src/services/jira-client.ts:163-164 | pieces that are already clean pass through unchanged |
| JiraText.CriteriaFromText | intelligent-test-plan-agent/backend/src/services/jira-client.ts:160-164 | criteria read from the matched text with the bullet class as written are trimmed, non-empty and under 500 characters |
| JiraText.CriteriaFromTextIntended | intelligent-test-plan-agent/backend/src/services/jira-client.ts:160-164 | the same split with the intended bullet class `[-•*]`; its criteria are trimmed, non-empty and under 500 characters |
| JiraText.CriteriaOfBulletedPair | intelligent-test-plan-agent/backend/src/services/jira-client.ts:160-164 | as written, two clean criteria joined as a `•` list come back as a single criterion, the whole text |
| JiraText.ExtractAcceptanceCriteria | intelligent-test-plan-agent/backend/src/services/jira-client.ts:143-169 | a falsy description or no pattern match gives no criteria; every criterion is clean |
| JiraText.SplitBulletedList | intelligent-test-plan-agent/backend/src/services/jira-client.ts:162 | with the intended bullet class, a list joined by newline, bullet and space splits back into its items |
| JiraText.CriteriaOfBulletedList | intelligent-test-plan-agent/backend/src/services/jira-client.ts:160-164 | with the intended bullet class, clean items joined as a `•` list are read back as exactly those criteria |
| JiraText.WrittenBulletsMissBullet | intelligent-test-plan-agent/backend/src/services/jira-client.ts:162 | with the character class as written, a bulleted list is not split at all, while the intended class splits it into its items |
| JiraText.LeadingBulletKept | intelligent-test-plan-agent/backend/src/services/jira-client.ts:160-164 | a list's first item keeps its `- ` marker, because only a newline can start a separator |
| Jira.NormalizeTicket | intelligent-test-plan-agent/backend/src/services/jira-client.ts:104-123 | the ticket keeps the issue's key, labels and assignee presence; priority and status are never empty; the description is formatted; one attachment per issue attachment |
| Jira.NormalizeDefaults | intelligent-test-plan-agent/backend/src/services/jira-client.ts:104-123 | an issue with no fields gives empty summary, `Unknown` priority and status, no labels, no assignee, no criteria |
| Jira.NormalizeKeepsFields | intelligent-test-plan-agent/backend/src/services/jira-client.ts:106-109 | present summary, priority and status are copied unchanged |
| Jira.MapFetchError | intelligent-test-plan-agent/backend/src/services/jira-client.ts:132-139 | a 404 becomes a Jira 404 saying `Ticket <id> not found`, a 401 a Jira 401 saying the credentials failed, anything else a Jira 500 with the original message or a fallback |
| Jira.FetchResult | intelligent-test-plan-agent/backend/src/services/jira-client.ts:93-140 | a fetch succeeds iff the API call does, with the normalised ticket, and otherwise fails with the mapped error |
| Jira.ResolveJiraConfig | intelligent-test-plan-agent/backend/src/services/jira-client.ts:37-65 | the client is configured iff URL, user and token are all present; otherwise a Jira 500 |
| Jira.Upsert | intelligent-test-plan-agent/backend/src/services/jira-client.ts:200-207 | insert-or-replace keeps keys distinct: the new row, plus every old row with another key |
| Jira.UpsertKeyOnce | intelligent-test-plan-agent/backend/src/services/jira-client.ts:200-207 | after the insert the ticket's key occurs only on the new row |
| Jira.UpsertSize | intelligent-test-plan-agent/backend/src/services/jira-client.ts:200-207 | re-saving an existing key does not grow the cache; a new key grows it by one |
| Jira.Prune | intelligent-test-plan-agent/backend/src/services/jira-client.ts:209-217 | pruning keeps at most 10 of the existing rows, keys still distinct |
| Jira.PruneKeepsNewest | intelligent-test-plan-agent/backend/src/services/jira-client.ts:209-217 | no row removed by pruning is newer than a row kept |
| Jira.NewestSurvivesPrune | intelligent-test-plan-agent/backend/src/services/jira-client.ts:209-217 | a row strictly newer than all others survives pruning |
| Jira.SaveRecent | intelligent-test-plan-agent/backend/src/services/jira-client.ts:198-221 | a save keeps keys distinct and at most 10 rows; a failed insert changes nothing |
| Jira.SaveKeepsTicket | intelligent-test-plan-agent/backend/src/services/jira-client.ts:198-221 | after saving the newest fetch, its ticket is in the cache exactly once, with the new time |
| Jira.UpsertThenPrune | intelligent-test-plan-agent/backend/src/services/jira-client.ts:200-217 | the newest row survives the insert and the prune and is its key's only row |
| Jira.UpsertNewest | intelligent-test-plan-agent/backend/src/services/jira-client.ts:200-207 | after the insert the new row is strictly the newest |
| Jira.RecentTickets.Save | intelligent-test-plan-agent/backend/src/services/jira-client.ts:198-221 | the cache table becomes the saved rows and keeps distinct keys |
| Jira.RecentTickets.Recent | intelligent-test-plan-agent/backend/src/services/jira-client.ts:223-240 | exactly min(5, cached rows) entries, newest first, each taken from a cached row, no cached row left out is newer than an entry returned, and in a cache with one row per ticket no ticket is listed twice |
| Jira.NoNewerLeftOut | intelligent-test-plan-agent/backend/src/services/jira-client.ts:226-229 | a row whose key is not among the `n` newest is no newer than any of them |
| Jira.TopKeysDistinct | intelligent-test-plan-agent/backend/src/services/jira-client.ts:226-229 | when the cache has one row per ticket, so do its `n` newest rows |
| Jira.NewestEntriesOrdered | intelligent-test-plan-agent/backend/src/services/jira-client.ts:226-229 | the entries of `Jira.NewestEntries` are newest first |
| Jira.NewestEntriesFromRows | intelligent-test-plan-agent/backend/src/services/jira-client.ts:226-239 | every entry of `Jira.NewestEntries` is the key, summary and time of a cached row |
| Jira.NewestEntriesNoNewer | intelligent-test-plan-agent/backend/src/services/jira-client.ts:226-229 | no cached row whose ticket is not listed is newer than a listed entry |
| Jira.NewestEntriesDistinct | intelligent-test-plan-agent/backend/src/services/jira-client.ts:226-229 | with one row per ticket, no ticket is listed twice |
| Jira.ConnectionOutcome | intelligent-test-plan-agent/backend/src/services/jira-client.ts:67-86 | the test succeeds iff the client is configured and the current-user call answers; a failure reports its message or the fallback, never an empty one |
| Jira.ConnectedNamesUser | intelligent-test-plan-agent/backend/src/services/jira-client.ts:75-76 | the success message determines the user it names |
| Jira.JiraClient.Initialize | intelligent-test-plan-agent/backend/src/services/jira-client.ts:37-65 | initialising sets the configuration, or raises its error and leaves it as it was |
| Jira.JiraClient.Configure | intelligent-test-plan-agent/backend/src/services/jira-client.ts:89-91 | an existing configuration is kept; otherwise the client initialises |
| Jira.JiraClient.TestConnection | intelligent-test-plan-agent/backend/src/services/jira-client.ts:67-86 | the connection test configures lazily and returns the connection outcome instead of raising |
| Jira.JiraClient.FetchTicket | intelligent-test-plan-agent/backend/src/services/jira-client.ts:88-141 | the result is the configuration error or the fetch result, whatever the cache write does; the cache changes only on success |
| Prompt.CriteriaBlockPlaceholderIff | intelligent-test-plan-agent/backend/src/services/llm-providers/groq-provider.ts:159-161 | the criteria section is the placeholder iff there are no criteria |
| Prompt.NumberedLineRoundTrip | intelligent-test-plan-agent/backend/src/services/llm-providers/groq-provider.ts:160 | criterion `i` is written as its number `i + 1`, `. ` and the criterion, and reads back as both |
| Prompt.CriteriaBlockLines | intelligent-test-plan-agent/backend/src/services/llm-providers/groq-provider.ts:159-161 | the criteria section has one line per criterion, in order, each numbered from 1 |
| Prompt.LabelsLine | intelligent-test-plan-agent/backend/src/services/llm-providers/groq-provider.ts:163 | the labels line is `None` iff the labels join to the empty string, and otherwise their join with `, ` |
| Prompt.LabelsLineExamples | intelligent-test-plan-agent/backend/src/services/llm-providers/groq-provider.ts:163 | no labels give `None`; two labels are joined with `, ` |
| Prompt.BuildPromptShape | intelligent-test-plan-agent/backend/src/services/llm-providers/groq-provider.ts:145-178 | `Prompt.BuildPrompt`: the prompt opens with the fixed heading and the ticket key and ends with the template text verbatim, then the instructions |
| Prompt.BuildPromptInjective | intelligent-test-plan-agent/backend/src/services/llm-providers/groq-provider.ts:165-178 | for one ticket, different templates give different prompts |
| LlmCommon.TruthyTexts | intelligent-test-plan-agent/backend/src/services/llm-providers/groq-provider.ts:133-138 | only non-empty chunk texts are yielded, never more than the chunks |
| LlmCommon.TruthyTextsKeepText | intelligent-test-plan-agent/backend/src/services/llm-providers/groq-provider.ts:133-138 | the yielded texts concatenate to all the text the chunks carried, in order |
| LlmCommon.Drain | intelligent-test-plan-agent/backend/src/services/llm-providers/ollama-provider.ts:114-118 | the chunk loop yields exactly the non-empty chunk texts, in arrival order |
| Groq.ResolveGroqConfig | intelligent-test-plan-agent/backend/src/services/llm-providers/groq-provider.ts:22-39 | as written: configuration fails with the key-missing LLM error iff no non-empty key is stored; otherwise the model is `openai/gpt-oss-120b` and the temperature 0.7, whatever the settings row holds |
| Groq.ResolveGroqConfigFromRow | intelligent-test-plan-agent/backend/src/services/llm-providers/groq-provider.ts:24-36 | corrected: the same key check, with the model and temperature of the stored row and their defaults |
| Groq.ChatRequestFor | intelligent-test-plan-agent/backend/src/services/llm-providers/groq-provider.ts:78-90 | the completion request uses the configured model and temperature, 4096 tokens, the system prompt, then the built user prompt |
| Groq.StreamRequestOnlyAddsFlag | intelligent-test-plan-agent/backend/src/services/llm-providers/groq-provider.ts:118-131 | the streamed request differs from the plain one only by its stream flag, so both send the same prompt |
| Groq.GenerateOutcome | intelligent-test-plan-agent/backend/src/services/llm-providers/groq-provider.ts:92-110 | generation succeeds iff the completion has non-empty content; 401 and 429 map to themselves; an empty answer becomes the 500 empty-response error; a 401 is exactly `Invalid Groq API key`, a 429 exactly `Rate limit exceeded. Please try again later.`, and any other failure a 500 with the thrown message, or `Failed to generate test plan` when it has none |
| Groq.GenerateFallbackMessage | intelligent-test-plan-agent/backend/src/services/llm-providers/groq-provider.ts:109 | an SDK error without a message gives the fallback text |
| Groq.StreamOutcome | intelligent-test-plan-agent/backend/src/services/llm-providers/groq-provider.ts:133-142 | the stream yields the non-empty deltas; a broken stream raises a 500 LLM error with its message |
| Groq.GroqProvider.Initialize | intelligent-test-plan-agent/backend/src/services/llm-providers/groq-provider.ts:22-39 | initialising sets the configuration, always with the default model and temperature, or raises and leaves it |
| Groq.GroqProvider.Configure | intelligent-test-plan-agent/backend/src/services/llm-providers/groq-provider.ts:74-76 | an existing configuration is kept; otherwise the provider initialises |
| Groq.GroqProvider.TestConnection | intelligent-test-plan-agent/backend/src/services/llm-providers/groq-provider.ts:41-71 | the test succeeds with the fixed model list iff the provider can be configured; otherwise it reports the error message |
| Groq.GroqProvider.GenerateTestPlan | intelligent-test-plan-agent/backend/src/services/llm-providers/groq-provider.ts:73-111 | a configuration error is raised as it is; otherwise the result is the generate outcome of the completion call, with its exact 401, 429 and fallback messages |
| Groq.GroqProvider.StreamTestPlan | intelligent-test-plan-agent/backend/src/services/llm-providers/groq-provider.ts:113-143 | a configuration error is raised as it is; otherwise the result is the stream outcome of the streamed call |
| Ollama.ResolveOllamaConfig | intelligent-test-plan-agent/backend/src/services/llm-providers/ollama-provider.ts:19-26 | as written: the base URL is `http://localhost:11434` and the model `llama3.1`, whatever the settings row holds |
| Ollama.ResolveOllamaConfigFromRow | intelligent-test-plan-agent/backend/src/services/llm-providers/ollama-provider.ts:21-26 | corrected: base URL and model are those of the stored row with their defaults, never empty |
| Ollama.ConnectionOutcome | intelligent-test-plan-agent/backend/src/services/llm-providers/ollama-provider.ts:31-58 | the test succeeds iff the tags call answers OK with a body; it then reports the model names and their count; a non-OK status reports `HTTP <status>: <text>` |
| Ollama.FoundMessageReadsBack | intelligent-test-plan-agent/backend/src/services/llm-providers/ollama-provider.ts:48 | the success message holds the model count in decimal |
| Ollama.HttpFailureReadsBack | intelligent-test-plan-agent/backend/src/services/llm-providers/ollama-provider.ts:40 | the HTTP failure message holds the status in decimal, then the status text |
| Ollama.GenerateRequestFor | intelligent-test-plan-agent/backend/src/services/llm-providers/ollama-provider.ts:65-77 | the request uses the configured model, the system prompt, the built user prompt, temperature 0.7 and 4096 tokens |
| Ollama.StreamRequestOnlyAddsFlag | intelligent-test-plan-agent/backend/src/services/llm-providers/ollama-provider.ts:99-112 | the streamed request differs from the plain one only by its stream flag |
| Ollama.GenerateError | intelligent-test-plan-agent/backend/src/services/llm-providers/ollama-provider.ts:80-91 | `connection refused` gives 503 (checked first), `not found` gives 404 naming the model, anything else 500 with the message or a fallback |
| Ollama.NotFoundNamesModel | intelligent-test-plan-agent/backend/src/services/llm-providers/ollama-provider.ts:87 | the not-found message quotes the model and ends with the `ollama pull` command for it |
| Ollama.GenerateOutcome | intelligent-test-plan-agent/backend/src/services/llm-providers/ollama-provider.ts:68-91 | generation returns the daemon's text unchanged, even when empty, and otherwise the mapped error |
| Ollama.StreamOutcome | intelligent-test-plan-agent/backend/src/services/llm-providers/ollama-provider.ts:114-122 | the stream yields the non-empty response fields; a broken stream raises an LLM error with its message or a fallback |
| Ollama.OllamaProvider.Initialize | intelligent-test-plan-agent/backend/src/services/llm-providers/ollama-provider.ts:19-29 | initialising sets the configuration and `OLLAMA_HOST` to its base URL, which is always `http://localhost:11434`, with the model `llama3.1` |
| Ollama.OllamaProvider.Configure | intelligent-test-plan-agent/backend/src/services/llm-providers/ollama-provider.ts:61-63 | an existing configuration is kept, and then `OLLAMA_HOST` is not touched |
| Ollama.OllamaProvider.TestConnection | intelligent-test-plan-agent/backend/src/services/llm-providers/ollama-provider.ts:31-58 | the test configures lazily and returns the connection outcome of the tags call |
| Ollama.OllamaProvider.GenerateTestPlan | intelligent-test-plan-agent/backend/src/services/llm-providers/ollama-provider.ts:60-92 | the result is the generate outcome of the call with the built request |
| Ollama.OllamaProvider.StreamTestPlan | intelligent-test-plan-agent/backend/src/services/llm-providers/ollama-provider.ts:94-123 | the result is the stream outcome of the streamed call |
| PdfParser.ParseFailure | intelligent-test-plan-agent/backend/src/services/pdf-parser.ts:22-25 | a parse failure is a 400 template error whose message is `Failed to parse PDF: ` and the original message |
| PdfParser.ParseBuffer | intelligent-test-plan-agent/backend/src/services/pdf-parser.ts:28-41 | parsing a buffer succeeds iff the parser does, and otherwise wraps its error |
| PdfParser.ParseFile | intelligent-test-plan-agent/backend/src/services/pdf-parser.ts:12-26 | parsing a file succeeds iff both the read and the parse do; any failure is a template error |
| PdfParser.ParseFileReadsThenParses | intelligent-test-plan-agent/backend/src/services/pdf-parser.ts:12-41 | once the file is read, parsing it is parsing its buffer |
| PdfParser.ExtractSections | intelligent-test-plan-agent/backend/src/services/pdf-parser.ts:44-56 | the match loop returns `PdfParser.Sections`, the trimmed capture of each successive header match, in document order |
| PdfParser.SectionsOfLines | intelligent-test-plan-agent/backend/src/services/pdf-parser.ts:44-56 | `PdfParser.Sections`: for text made of header and plain lines, the sections are the trimmed header texts in line order, one per header |
| PdfParser.DeepOrUnspacedIsPlain | intelligent-test-plan-agent/backend/src/services/pdf-parser.ts:48 | a line opening with four or more `#`, or with `#` directly followed by text, is no header |
| PdfParser.LoneHashTakesNextLine | intelligent-test-plan-agent/backend/src/services/pdf-parser.ts:48 | a line holding only `#` captures the next line as its heading, since `\s+` crosses the newline |
| PdfParser.BlankHeadingAtEnd | intelligent-test-plan-agent/backend/src/services/pdf-parser.ts:48-52 | `#` and two spaces at the end of the text give one empty section |
| PdfParser.NoHashNoSections | intelligent-test-plan-agent/backend/src/services/pdf-parser.ts:44-56 | text without `#` yields no sections |
| Templates.FindById | intelligent-test-plan-agent/backend/src/routes/templates.ts:74-86 | the lookup finds the one row with the id, or reports that none has it |
| Templates.Lookup | intelligent-test-plan-agent/backend/src/routes/templates.ts:70-102 | get succeeds iff the id exists, with that row and `isDefault` iff the flag is non-zero; otherwise `Template not found` |
| Templates.ListOrder | intelligent-test-plan-agent/backend/src/routes/templates.ts:53-55 | the listing is a permutation of the rows, by flag descending, then upload time descending |
| Templates.Listing | intelligent-test-plan-agent/backend/src/routes/templates.ts:44-67 | one summary per row, in that order, with `isDefault` iff the flag is non-zero |
| Templates.DefaultsListFirst | intelligent-test-plan-agent/backend/src/routes/templates.ts:55-62 | default templates list before uploads, and newer first within each group |
| Templates.FilterFile | intelligent-test-plan-agent/backend/src/routes/templates.ts:34-40 | only `application/pdf` passes the filter; anything else is a 400 validation error |
| Templates.Admit | intelligent-test-plan-agent/backend/src/routes/templates.ts:29-41 | an upload is admitted iff it is a PDF of at most 5 MiB; a larger one fails with the size error |
| Templates.TemplateName | intelligent-test-plan-agent/backend/src/routes/templates.ts:112 | a given name is kept; otherwise the file name loses its first `.pdf`, if any |
| Templates.StripsFirstPdf | intelligent-test-plan-agent/backend/src/routes/templates.ts:112 | only the first `.pdf` is removed; what follows it stays |
| Templates.NewRow | intelligent-test-plan-agent/backend/src/routes/templates.ts:105-128 | an upload yields a row iff a file was admitted, parsed, and gave non-blank text; the row has the fresh id, the derived name and flag 0; each failure has its error |
| Templates.BlankTextRefused | intelligent-test-plan-agent/backend/src/routes/templates.ts:118-120 | a PDF whose text is blank is refused with the template error |
| Templates.UploadThenGet | intelligent-test-plan-agent/backend/src/routes/templates.ts:123-128 | an inserted row can be got back, is not a default, and the listing grows by one |
| Templates.CheckDelete | intelligent-test-plan-agent/backend/src/routes/templates.ts:150-158 | deleting an unknown id or a default template is refused with its error; any other row may go |
| Templates.RemoveIdSplices | intelligent-test-plan-agent/backend/src/routes/templates.ts:160 | deleting by id removes exactly that row, keeping the others in order |
| Templates.DeleteKeepsOthers | intelligent-test-plan-agent/backend/src/routes/templates.ts:145-166 | an allowed delete removes one non-default row and nothing else; default rows always remain |
| Templates.SpliceKeepsValid | intelligent-test-plan-agent/backend/src/routes/templates.ts:160 | removing a row keeps ids distinct and flags 0 or 1 |
| Templates.TemplateStore.List | intelligent-test-plan-agent/backend/src/routes/templates.ts:44-67 | one summary per row, defaults first |
| Templates.TemplateStore.Get | intelligent-test-plan-agent/backend/src/routes/templates.ts:70-102 | get succeeds iff the id is stored; otherwise `Template not found` |
| Templates.TemplateStore.Upload | intelligent-test-plan-agent/backend/src/routes/templates.ts:105-142 | a successful upload appends exactly the new row; a failed one changes nothing |
| Templates.TemplateStore.Delete | intelligent-test-plan-agent/backend/src/routes/templates.ts:145-166 | the delete answers the guard's outcome, and the table loses the row only when allowed |
| Ordering.Top | intelligent-test-plan-agent/backend/src/routes/llm.ts:210-212 | `ORDER BY … DESC LIMIT n` gives `min(n, count)` rows from the table, in descending order, as a sub-multiset of the table, so no row is returned twice |
| Ordering.SubOfNoDuplicates | intelligent-test-plan-agent/backend/src/routes/llm.ts:210-212 | a sub-multiset of a sequence without repeats has no repeats |
| Ordering.CountAtMostOne | intelligent-test-plan-agent/backend/src/routes/llm.ts:210-212 | in a sequence without repeats every value occurs at most once |
| Ordering.TopDistinctBy | intelligent-test-plan-agent/backend/src/routes/llm.ts:210-212 | when the table's rows have distinct ids, so have the `n` rows the query returns |
| Ordering.TopKeepsHighest | intelligent-test-plan-agent/backend/src/routes/llm.ts:210-212 | no row left out ranks above a row kept |
| LlmRoutes.CheckTicketId | intelligent-test-plan-agent/backend/src/routes/llm.ts:33-40 | the id passes iff present and valid after sanitising, giving the sanitised key; missing and invalid ids get their validation errors |
| LlmRoutes.ResolveProvider | intelligent-test-plan-agent/backend/src/routes/llm.ts:46 | the provider is the non-empty override, else the saved provider, else `groq` |
| LlmRoutes.TemplateIdToUse | intelligent-test-plan-agent/backend/src/routes/llm.ts:53 | the template id is the given one, else `default-testplan` |
| LlmRoutes.ModelUsed | intelligent-test-plan-agent/backend/src/routes/llm.ts:64-80 | the recorded model is the saved Groq model for `groq` and the saved Ollama model for anything else |
| LlmRoutes.ModelUsedIsConfigured | intelligent-test-plan-agent/backend/src/routes/llm.ts:64-80 | the recorded model is the one a provider reading the stored row (the corrected configuration) is configured with |
| LlmRoutes.ModelUsedIsNotConfigured | intelligent-test-plan-agent/backend/src/routes/llm.ts:64-80 | as written, the recorded model differs from the provider's exactly when the stored row names a model other than the default |
| LlmRoutes.WordCount | intelligent-test-plan-agent/backend/src/routes/llm.ts:83 | the word count is one more than the number of maximal whitespace runs |
| LlmRoutes.SplitWhiteRuns | intelligent-test-plan-agent/backend/src/routes/llm.ts:83 | splitting on whitespace runs gives one piece more than there are runs |
| LlmRoutes.WordCountOfWord | intelligent-test-plan-agent/backend/src/routes/llm.ts:83 | a text with no whitespace, even an empty one, counts 1 |
| LlmRoutes.WordCountOfTwo | intelligent-test-plan-agent/backend/src/routes/llm.ts:83 | two words with any whitespace gap between them count 2 |
| LlmRoutes.Preview | intelligent-test-plan-agent/backend/src/routes/llm.ts:103 | the preview is the first `min(500, length)` characters followed by `...` |
| LlmRoutes.PreviewOfShort | intelligent-test-plan-agent/backend/src/routes/llm.ts:103 | short content gets the ellipsis too |
| LlmRoutes.ContentPathInjective | intelligent-test-plan-agent/backend/src/routes/llm.ts:87 | different history ids have different content files |
| LlmRoutes.HistoryList | intelligent-test-plan-agent/backend/src/routes/llm.ts:193-228 | the history lists `min(50, count)` entries, newest first, each taken from a row, and with distinct ids in the table no id is listed twice |
| LlmRoutes.TopIdsDistinct | intelligent-test-plan-agent/backend/src/routes/llm.ts:210-212 | when the table's ids are distinct, so are the ids of the rows the query returns |
| LlmRoutes.HistoryListNewest | intelligent-test-plan-agent/backend/src/routes/llm.ts:210-212 | no row left out of the history is newer than one listed |
| LlmRoutes.FindEntry | intelligent-test-plan-agent/backend/src/routes/llm.ts:247-254 | the lookup finds the one row with the id, or reports that none has it |
| LlmRoutes.LookupEntry | intelligent-test-plan-agent/backend/src/routes/llm.ts:231-279 | an unknown id is `History entry not found`; a success carries the row and the content of its file; with the files in place, a known id succeeds |
| LlmRoutes.AppendThenLookup | intelligent-test-plan-agent/backend/src/routes/llm.ts:86-107 | after writing the file and appending the row, the entry reads back with that content, and earlier entries read as before |
| LlmRoutes.HistoryLedger.Append | intelligent-test-plan-agent/backend/src/routes/llm.ts:86-107 | the content file is written, then exactly the new row is appended |
| LlmRoutes.HistoryLedger.List | intelligent-test-plan-agent/backend/src/routes/llm.ts:193-228 | at most 50 entries, newest first |
| LlmRoutes.HistoryLedger.Get | intelligent-test-plan-agent/backend/src/routes/llm.ts:231-279 | get succeeds iff the id is in the ledger; otherwise `History entry not found` |
| LlmRoutes.PrepareSteps | intelligent-test-plan-agent/backend/src/routes/llm.ts:31-58 | `LlmRoutes.Prepare`: preparation succeeds iff the id passes, the ticket is fetched and the template exists; the id check comes before any fetch, and a missing template is a validation error after the fetch |
| LlmRoutes.FetchedCases | intelligent-test-plan-agent/backend/src/routes/llm.ts:49-50 | a fetch with a fresh client fails with the configuration error, or succeeds iff the API call does |
| LlmRoutes.GeneratedCases | intelligent-test-plan-agent/backend/src/routes/llm.ts:64-80 | `LlmRoutes.Generated`: Groq without a key fails before any call and never returns empty content; Ollama succeeds iff its call does |
| LlmRoutes.HistoryRowOf | intelligent-test-plan-agent/backend/src/routes/llm.ts:90-107 | the ledger row has the plan's id, its content file, the template's id and the preview of its content |
| LlmRoutes.PlanForMeaning | intelligent-test-plan-agent/backend/src/routes/llm.ts:29-122 | `LlmRoutes.PlanFor`: `/generate` succeeds iff preparation and generation do; the plan carries the generated content, its word count, the elapsed time, provider, model, ticket and template; the row points at its file with its preview |
| LlmRoutes.PlanModelVersusRequest | intelligent-test-plan-agent/backend/src/routes/llm.ts:64-80 | a plan records the stored row's model, while its back-end was asked for the default model |
| LlmRoutes.RecentAfter | intelligent-test-plan-agent/backend/src/routes/llm.ts:37-50 | the recent cache keeps distinct keys and is untouched when the id check fails |
| LlmRoutes.PrepareRequest | intelligent-test-plan-agent/backend/src/routes/llm.ts:31-58 | the preparing steps give the prepared request or its first error, and write the cache only after a fetch |
| LlmRoutes.GenerateContent | intelligent-test-plan-agent/backend/src/routes/llm.ts:60-80 | dispatch goes to Groq for `groq` and to Ollama for anything else, which then sets `OLLAMA_HOST` |
| LlmRoutes.Produce | intelligent-test-plan-agent/backend/src/routes/llm.ts:60-122 | on success the ledger gains the file and the row and the entry reads back with the content; on failure the ledger is unchanged |
| LlmRoutes.StreamEvents | intelligent-test-plan-agent/backend/src/routes/llm.ts:180-186 | one chunk event per yielded text, in order, then one done event when no error breaks the stream |
| LlmRoutes.StreamEventsCarryText | intelligent-test-plan-agent/backend/src/routes/llm.ts:181-185 | the chunk events carry the yielded texts, which concatenate to all the text the provider sent |
| LlmRoutes.Streamed | intelligent-test-plan-agent/backend/src/routes/llm.ts:161-178 | Groq without a key streams nothing and fails; nothing empty is ever streamed |
| LlmRoutes.StreamContent | intelligent-test-plan-agent/backend/src/routes/llm.ts:161-178 | the stream comes from the provider the route dispatches to |
| LlmRoutes.Forward | intelligent-test-plan-agent/backend/src/routes/llm.ts:181-186 | the write loop emits exactly the event sequence of the stream |
| LlmRoutes.LlmRouter.constructor | intelligent-test-plan-agent/backend/src/routes/llm.ts:14-26 | the router holds the fixed system prompt |
| LlmRoutes.LlmRouter.Generate | intelligent-test-plan-agent/backend/src/routes/llm.ts:29-126 | `/generate` answers the pipeline's outcome; the ledger gains the plan's file and row only on success; the cache is written only after a fetch |
| LlmRoutes.LlmRouter.Stream | intelligent-test-plan-agent/backend/src/routes/llm.ts:129-190 | `/stream` emits no events on a preparation error and otherwise the stream's events; it never touches the ledger |

## Left out

- Calls into code outside the core are parameters. These are the Jira, Groq and Ollama SDK calls, `fetch`, `pdf-parse` and the template upload's `readFileSync`. Each returns a value or a failure with an optional status and a message.
- File writes, the history read's `readFileSync`, keychain reads and writes, and SQL statements cannot fail in the model. Plan files are the ledger's `files` map, and the keychain is the `Settings.Vault` class. The one exception is the recent-tickets write, whose failure is the `Jira.CacheWrite` parameter. The lines below name the contracts this affects.
- LlmRoutes.LlmRouter.Generate: states that `/generate` succeeds iff preparation and generation do. In the source, `writeFileSync` (`routes/llm.ts:88`) or the history INSERT (`routes/llm.ts:90`) can still throw after generation. The route then answers 500 with no history row, and keeps the file if only the INSERT failed.
- LlmRoutes.Produce: always stores the file and the row after a successful generation. A failed write or INSERT is not modelled.
- LlmRoutes.PlanForMeaning: the same gap as `LlmRoutes.LlmRouter.Generate`. A plan is a success whenever preparation and generation succeed.
- Settings.SettingsStore.SaveJira: the row update and the token store succeed together. In the source, `setPassword` (`routes/settings.ts:59`) can reject after the row has been updated, leaving the new URL and user with the old token and answering 500.
- Settings.SettingsStore.SaveLlm: storing the Groq key cannot fail. In the source, a rejected `setPassword` (`routes/settings.ts:78`) ends the route with a 500 before the row is updated.
- Settings.Vault.Get: a keychain read always answers. A rejected `getPassword` in the Jira client or the Groq provider is not modelled.
- SQL is not modelled. Tables are sequences in classes, and each query is the sequence operation it performs.
- Ties in `ORDER BY … DESC` are broken by an explicit rank. SQLite's order among equal timestamps is unspecified.
- Timestamps (`CURRENT_TIMESTAMP`, `Date.now()`) are integer parameters. A ledger row's `generatedAt` is the finishing time passed to the route.
- Ids from `uuidv4()` are parameters, with freshness as a precondition.
- The regular-expression search for acceptance criteria is not modelled. The search at `jira-client.ts:151-158` is the oracle `criteria`, and `JSON.stringify` of an object description is inside it. Only the split, trim and filter after it are modelled.
- `ValidateUrl` is an abstract predicate over the result of a URL-parsing oracle. WHATWG URL parsing is not modelled.
- Floating point: temperatures are `real` and are only defaulted, passed on and range-checked.
- The parsed PDF's `pageCount` and `info` are carried but not interpreted.
- The multer size cap is modelled as its error. The file's disk write and its unique disk name are not modelled.
- The data directory is the relative path `data/`. The source resolves it against `__dirname`.
- `JSON.stringify` and the `data: …\n\n` framing of server-sent events are not modelled. Stream events are the constructors `Chunk` and `Done`.
- The SSE response headers are not modelled. An error after the headers went out is modelled as the error outcome of `LlmRoutes.LlmRouter.Stream`.
- Async ordering is not modelled. The un-awaited cache write is modelled as finishing before the route goes on. Its failure is the `CacheWrite` parameter, which never affects the result.
- A `ticketId` that is not a string (query arrays, numbers) is not modelled. Ids are strings or absent.
- The test routes `/jira/test`, `/llm/groq/test`, `/llm/ollama/test` and `/llm/ollama/models` (`routes/settings.ts:98-140`) are not modelled. Each builds a fresh client and returns its connection test, which is modelled by `Jira.JiraClient.TestConnection`, `Groq.GroqProvider.TestConnection` and `Ollama.OllamaProvider.TestConnection`.
- The Express wiring in `index.ts` is not modelled, apart from the error handler. `routes/jira.ts`, `database/db.ts`, `database/init.ts` and `services/secure-storage.ts` are not part of this model. What the providers read through node-sqlite3's `Statement.get` is the constant `Settings.StatementRow`.
- Templates.TemplateStore.List: states that defaults come first. The full order (upload time within each group) is stated by `Templates.Listing`.
- LlmRoutes.HistoryLedger.List: states the bound and the order. Where each entry comes from is stated by `LlmRoutes.HistoryList`.
- Strings.Upper: upper-cases ASCII letters only. JavaScript's `toUpperCase` maps every Unicode letter, so the source accepts an id such as `ıd-1` (dotless i becomes `I`) that the model rejects.
- Validators.ValidateJiraIdIff: states acceptance for the ASCII upper-casing of `Strings.Upper`. Ids whose non-ASCII letters upper-case to ASCII letters are accepted by the source and not by the model.
- LlmRoutes.Preview: counts characters. JavaScript's `substring(0, 500)` counts UTF-16 code units, so for content with characters outside the Basic Multilingual Plane the source keeps fewer characters and can cut a surrogate pair.
- PdfParser.ParseFailure: a thrown value without a `message` is modelled with the empty message, so the model gives `Failed to parse PDF: ` where the source's template literal gives `Failed to parse PDF: undefined`.
- JiraText.PostProcess: the bound of 500 counts characters. JavaScript's `length` counts UTF-16 code units, so a criterion with characters outside the Basic Multilingual Plane can be kept by the model and dropped by the source.
- Jira.ConnectedNamesUser: the user is read back only when the two display names have the same length. A display name containing ` (` makes the message ambiguous.

## Findings

The rest of the model follows the code as written; each corrected member stands beside it, with the intended property proved about it (`JiraText.CriteriaOfBulletedList`, `LlmRoutes.ModelUsedIsConfigured`).

| source | as written | input that shows it | evidently intended | confidence | as-written member | corrected member |
|---|---|---|---|---|---|---|
| intelligent-test-plan-agent/backend/src/services/jira-client.ts:162 | The bullet class in the split pattern holds `-`, `*` and the three characters `â`, `€`, `¢`. These are the UTF-8 bytes of `•` read as Windows-1252. | Criteria text `Login works\n• Logout works`: the split finds no separator and returns the whole text as one criterion. | The class is `[-•*]`, so a `•` bullet list splits into its items. | not executed | JiraText.CriteriaOfBulletedPair | JiraText.CriteriaFromTextIntended |
| intelligent-test-plan-agent/backend/src/services/llm-providers/groq-provider.ts:24 | `db.prepare(sql).get()` on a node-sqlite3 database returns the statement, not the row, so `settings?.groq_model` and `settings?.groq_temperature` are always missing. | A settings row with `groq_model` `llama-3.3-70b-versatile`: Groq is called with `openai/gpt-oss-120b` while the plan records `llama-3.3-70b-versatile`. | The provider reads the stored row, as `routes/llm.ts` does with `getQuery`. | not executed | LlmRoutes.ModelUsedIsNotConfigured | Groq.ResolveGroqConfigFromRow |
| intelligent-test-plan-agent/backend/src/services/llm-providers/ollama-provider.ts:21 | The same statement-for-row read: the base URL and model are always `http://localhost:11434` and `llama3.1`. | A settings row with `ollama_model` `mistral`: Ollama is called with `llama3.1` while the plan records `mistral`. | The provider reads the stored row. | not executed | LlmRoutes.ModelUsedIsNotConfigured | Ollama.ResolveOllamaConfigFromRow |
