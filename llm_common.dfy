/** What the two LLM providers share: the generation request, the answer
    of a connection test, and the streaming of a completion, where every
    chunk with non-empty text is passed on as it arrives. */
module LlmCommon {
  import opened Wrappers
  import opened Strings
  import opened Errors
  import opened Jira

  /** `GenerationRequest`: the ticket, the template text and the system
      prompt. */
  datatype GenerationRequest = GenerationRequest(ticket: TicketData, templateText: string, systemPrompt: string)

  /** `{ success, message, models? }`. */
  datatype ConnectionResult = ConnectionResult(success: bool, message: string, models: Option<seq<string>>)

  /** A streamed completion as the library delivers it: the text of each
      chunk (`None` when the chunk has none), then either the end of the
      stream or the error that broke it off. An error raised before the
      stream opens is a failure after no chunks. */
  datatype StreamReply = StreamReply(chunks: seq<Option<string>>, failure: Option<Thrown>)

  /** What the consumer of the async generator sees: the strings yielded,
      then possibly an error. */
  datatype StreamResult = StreamResult(yielded: seq<string>, error: Option<AppError>)

  predicate IsTruthy(c: Option<string>) { c.Some? && c.value != "" }

  /** The chunk texts the loop yields: the truthy ones, in order. */
  function TruthyTexts(chunks: seq<Option<string>>): (r: seq<string>)
    ensures |r| <= |chunks|
    ensures forall x :: x in r ==> x != ""
    decreases |chunks|
  {
    if chunks == [] then []
    else
      var last := chunks[|chunks| - 1];
      TruthyTexts(chunks[..|chunks| - 1]) + (if IsTruthy(last) then [last.value] else [])
  }

  /** The text of each chunk, `''` for none. */
  function Texts(chunks: seq<Option<string>>): seq<string> {
    seq(|chunks|, i requires 0 <= i < |chunks| => chunks[i].GetOr(""))
  }

  /** Skipping the empty chunks loses no text: what is yielded, put
      together, is the whole streamed text. */
  lemma {:induction false} TruthyTextsKeepText(chunks: seq<Option<string>>)
    ensures Concat(TruthyTexts(chunks)) == Concat(Texts(chunks))
    decreases |chunks|
  {
    if chunks != [] {
      var init := chunks[..|chunks| - 1];
      var last := chunks[|chunks| - 1];
      TruthyTextsKeepText(init);
      ConcatAppend(TruthyTexts(init), if IsTruthy(last) then [last.value] else []);
      assert Texts(chunks) == Texts(init) + [last.GetOr("")];
      ConcatAppend(Texts(init), [last.GetOr("")]);
      assert Concat([last.GetOr("")]) == last.GetOr("") + Concat([]);
    }
  }

  /** `for await (const chunk of stream) { if (text) yield text; }`. */
  method Drain(chunks: seq<Option<string>>) returns (out: seq<string>)
    ensures out == TruthyTexts(chunks)
  {
    out := [];
    var i := 0;
    while i < |chunks|
      invariant 0 <= i <= |chunks|
      invariant out == TruthyTexts(chunks[..i])
    {
      assert chunks[..i + 1][..i] == chunks[..i];
      if IsTruthy(chunks[i]) {
        out := out + [chunks[i].value];
      }
      i := i + 1;
    }
    assert chunks[..|chunks|] == chunks;
  }
}
