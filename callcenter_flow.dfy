/**
 * The call-center pipeline: keyword extraction, one text search of the
 * call-center index, and one streamed retrieval answer.
 */
module CallcenterFlow {
  import opened Wrappers
  import opened Documents
  import opened Conversation
  import opened FanIn
  import opened Prompts
  import opened Keywords

  /** The retrieval prompt: the language, the context, the question (fixed wording abbreviated). */
  const RagTemplate: seq<string> :=
    ["Use the following JSON context to answer the question in ", ":\n\nContext text data:\n", "\n\nQuestion: ", "\n"]

  function RagPrompt(language: string, context: string, userQuery: string): string {
    Fill(RagTemplate, [language, context, userQuery])
  }

  /** The prompt carries the language, then the context, then the question, each after its own heading. */
  lemma PromptSections(language: string, context: string, userQuery: string)
    ensures var p := RagPrompt(language, context, userQuery);
      exists i0, i1, i2 ::
        && SectionAt(p, i0, RagTemplate[0], language)
        && SectionAt(p, i1, RagTemplate[1], context)
        && SectionAt(p, i2, RagTemplate[2], userQuery)
        && i0 + |language| < i1 && i1 + |context| < i2
  {
    var holes := [language, context, userQuery];
    var p := Fill(RagTemplate, holes);
    FillSection(RagTemplate, holes, 0);
    FillSection(RagTemplate, holes, 1);
    FillSection(RagTemplate, holes, 2);
    OffsetsIncrease(RagTemplate, holes, 0);
    OffsetsIncrease(RagTemplate, holes, 1);
    var i0, i1, i2 := Offset(RagTemplate, holes, 0), Offset(RagTemplate, holes, 1), Offset(RagTemplate, holes, 2);
    assert SectionAt(p, i0, RagTemplate[0], language);
    assert SectionAt(p, i1, RagTemplate[1], context);
    assert SectionAt(p, i2, RagTemplate[2], userQuery);
    assert |RagTemplate[1]| > 0;
    assert |RagTemplate[2]| > 0;
    assert i0 + |language| < i1;
    assert i1 + |context| < i2;
    assert p == RagPrompt(language, context, userQuery);
  }

  /** The budget of the single call-center search. */
  const CallcenterTopK: nat := 10

  /** The seven values the call-center flow returns. */
  datatype FlowResult = FlowResult(
    finalResponse: string, mainThread: Thread,
    ragPromptTokens: nat, ragCompletionTokens: nat,
    keywordInputTokens: nat, keywordOutputTokens: nat,
    hasStreamed: bool)

  /** What the flow sends out and shows on the way. */
  datatype Trace = Trace(searchKeywords: string, calls: seq<SearchCall>, ragPrompt: string, shown: seq<string>)

  /**
   * `get_callcenter_agent_response`: `context` is what the one text search
   * returns and `chunks` what the retrieval agent streams. An empty stream
   * leaves the returned thread unbound in the source, so the stream is
   * required to yield something.
   */
  method GetCallcenterAgentResponse(
    userQuery: string, language: string, keywordResponses: seq<string>, context: string,
    chunks: seq<Chunk>, count4o: string -> nat, count41: string -> nat)
    returns (res: FlowResult, trace: Trace)
    requires chunks != []
    ensures trace.searchKeywords == LastOr(keywordResponses, userQuery)
    ensures res.keywordInputTokens == count41(KeywordPrompt(userQuery))
    ensures res.keywordOutputTokens == count41(trace.searchKeywords)
    ensures trace.calls == [SearchCall(TextIndex, trace.searchKeywords, None, 10)]
    ensures trace.ragPrompt == RagPrompt(language, context, userQuery)
    ensures res.ragPromptTokens == count4o(trace.ragPrompt)
    ensures res.finalResponse == Concat(Texts(chunks))
    ensures res.ragCompletionTokens == count4o(res.finalResponse)
    ensures |trace.shown| == |chunks|
    ensures forall i :: 0 <= i < |chunks| ==> trace.shown[i] == Concat(Texts(chunks[..i + 1]))
    ensures res.mainThread == chunks[|chunks| - 1].thread
    ensures res.hasStreamed
  {
    var keywords, kwIn, kwOut := ExtractKeywords(userQuery, keywordResponses, count41);
    var calls := [SearchCall(TextIndex, keywords, None, CallcenterTopK)];
    var prompt := RagPrompt(language, context, userQuery);
    var ragIn := count4o(prompt);
    var text, shown, thread, streamed := Accumulate(chunks, null);
    res := FlowResult(text, thread, ragIn, count4o(text), kwIn, kwOut, streamed);
    trace := Trace(keywords, calls, prompt, shown);
  }
}
