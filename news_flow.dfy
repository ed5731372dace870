/**
 * The news pipeline: keyword extraction, one retrieval-and-draft task per
 * document family (Monthly Standpoint, Know the Markets, KAsset Capital
 * Market Assumptions) with fixed budgets, then a streamed synthesis of the
 * three drafts.
 */
module NewsFlow {
  import opened Wrappers
  import opened Documents
  import opened Conversation
  import opened FanIn
  import opened Prompts
  import opened Keywords

  /**
   * What one family's task gets back from outside: the JSON contexts the
   * text, table and image searches return, and the responses the retrieval
   * agent yields.
   */
  datatype FamilyInputs = FamilyInputs(textContext: string, tableContext: string, imageContext: string, responses: seq<string>)

  /** A family's draft answer and its token counts. */
  datatype Draft = Draft(text: string, inputTokens: nat, outputTokens: nat)

  /** The retrieval prompt: three context sections, then the question (fixed wording abbreviated). */
  const RagTemplate: seq<string> :=
    ["Use the following JSON context to answer the question:\n\nContext text data:\n",
     "\n\nContext table data:\n", "\n\nContext image data:\n", "\n\nQuestion: ", "\n"]

  function RagPrompt(text: string, table: string, image: string, userQuery: string): string {
    Fill(RagTemplate, [text, table, image, userQuery])
  }

  /** The budgets of the table and image sub-queries, whatever the family's budget. */
  const TableTopK: nat := 5
  const ImageTopK: nat := 4

  /**
   * `run_mmrag_agent`: three sub-queries on the keywords with the family's
   * filter (text with the family budget, tables with 5, images with 4), one
   * retrieval prompt, and the last response of the agent as the draft ("" if
   * it yields none).
   */
  method RunMmragAgent(userQuery: string, keywords: string, filter: Option<string>, topK: nat, family: FamilyInputs, count4o: string -> nat)
    returns (draft: Draft, calls: seq<SearchCall>, prompt: string)
    ensures calls == [SearchCall(TextIndex, keywords, filter, topK), SearchCall(TableIndex, keywords, filter, 5),
                      SearchCall(ImageIndex, keywords, filter, 4)]
    ensures prompt == RagPrompt(family.textContext, family.tableContext, family.imageContext, userQuery)
    ensures draft.text == LastOr(family.responses, "")
    ensures draft.inputTokens == count4o(prompt) && draft.outputTokens == count4o(draft.text)
  {
    calls := [SearchCall(TextIndex, keywords, filter, topK), SearchCall(TableIndex, keywords, filter, TableTopK),
              SearchCall(ImageIndex, keywords, filter, ImageTopK)];
    prompt := RagPrompt(family.textContext, family.tableContext, family.imageContext, userQuery);
    var inputTokens := count4o(prompt);
    var text := KeepLast(family.responses, "");
    draft := Draft(text, inputTokens, count4o(text));
  }

  /** The per-family text budgets of the news pipeline. */
  const MonthlyStandpointTopK: nat := 10
  const KtmTopK: nat := 20
  const KcmaTopK: nat := 40

  /** The synthesis prompt: the three drafts under their family headings, then the instructions. */
  const OrchestratorTemplate: seq<string> :=
    ["The information given to you are:\n\ninformation from Monthly Standpoint (monthlystandpoint) document:\n",
     "\n\ninformation from Know the Markets (KTM) document:\n",
     "\n\ninformation from KAsset Capital Market Assumptions (KCMA) document:\n",
     "\n\nIf ",
     " mention specific documents, left out what is not stated. Otherwise, prioritize KCMA and monthlystandpoint over KTM. Answer the original question:\n",
     "\n\nPlease write your final response in a clear ",
     ", structured way.\n"]

  function OrchestratorPrompt(monthly: string, ktm: string, kcma: string, userQuery: string, language: string): string {
    Fill(OrchestratorTemplate, [monthly, ktm, kcma, userQuery, userQuery, language])
  }

  /**
   * The synthesis prompt holds the Monthly Standpoint draft, then the KTM
   * draft, then the KCMA draft, each under its own heading and none
   * overlapping the next.
   */
  lemma DraftsInFamilyOrder(monthly: string, ktm: string, kcma: string, userQuery: string, language: string)
    ensures var p := OrchestratorPrompt(monthly, ktm, kcma, userQuery, language);
      exists i0, i1, i2 ::
        && SectionAt(p, i0, OrchestratorTemplate[0], monthly)
        && SectionAt(p, i1, OrchestratorTemplate[1], ktm)
        && SectionAt(p, i2, OrchestratorTemplate[2], kcma)
        && i0 + |monthly| < i1 && i1 + |ktm| < i2
  {
    var holes := [monthly, ktm, kcma, userQuery, userQuery, language];
    var p := Fill(OrchestratorTemplate, holes);
    FillSection(OrchestratorTemplate, holes, 0);
    FillSection(OrchestratorTemplate, holes, 1);
    FillSection(OrchestratorTemplate, holes, 2);
    OffsetsIncrease(OrchestratorTemplate, holes, 0);
    OffsetsIncrease(OrchestratorTemplate, holes, 1);
    var i0, i1, i2 := Offset(OrchestratorTemplate, holes, 0), Offset(OrchestratorTemplate, holes, 1), Offset(OrchestratorTemplate, holes, 2);
    assert SectionAt(p, i0, OrchestratorTemplate[0], monthly);
    assert SectionAt(p, i1, OrchestratorTemplate[1], ktm);
    assert SectionAt(p, i2, OrchestratorTemplate[2], kcma);
    assert |OrchestratorTemplate[1]| > 0;
    assert |OrchestratorTemplate[2]| > 0;
    assert i0 + |monthly| < i1;
    assert i1 + |ktm| < i2;
    assert p == OrchestratorPrompt(monthly, ktm, kcma, userQuery, language);
  }

  /** The nine values the news flow returns. */
  datatype FlowResult = FlowResult(
    finalResponse: string, mainThread: Thread,
    ragPromptTokens: nat, ragCompletionTokens: nat,
    orchestratorInputTokens: nat, orchestratorOutputTokens: nat,
    keywordInputTokens: nat, keywordOutputTokens: nat,
    hasStreamed: bool)

  /** What the flow sends out and shows on the way: keywords, search calls, drafts, the synthesis prompt, the displayed text. */
  datatype Trace = Trace(searchKeywords: string, calls: seq<SearchCall>, drafts: seq<string>, orchestratorPrompt: string, shown: seq<string>)

  /**
   * `get_news_agent_response`. The keyword agent's last response (or the
   * query) drives all nine searches; the three families run in argument
   * order with budgets 10, 20 and 40; their token counts are summed; the
   * synthesis is streamed, and the returned thread is the last chunk's.
   * An empty synthesis stream leaves the returned thread unbound in the
   * source, so the stream is required to yield something.
   */
  method GetNewsAgentResponse(
    userQuery: string, language: string, keywordResponses: seq<string>,
    monthly: FamilyInputs, ktm: FamilyInputs, kcma: FamilyInputs,
    orchestratorChunks: seq<Chunk>, count4o: string -> nat, count41: string -> nat)
    returns (res: FlowResult, trace: Trace)
    requires orchestratorChunks != []
    ensures trace.searchKeywords == LastOr(keywordResponses, userQuery)
    ensures res.keywordInputTokens == count41(KeywordPrompt(userQuery))
    ensures res.keywordOutputTokens == count41(trace.searchKeywords)
    ensures var k := trace.searchKeywords;
      trace.calls == [SearchCall(TextIndex, k, Some(MonthlyStandpointFilter), 10), SearchCall(TableIndex, k, Some(MonthlyStandpointFilter), 5),
                      SearchCall(ImageIndex, k, Some(MonthlyStandpointFilter), 4),
                      SearchCall(TextIndex, k, Some(KtmFilter), 20), SearchCall(TableIndex, k, Some(KtmFilter), 5),
                      SearchCall(ImageIndex, k, Some(KtmFilter), 4),
                      SearchCall(TextIndex, k, Some(KcmaFilter), 40), SearchCall(TableIndex, k, Some(KcmaFilter), 5),
                      SearchCall(ImageIndex, k, Some(KcmaFilter), 4)]
    ensures trace.drafts == [LastOr(monthly.responses, ""), LastOr(ktm.responses, ""), LastOr(kcma.responses, "")]
    ensures res.ragPromptTokens ==
      count4o(RagPrompt(monthly.textContext, monthly.tableContext, monthly.imageContext, userQuery))
      + count4o(RagPrompt(ktm.textContext, ktm.tableContext, ktm.imageContext, userQuery))
      + count4o(RagPrompt(kcma.textContext, kcma.tableContext, kcma.imageContext, userQuery))
    ensures res.ragCompletionTokens == count4o(trace.drafts[0]) + count4o(trace.drafts[1]) + count4o(trace.drafts[2])
    ensures trace.orchestratorPrompt == OrchestratorPrompt(trace.drafts[0], trace.drafts[1], trace.drafts[2], userQuery, language)
    ensures res.orchestratorInputTokens == count41(trace.orchestratorPrompt)
    ensures res.finalResponse == Concat(Texts(orchestratorChunks))
    ensures res.orchestratorOutputTokens == count41(res.finalResponse)
    ensures |trace.shown| == |orchestratorChunks|
    ensures forall i :: 0 <= i < |orchestratorChunks| ==> trace.shown[i] == Concat(Texts(orchestratorChunks[..i + 1]))
    ensures res.mainThread == orchestratorChunks[|orchestratorChunks| - 1].thread
    ensures res.hasStreamed
  {
    // 1. keywords
    var keywords, kwIn, kwOut := ExtractKeywords(userQuery, keywordResponses, count41);
    // 2. the three families, results positional in argument order
    var d0, c0, p0 := RunMmragAgent(userQuery, keywords, Some(MonthlyStandpointFilter), MonthlyStandpointTopK, monthly, count4o);
    var d1, c1, p1 := RunMmragAgent(userQuery, keywords, Some(KtmFilter), KtmTopK, ktm, count4o);
    var d2, c2, p2 := RunMmragAgent(userQuery, keywords, Some(KcmaFilter), KcmaTopK, kcma, count4o);
    var results := [d0, d1, d2];
    var responses := [d0.text, d1.text, d2.text];
    SumSmall(d0.inputTokens, d1.inputTokens, d2.inputTokens);
    SumSmall(d0.outputTokens, d1.outputTokens, d2.outputTokens);
    var ragPrompt := Sum([results[0].inputTokens, results[1].inputTokens, results[2].inputTokens]);
    var ragCompletion := Sum([results[0].outputTokens, results[1].outputTokens, results[2].outputTokens]);
    // 3. streamed synthesis
    var prompt := OrchestratorPrompt(responses[0], responses[1], responses[2], userQuery, language);
    var inOrch := count41(prompt);
    var finalResponse, shown, thread, streamed := Accumulate(orchestratorChunks, null);
    res := FlowResult(finalResponse, thread, ragPrompt, ragCompletion, inOrch, count41(finalResponse), kwIn, kwOut, streamed);
    trace := Trace(keywords, c0 + c1 + c2, responses, prompt, shown);
  }
}
