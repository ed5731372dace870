/**
 * The older news pipeline: no keyword stage, one shared budget for all three
 * sub-queries of a family, and a non-streamed synthesis whose last response
 * wins.
 */
module LegacyFlow {
  import opened Wrappers
  import opened Documents
  import opened Conversation
  import opened FanIn
  import opened Prompts

  /** The JSON contexts the three searches of one family return, and the retrieval agent's responses. */
  datatype FamilyInputs = FamilyInputs(textContext: string, tableContext: string, imageContext: string, responses: seq<string>)

  /** The retrieval prompt (fixed wording abbreviated). */
  const RagTemplate: seq<string> :=
    ["Use the following JSON context to answer the question:\n\nContext text data:\n",
     "\n\nContext table data:\n", "\n\nContext image data:\n", "\n\nQuestion: ", "\n"]

  function RagPrompt(text: string, table: string, image: string, userQuery: string): string {
    Fill(RagTemplate, [text, table, image, userQuery])
  }

  /**
   * `run_mmrag_agent`: text, table and image searches on the raw query, all
   * with the family's filter and the same budget; the last response is the
   * draft, "" if there is none.
   */
  method RunMmragAgent(userQuery: string, filter: Option<string>, topK: nat, family: FamilyInputs)
    returns (draft: string, calls: seq<SearchCall>, prompt: string)
    ensures calls == [SearchCall(TextIndex, userQuery, filter, topK), SearchCall(TableIndex, userQuery, filter, topK),
                      SearchCall(ImageIndex, userQuery, filter, topK)]
    ensures forall c :: c in calls ==> c.topK == topK && c.filter == filter
    ensures prompt == RagPrompt(family.textContext, family.tableContext, family.imageContext, userQuery)
    ensures draft == LastOr(family.responses, "")
  {
    calls := [SearchCall(TextIndex, userQuery, filter, topK), SearchCall(TableIndex, userQuery, filter, topK),
              SearchCall(ImageIndex, userQuery, filter, topK)];
    prompt := RagPrompt(family.textContext, family.tableContext, family.imageContext, userQuery);
    draft := KeepLast(family.responses, "");
  }

  /** The per-family budgets of this pipeline. */
  const MonthlyStandpointTopK: nat := 5
  const KtmTopK: nat := 10
  const KcmaTopK: nat := 20

  /** The synthesis prompt: the three answers in family order (fixed wording abbreviated). */
  const OrchestratorTemplate: seq<string> :=
    ["You are the final assistant. Synthesize the following three answers into a single response:\n\nAnswer from monthlystandpoint:\n",
     "\n\nAnswer from KTM:\n", "\n\nAnswer from KCMA:\n",
     "\n\nPlease write your final response in a clear, structured way.\n"]

  function OrchestratorPrompt(monthly: string, ktm: string, kcma: string): string {
    Fill(OrchestratorTemplate, [monthly, ktm, kcma])
  }

  /** The three answers appear in the order Monthly Standpoint, KTM, KCMA, each under its heading. */
  lemma AnswersInFamilyOrder(monthly: string, ktm: string, kcma: string)
    ensures var p := OrchestratorPrompt(monthly, ktm, kcma);
      exists i0, i1, i2 ::
        && SectionAt(p, i0, OrchestratorTemplate[0], monthly)
        && SectionAt(p, i1, OrchestratorTemplate[1], ktm)
        && SectionAt(p, i2, OrchestratorTemplate[2], kcma)
        && i0 + |monthly| < i1 && i1 + |ktm| < i2
  {
    var holes := [monthly, ktm, kcma];
    var p := Fill(OrchestratorTemplate, holes);
    FillSection(OrchestratorTemplate, holes, 0);
    FillSection(OrchestratorTemplate, holes, 1);
    FillSection(OrchestratorTemplate, holes, 2);
    OffsetsIncrease(OrchestratorTemplate, holes, 0);
    OffsetsIncrease(OrchestratorTemplate, holes, 1);
    var i0, i1, i2 := Offset(OrchestratorTemplate, holes, 0), Offset(OrchestratorTemplate, holes, 1), Offset(OrchestratorTemplate, holes, 2);
    assert SectionAt(p, i0, OrchestratorTemplate[0], monthly);
    assert SectionAt(p, i1, OrchestratorTemplate[1], ktm);
    assert SectionAt(p, i2, OrchestratorTemplate[2], kcma);
    assert |OrchestratorTemplate[1]| > 0;
    assert |OrchestratorTemplate[2]| > 0;
    assert i0 + |monthly| < i1;
    assert i1 + |ktm| < i2;
    assert p == OrchestratorPrompt(monthly, ktm, kcma);
  }

  /**
   * `get_agent_response`: three families with budgets 5, 10 and 20, their
   * drafts in argument order in the synthesis prompt, and the synthesis
   * agent's last response as the answer; the thread is that response's, or
   * the given one when the agent yields nothing.
   */
  method GetAgentResponse(userQuery: string, thread: Thread?, monthly: FamilyInputs, ktm: FamilyInputs, kcma: FamilyInputs, responses: seq<Chunk>)
    returns (finalResponse: string, thread': Thread?, calls: seq<SearchCall>, prompt: string)
    ensures calls == [SearchCall(TextIndex, userQuery, Some(MonthlyStandpointFilter), 5), SearchCall(TableIndex, userQuery, Some(MonthlyStandpointFilter), 5),
                      SearchCall(ImageIndex, userQuery, Some(MonthlyStandpointFilter), 5),
                      SearchCall(TextIndex, userQuery, Some(KtmFilter), 10), SearchCall(TableIndex, userQuery, Some(KtmFilter), 10),
                      SearchCall(ImageIndex, userQuery, Some(KtmFilter), 10),
                      SearchCall(TextIndex, userQuery, Some(KcmaFilter), 20), SearchCall(TableIndex, userQuery, Some(KcmaFilter), 20),
                      SearchCall(ImageIndex, userQuery, Some(KcmaFilter), 20)]
    ensures prompt == OrchestratorPrompt(LastOr(monthly.responses, ""), LastOr(ktm.responses, ""), LastOr(kcma.responses, ""))
    ensures finalResponse == LastOr(Texts(responses), "")
    ensures thread' == if responses == [] then thread else responses[|responses| - 1].thread
  {
    var r1, c1, _ := RunMmragAgent(userQuery, Some(MonthlyStandpointFilter), MonthlyStandpointTopK, monthly);
    var r2, c2, _ := RunMmragAgent(userQuery, Some(KtmFilter), KtmTopK, ktm);
    var r3, c3, _ := RunMmragAgent(userQuery, Some(KcmaFilter), KcmaTopK, kcma);
    calls := c1 + c2 + c3;
    prompt := OrchestratorPrompt(r1, r2, r3);
    finalResponse, thread' := "", thread;
    var i := 0;
    while i < |responses|
      invariant 0 <= i <= |responses|
      invariant finalResponse == LastOr(Texts(responses[..i]), "")
      invariant thread' == if i == 0 then thread else responses[i - 1].thread
    {
      finalResponse := responses[i].text;
      thread' := responses[i].thread;
      i := i + 1;
    }
    assert responses[..i] == responses;
  }
}
