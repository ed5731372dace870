/**
 * The fund-fact pipeline: keyword extraction, then two agents side by side
 * (a text-document agent fed by a text search, and a spreadsheet agent that
 * needs no search), then a streamed synthesis of their two answers.
 */
module FundfactFlow {
  import opened Wrappers
  import opened Documents
  import opened Conversation
  import opened FanIn
  import opened Prompts
  import opened Keywords
  import opened PyStrings

  /**
   * What one `run_agent` call gets back from outside. With a search tool:
   * the keywords it searches for, the context the search returns and the
   * agent's responses. Without: the messages the agent yields, by content
   * (`None` for a message with no content).
   */
  datatype AgentInputs =
    | WithSearch(keywords: string, context: string, responses: seq<string>)
    | WithoutSearch(messages: seq<Option<string>>)

  /** The dictionary `run_agent` returns. */
  datatype AgentResult = AgentResult(text: string, inputTokens: nat, outputTokens: nat)

  /** What one message adds: its content if it has a non-empty one (`if msg.content`), else nothing. */
  function Contribution(m: Option<string>): string {
    if m.Some? && m.value != "" then m.value else ""
  }

  /** The in-order concatenation of the contents that are present and non-empty. */
  function ContentText(messages: seq<Option<string>>): string
    decreases |messages|
  {
    if messages == [] then []
    else ContentText(messages[..|messages| - 1]) + Contribution(messages[|messages| - 1])
  }

  /** Collecting contents distributes over sequence concatenation: nothing is reordered. */
  lemma {:induction false} ContentTextAppend(a: seq<Option<string>>, b: seq<Option<string>>)
    ensures ContentText(a + b) == ContentText(a) + ContentText(b)
    decreases |b|
  {
    if b == [] {
      assert a + b == a;
    } else {
      var b' := b[..|b| - 1];
      var last := b[|b| - 1];
      assert (a + b)[..|a + b| - 1] == a + b';
      assert (a + b)[|a + b| - 1] == last;
      ContentTextAppend(a, b');
      var x, y, z := ContentText(a), ContentText(b'), Contribution(last);
      assert ContentText(b) == y + z;
      assert ContentText(a + b) == ContentText(a + b') + z;
      assert (x + y) + z == x + (y + z);
    }
  }

  /** Messages without content add nothing; when every message has content, all of it is kept, in order. */
  lemma {:induction false} ContentTextOfContents(messages: seq<Option<string>>)
    requires forall i :: 0 <= i < |messages| ==> messages[i].Some?
    ensures ContentText(messages) == Concat(seq(|messages|, i requires 0 <= i < |messages| => messages[i].value))
    decreases |messages|
  {
    if messages != [] {
      var init := messages[..|messages| - 1];
      ContentTextOfContents(init);
      var vs := seq(|messages|, i requires 0 <= i < |messages| => messages[i].value);
      assert vs[..|vs| - 1] == seq(|init|, i requires 0 <= i < |init| => init[i].value);
    }
  }

  /** The text-document prompt (fixed wording abbreviated). */
  const RagTemplate: seq<string> :=
    ["Use the following JSON context to answer the question:\n\nContext text data:\n", "\n\nQuestion: ", "\n"]

  function RagPrompt(context: string, query: string): string {
    Fill(RagTemplate, [context, query])
  }

  /** The budget of the text-document search. */
  const TextTopK: nat := 50

  /**
   * `run_agent`. With a search tool: one unfiltered text search with budget
   * 50, and the last response wins. Without: the contents of the messages the
   * agent yields are concatenated, and input tokens are counted on the bare
   * query. Either way the answer is stripped but its output tokens are
   * counted on the unstripped text `raw`.
   */
  method RunAgent(query: string, inputs: AgentInputs, count4o: string -> nat)
    returns (r: AgentResult, calls: seq<SearchCall>, raw: string)
    ensures inputs.WithSearch? ==>
      && calls == [SearchCall(TextIndex, inputs.keywords, None, 50)]
      && raw == LastOr(inputs.responses, "")
      && r.inputTokens == count4o(RagPrompt(inputs.context, query))
    ensures inputs.WithoutSearch? ==>
      && calls == []
      && raw == ContentText(inputs.messages)
      && r.inputTokens == count4o(query)
    ensures r.text == Strip(raw) && r.outputTokens == count4o(raw)
  {
    var inputTokens: nat;
    if inputs.WithSearch? {
      calls := [SearchCall(TextIndex, inputs.keywords, None, TextTopK)];
      var prompt := RagPrompt(inputs.context, query);
      inputTokens := count4o(prompt);
      raw := KeepLast(inputs.responses, "");
    } else {
      calls := [];
      inputTokens := count4o(query);
      raw := CollectContents(inputs.messages);
    }
    r := AgentResult(Strip(raw), inputTokens, count4o(raw));
  }

  /** The no-tool loop of `run_agent`: append each message's content when it has a non-empty one. */
  method CollectContents(messages: seq<Option<string>>) returns (raw: string)
    ensures raw == ContentText(messages)
  {
    raw := "";
    var i := 0;
    while i < |messages|
      invariant 0 <= i <= |messages|
      invariant raw == ContentText(messages[..i])
    {
      var msg := messages[i];
      assert messages[..i + 1][..i] == messages[..i];
      if msg.Some? && msg.value != "" {
        raw := raw + msg.value;
      }
      assert raw == ContentText(messages[..i]) + Contribution(msg);
      i := i + 1;
    }
    assert messages[..i] == messages;
  }

  /** The synthesis prompt: the text-document answer, then the spreadsheet answer, then the language. */
  const OrchestratorTemplate: seq<string> :=
    ["You are the final assistant. Synthesize the following answers into a single response:\n\nAnswer from text documents:\n",
     "\n\nAnswer from spreadsheet:\n",
     "\n\nPlease write your final response in a clear in ",
     ", structured way.\n"]

  function OrchestratorPrompt(textAnswer: string, sheetAnswer: string, language: string): string {
    Fill(OrchestratorTemplate, [textAnswer, sheetAnswer, language])
  }

  /** The text-document answer comes before the spreadsheet answer, each under its heading. */
  lemma AnswersInOrder(textAnswer: string, sheetAnswer: string, language: string)
    ensures var p := OrchestratorPrompt(textAnswer, sheetAnswer, language);
      exists i0, i1 ::
        && SectionAt(p, i0, OrchestratorTemplate[0], textAnswer)
        && SectionAt(p, i1, OrchestratorTemplate[1], sheetAnswer)
        && i0 + |textAnswer| < i1
  {
    var holes := [textAnswer, sheetAnswer, language];
    var p := Fill(OrchestratorTemplate, holes);
    FillSection(OrchestratorTemplate, holes, 0);
    FillSection(OrchestratorTemplate, holes, 1);
    OffsetsIncrease(OrchestratorTemplate, holes, 0);
    var i0, i1 := Offset(OrchestratorTemplate, holes, 0), Offset(OrchestratorTemplate, holes, 1);
    assert SectionAt(p, i0, OrchestratorTemplate[0], textAnswer);
    assert SectionAt(p, i1, OrchestratorTemplate[1], sheetAnswer);
    assert |OrchestratorTemplate[1]| > 0;
    assert i0 + |textAnswer| < i1;
    assert p == OrchestratorPrompt(textAnswer, sheetAnswer, language);
  }

  /** The nine values the fund-fact flow returns. */
  datatype FlowResult = FlowResult(
    finalResponse: string, mainThread: Thread,
    ragPromptTokens: nat, ragCompletionTokens: nat,
    orchestratorInputTokens: nat, orchestratorOutputTokens: nat,
    keywordInputTokens: nat, keywordOutputTokens: nat,
    hasStreamed: bool)

  /** What the flow sends out and shows on the way. */
  datatype Trace = Trace(searchKeywords: string, calls: seq<SearchCall>, answers: seq<string>, orchestratorPrompt: string, shown: seq<string>)

  /**
   * `get_fundfact_agent_response`. The text-document agent searches for the
   * keywords; the spreadsheet agent runs on the bare query; their token counts
   * are summed, their stripped answers fill the synthesis prompt in that
   * order, and the synthesis is streamed. Without a display (`hasContainer`
   * false) nothing is shown. An empty synthesis stream leaves the returned
   * thread unbound in the source, so the stream is required to yield
   * something.
   */
  method GetFundfactAgentResponse(
    userQuery: string, language: string, keywordResponses: seq<string>,
    textContext: string, textResponses: seq<string>, sheetMessages: seq<Option<string>>,
    orchestratorChunks: seq<Chunk>, hasContainer: bool, count4o: string -> nat, count41: string -> nat)
    returns (res: FlowResult, trace: Trace)
    requires orchestratorChunks != []
    ensures trace.searchKeywords == LastOr(keywordResponses, userQuery)
    ensures res.keywordInputTokens == count41(KeywordPrompt(userQuery))
    ensures res.keywordOutputTokens == count41(trace.searchKeywords)
    ensures trace.calls == [SearchCall(TextIndex, trace.searchKeywords, None, 50)]
    ensures trace.answers == [Strip(LastOr(textResponses, "")), Strip(ContentText(sheetMessages))]
    ensures res.ragPromptTokens == count4o(RagPrompt(textContext, userQuery)) + count4o(userQuery)
    ensures res.ragCompletionTokens == count4o(LastOr(textResponses, "")) + count4o(ContentText(sheetMessages))
    ensures trace.orchestratorPrompt == OrchestratorPrompt(trace.answers[0], trace.answers[1], language)
    ensures res.orchestratorInputTokens == count41(trace.orchestratorPrompt)
    ensures res.finalResponse == Concat(Texts(orchestratorChunks))
    ensures res.orchestratorOutputTokens == count41(res.finalResponse)
    ensures hasContainer ==> (|trace.shown| == |orchestratorChunks|
      && forall i :: 0 <= i < |orchestratorChunks| ==> trace.shown[i] == Concat(Texts(orchestratorChunks[..i + 1])))
    ensures !hasContainer ==> trace.shown == []
    ensures res.mainThread == orchestratorChunks[|orchestratorChunks| - 1].thread
    ensures res.hasStreamed
  {
    var keywords, kwIn, kwOut := ExtractKeywords(userQuery, keywordResponses, count41);
    var textResult, calls, _ := RunAgent(userQuery, WithSearch(keywords, textContext, textResponses), count4o);
    var sheetResult, _, _ := RunAgent(userQuery, WithoutSearch(sheetMessages), count4o);
    var results := [textResult, sheetResult];
    var responses := [results[0].text, results[1].text];
    SumSmall(textResult.inputTokens, sheetResult.inputTokens, 0);
    SumSmall(textResult.outputTokens, sheetResult.outputTokens, 0);
    var ragPrompt := Sum([results[0].inputTokens, results[1].inputTokens]);
    var ragCompletion := Sum([results[0].outputTokens, results[1].outputTokens]);
    var prompt := OrchestratorPrompt(responses[0], responses[1], language);
    var inOrch := count41(prompt);
    var finalResponse, shown, thread, streamed := Accumulate(orchestratorChunks, null);
    if !hasContainer {
      shown := [];
    }
    res := FlowResult(finalResponse, thread, ragPrompt, ragCompletion, inOrch, count41(finalResponse), kwIn, kwOut, streamed);
    trace := Trace(keywords, calls, responses, prompt, shown);
  }
}
