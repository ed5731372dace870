/**
 * One turn of the chatbot: the router's reply is parsed into an intent and
 * a language, the intent picks the news, call-center or fund-fact flow or
 * the generic reply agent, the flow's thread is merged into the main
 * thread, and the question and answer are added to the chat history.
 */
module Controller {
  import opened Wrappers
  import opened PyStrings
  import opened Conversation
  import opened FanIn
  import CallcenterFlow
  import FundfactFlow

  const IntentPrefix: string := "INTENT:"
  const LanguagePrefix: string := "LANGUAGE:"
  const DefaultIntent: string := "BYPASS"
  const DefaultLanguage: string := "THAI"

  /** What the router decided. */
  datatype Route = Route(intent: string, language: string)

  /** `line.split(prefix)[1].strip()` for a line that starts with `prefix`: the stripped text up to the prefix's next occurrence. */
  function FieldValue(line: string, prefix: string): string
    requires prefix != [] && StartsWith(line, prefix)
  {
    Strip(BeforeFirst(line[|prefix|..], prefix))
  }

  /** The value of the last line that starts with `prefix`, if any. */
  function LastField(lines: seq<string>, prefix: string): Option<string>
    requires prefix != []
    decreases |lines|
  {
    if lines == [] then None
    else if StartsWith(lines[|lines| - 1], prefix) then Some(FieldValue(lines[|lines| - 1], prefix))
    else LastField(lines[..|lines| - 1], prefix)
  }

  /** `value or default`: the default replaces a missing or empty value. */
  function OrDefault(value: Option<string>, default: string): string {
    if value.Some? && value.value != "" then value.value else default
  }

  /** The route a (stripped) router reply stands for. */
  function RouteOf(routeStr: string): Route {
    var lines := SplitLines(routeStr);
    Route(OrDefault(LastField(lines, IntentPrefix), DefaultIntent),
          OrDefault(LastField(lines, LanguagePrefix), DefaultLanguage))
  }

  /** No field is set when no line starts with its prefix, and conversely. */
  lemma {:induction false} LastFieldNone(lines: seq<string>, prefix: string)
    requires prefix != []
    ensures LastField(lines, prefix).None? <==> forall i :: 0 <= i < |lines| ==> !StartsWith(lines[i], prefix)
    decreases |lines|
  {
    if lines != [] {
      var init := lines[..|lines| - 1];
      LastFieldNone(init, prefix);
      assert forall i :: 0 <= i < |init| ==> init[i] == lines[i];
    }
  }

  /** The last line that starts with the prefix decides the value: later matches override earlier ones. */
  lemma {:induction false} LastMatchWins(lines: seq<string>, prefix: string, i: nat)
    requires prefix != []
    requires i < |lines| && StartsWith(lines[i], prefix)
    requires forall j :: i < j < |lines| ==> !StartsWith(lines[j], prefix)
    ensures LastField(lines, prefix) == Some(FieldValue(lines[i], prefix))
    decreases |lines|
  {
    if i < |lines| - 1 {
      var init := lines[..|lines| - 1];
      assert init[i] == lines[i];
      assert forall j :: i < j < |init| ==> init[j] == lines[j];
      LastMatchWins(init, prefix, i);
    }
  }

  /** A line that does not start with the prefix changes nothing, wherever it sits. */
  lemma {:induction false} NonMatchingLineIgnored(a: seq<string>, l: string, b: seq<string>, prefix: string)
    requires prefix != [] && !StartsWith(l, prefix)
    ensures LastField(a + [l] + b, prefix) == LastField(a + b, prefix)
    decreases |b|
  {
    if b == [] {
      assert (a + [l] + b)[..|a + [l] + b| - 1] == a;
      assert a + b == a;
    } else {
      var b' := b[..|b| - 1];
      assert (a + [l] + b)[..|a + [l] + b| - 1] == a + [l] + b';
      assert (a + b)[..|a + b| - 1] == a + b';
      assert (a + [l] + b)[|a + [l] + b| - 1] == b[|b| - 1] == (a + b)[|a + b| - 1];
      NonMatchingLineIgnored(a, l, b', prefix);
    }
  }

  /**
   * Matching is anchored at the line start and lines are not stripped one
   * by one, so an indented "INTENT:" line sets nothing.
   */
  lemma IndentedLineIgnored(a: seq<string>, l: string, b: seq<string>)
    requires l != [] && IsSpace(l[0])
    ensures LastField(a + [l] + b, IntentPrefix) == LastField(a + b, IntentPrefix)
    ensures LastField(a + [l] + b, LanguagePrefix) == LastField(a + b, LanguagePrefix)
  {
    StartsWithFirst(l, IntentPrefix);
    StartsWithFirst(l, LanguagePrefix);
    NonMatchingLineIgnored(a, l, b, IntentPrefix);
    NonMatchingLineIgnored(a, l, b, LanguagePrefix);
  }

  /** A string that starts with a non-empty prefix starts with the prefix's first character. */
  lemma StartsWithFirst(s: string, p: string)
    ensures p != [] && StartsWith(s, p) ==> s != [] && s[0] == p[0]
  {
    if p != [] && StartsWith(s, p) {
      assert s[..|p|][0] == s[0];
    }
  }

  /** No line sets both fields: the two prefixes differ in their first character. */
  lemma PrefixesExclusive(line: string)
    ensures !(StartsWith(line, IntentPrefix) && StartsWith(line, LanguagePrefix))
  {
    StartsWithFirst(line, IntentPrefix);
    StartsWithFirst(line, LanguagePrefix);
  }

  /**
   * The defaults apply to each field on its own: the intent is "BYPASS"
   * exactly when no intent line carries a non-empty value (or the value is
   * "BYPASS" itself), whatever the language lines say, and vice versa.
   */
  lemma DefaultsIndependent(routeStr: string)
    ensures var lines := SplitLines(routeStr); var i := LastField(lines, IntentPrefix);
      RouteOf(routeStr).intent == (if i.Some? && i.value != "" then i.value else "BYPASS")
    ensures var lines := SplitLines(routeStr); var l := LastField(lines, LanguagePrefix);
      RouteOf(routeStr).language == (if l.Some? && l.value != "" then l.value else "THAI")
    ensures (forall k :: 0 <= k < |SplitLines(routeStr)| ==> !StartsWith(SplitLines(routeStr)[k], IntentPrefix))
      ==> RouteOf(routeStr).intent == "BYPASS"
    ensures (forall k :: 0 <= k < |SplitLines(routeStr)| ==> !StartsWith(SplitLines(routeStr)[k], LanguagePrefix))
      ==> RouteOf(routeStr).language == "THAI"
  {
    LastFieldNone(SplitLines(routeStr), IntentPrefix);
    LastFieldNone(SplitLines(routeStr), LanguagePrefix);
  }

  /** One more line: it sets the field when it starts with the prefix, and changes nothing otherwise. */
  lemma LastFieldStep(lines: seq<string>, i: nat, prefix: string)
    requires prefix != [] && i < |lines|
    ensures LastField(lines[..i + 1], prefix)
      == if StartsWith(lines[i], prefix) then Some(FieldValue(lines[i], prefix)) else LastField(lines[..i], prefix)
  {
    assert lines[..i + 1][..i] == lines[..i];
  }

  /** The parsing loop over the router reply's lines. */
  method ParseRoute(routeStr: string) returns (route: Route)
    ensures route == RouteOf(routeStr)
  {
    var intent: Option<string> := None;
    var language: Option<string> := None;
    var lines := SplitLines(routeStr);
    for i := 0 to |lines|
      invariant intent == LastField(lines[..i], IntentPrefix)
      invariant language == LastField(lines[..i], LanguagePrefix)
    {
      var line := lines[i];
      LastFieldStep(lines, i, IntentPrefix);
      LastFieldStep(lines, i, LanguagePrefix);
      PrefixesExclusive(line);
      if StartsWith(line, IntentPrefix) {
        intent := Some(FieldValue(line, IntentPrefix));
      } else if StartsWith(line, LanguagePrefix) {
        language := Some(FieldValue(line, LanguagePrefix));
      }
    }
    assert lines[..|lines|] == lines;
    route := Route(OrDefault(intent, DefaultIntent), OrDefault(language, DefaultLanguage));
  }

  /** The four ways a turn can go. */
  datatype Path = News | Callcenter | Fundfact | Reply

  /** Only the exact intent strings select a flow; anything else goes to the reply agent. */
  function PathFor(intent: string): (p: Path)
    ensures p == News <==> intent == "NEWS"
    ensures p == Callcenter <==> intent == "CALLCENTER"
    ensures p == Fundfact <==> intent == "FUNDFACT"
    ensures p == Reply <==> intent != "NEWS" && intent != "CALLCENTER" && intent != "FUNDFACT"
  {
    if intent == "NEWS" then News
    else if intent == "CALLCENTER" then Callcenter
    else if intent == "FUNDFACT" then Fundfact
    else Reply
  }

  /** A router reply that says nothing recognisable turns into the reply path in Thai. */
  lemma UnparsedReplyFallsBack(routeStr: string)
    requires forall k :: 0 <= k < |SplitLines(routeStr)| ==> !StartsWith(SplitLines(routeStr)[k], IntentPrefix)
    ensures PathFor(RouteOf(routeStr).intent) == Reply
  {
    DefaultsIndependent(routeStr);
  }

  /**
   * The eleven values the controller unpacks from the news flow (router
   * tokens of the news sub-router in third and fourth place).
   */
  datatype NewsOutcome = NewsOutcome(
    finalResponse: string, thread: Thread,
    subInputTokensRouter: nat, subOutputTokensRouter: nat,
    ragPromptTokens: nat, ragCompletionTokens: nat,
    orchestratorInputTokens: nat, orchestratorOutputTokens: nat,
    keywordInputTokens: nat, keywordOutputTokens: nat,
    hasStreamed: bool)

  /** The token counters a turn reports; `None` for every stage that did not run. */
  datatype Metrics = Metrics(
    ragPromptTokens: Option<nat>, ragCompletionTokens: Option<nat>,
    orchestratorInputTokens: Option<nat>, orchestratorOutputTokens: Option<nat>,
    keywordInputTokens: Option<nat>, keywordOutputTokens: Option<nat>,
    replyInputTokens: Option<nat>, replyOutputTokens: Option<nat>,
    routerInputTokens: Option<nat>, routerOutputTokens: Option<nat>)

  /** The question the reply agent gets when every flow is bypassed. */
  function ReplyPrompt(userQuery: string, language: string): string {
    "Since other agents are bypassed, take the chat history and answer " + userQuery + " in " + language + " accordingly if possible."
  }

  /**
   * The merge of a flow's thread `t`: when there is a main thread and it is
   * not `t`, the main thread keeps its identity and gains `t`'s messages in
   * order; otherwise `t` becomes the main thread and the old one is left alone.
   */
  twostate predicate Merged(mainThread: Thread?, t: Thread, new merged: Thread?)
    reads mainThread
  {
    if mainThread != null && t != mainThread then
      merged == mainThread && mainThread.messages == old(mainThread.messages) + old(t.messages)
    else
      merged == t && (mainThread != null ==> mainThread.messages == old(mainThread.messages))
  }

  /** The merge loop: the flow's messages are appended to the main thread one at a time. */
  method MergeThread(mainThread: Thread?, thread: Thread) returns (merged: Thread)
    modifies mainThread
    ensures Merged(mainThread, thread, merged)
  {
    if mainThread != null && thread != mainThread {
      var i := 0;
      while i < |thread.messages|
        invariant 0 <= i <= |thread.messages|
        invariant thread.messages == old(thread.messages)
        invariant mainThread.messages == old(mainThread.messages) + thread.messages[..i]
      {
        assert thread.messages[..i + 1] == thread.messages[..i] + [thread.messages[i]];
        mainThread.AddMessage(thread.messages[i]);
        i := i + 1;
      }
      assert thread.messages[..i] == thread.messages;
      merged := mainThread;
    } else {
      merged := thread;
    }
  }

  /** The router loop: the last reply, stripped, and its thread. */
  method RunRouter(routerChunks: seq<Chunk>, userThread: Thread?) returns (routeStr: string, thread: Thread?)
    requires routerChunks != []
    ensures routeStr == Strip(routerChunks[|routerChunks| - 1].text)
    ensures thread == routerChunks[|routerChunks| - 1].thread
  {
    routeStr := "";
    thread := userThread;
    for i := 0 to |routerChunks|
      invariant i > 0 ==> routeStr == Strip(routerChunks[i - 1].text) && thread == routerChunks[i - 1].thread
    {
      routeStr := Strip(routerChunks[i].text);
      thread := routerChunks[i].thread;
    }
  }

  /** Which counters a turn sets: the router's always, the reply agent's only on the reply path, the flow stages only when their flow ran. */
  predicate CountersSetFor(m: Metrics, path: Path) {
    && m.routerInputTokens.Some? && m.routerOutputTokens.Some?
    && (m.replyInputTokens.Some? <==> path == Reply) && (m.replyOutputTokens.Some? <==> path == Reply)
    && (m.ragPromptTokens.Some? <==> path != Reply) && (m.ragCompletionTokens.Some? <==> path != Reply)
    && (m.keywordInputTokens.Some? <==> path != Reply) && (m.keywordOutputTokens.Some? <==> path != Reply)
    && (m.orchestratorInputTokens.Some? <==> path == News || path == Fundfact)
    && (m.orchestratorOutputTokens.Some? <==> path == News || path == Fundfact)
  }

  /** The counters after the news flow: its sub-router's input tokens go to the router's count, its output tokens to the orchestrator's. */
  function NewsMetrics(o: NewsOutcome, inRouter: nat, outRouter: nat): (m: Metrics)
    ensures CountersSetFor(m, News)
    ensures m.routerInputTokens == Some(inRouter + o.subInputTokensRouter)
    ensures m.orchestratorOutputTokens == Some(o.orchestratorOutputTokens + o.subOutputTokensRouter)
    ensures m.routerOutputTokens == Some(outRouter)
  {
    Metrics(Some(o.ragPromptTokens), Some(o.ragCompletionTokens),
            Some(o.orchestratorInputTokens), Some(o.orchestratorOutputTokens + o.subOutputTokensRouter),
            Some(o.keywordInputTokens), Some(o.keywordOutputTokens), None, None,
            Some(inRouter + o.subInputTokensRouter), Some(outRouter))
  }

  /** The counters after the call-center flow, which has no orchestrator stage. */
  function CallcenterMetrics(o: CallcenterFlow.FlowResult, inRouter: nat, outRouter: nat): (m: Metrics)
    ensures CountersSetFor(m, Callcenter)
    ensures m.routerInputTokens == Some(inRouter) && m.routerOutputTokens == Some(outRouter)
    ensures m.ragPromptTokens == Some(o.ragPromptTokens) && m.keywordInputTokens == Some(o.keywordInputTokens)
  {
    Metrics(Some(o.ragPromptTokens), Some(o.ragCompletionTokens), None, None,
            Some(o.keywordInputTokens), Some(o.keywordOutputTokens), None, None,
            Some(inRouter), Some(outRouter))
  }

  /** The counters after the fund-fact flow. */
  function FundfactMetrics(o: FundfactFlow.FlowResult, inRouter: nat, outRouter: nat): (m: Metrics)
    ensures CountersSetFor(m, Fundfact)
    ensures m.routerInputTokens == Some(inRouter) && m.routerOutputTokens == Some(outRouter)
    ensures m.orchestratorOutputTokens == Some(o.orchestratorOutputTokens)
  {
    Metrics(Some(o.ragPromptTokens), Some(o.ragCompletionTokens),
            Some(o.orchestratorInputTokens), Some(o.orchestratorOutputTokens),
            Some(o.keywordInputTokens), Some(o.keywordOutputTokens), None, None,
            Some(inRouter), Some(outRouter))
  }

  /** The counters after the reply agent: only the router's and its own. */
  function ReplyMetrics(inReply: nat, outReply: nat, inRouter: nat, outRouter: nat): (m: Metrics)
    ensures CountersSetFor(m, Reply)
    ensures m.replyInputTokens == Some(inReply) && m.replyOutputTokens == Some(outReply)
    ensures m.routerInputTokens == Some(inRouter) && m.routerOutputTokens == Some(outRouter)
  {
    Metrics(None, None, None, None, None, None, Some(inReply), Some(outReply), Some(inRouter), Some(outRouter))
  }

  /** What a turn decided on the way: the stripped router reply, its route and path, the flow's thread, the reply stream shown. */
  datatype Trace = Trace(routeStr: string, route: Route, path: Path, flowThread: Option<Thread>, shown: seq<string>)

  /**
   * The reply-agent fallback: the streamed chunks are concatenated and
   * shown as they come, the main thread becomes the last chunk's thread,
   * and the reply counters are taken on the prompt and the full answer.
   */
  method RunReply(userQuery: string, language: string, mainThread: Thread?, replyChunks: seq<Chunk>,
                  count41: string -> nat, inRouter: nat, outRouter: nat)
    returns (finalResponse: string, mainThread': Thread?, metrics: Metrics, hasStreamed: bool, shown: seq<string>)
    ensures finalResponse == Concat(Texts(replyChunks))
    ensures |shown| == |replyChunks|
    ensures forall i :: 0 <= i < |replyChunks| ==> shown[i] == Concat(Texts(replyChunks[..i + 1]))
    ensures mainThread' == (if replyChunks == [] then mainThread else replyChunks[|replyChunks| - 1].thread)
    ensures hasStreamed <==> replyChunks != []
    ensures metrics == ReplyMetrics(count41(ReplyPrompt(userQuery, language)), count41(finalResponse), inRouter, outRouter)
  {
    var prompt := ReplyPrompt(userQuery, language);
    var inReply := count41(prompt);
    finalResponse, shown, mainThread', hasStreamed := Accumulate(replyChunks, mainThread);
    metrics := ReplyMetrics(inReply, count41(finalResponse), inRouter, outRouter);
  }

  /**
   * The branch a turn takes once the route is known: one of the three flows
   * followed by the thread merge, or the streamed reply agent.
   */
  method RunPath(
    path: Path, userQuery: string, language: string, mainThread: Thread?,
    news: NewsOutcome, callcenter: CallcenterFlow.FlowResult, fundfact: FundfactFlow.FlowResult,
    replyChunks: seq<Chunk>, count41: string -> nat, inRouter: nat, outRouter: nat)
    returns (finalResponse: string, mainThread': Thread?, metrics: Metrics, hasStreamed: bool, flowThread: Option<Thread>, shown: seq<string>)
    modifies mainThread
    ensures path == News ==>
      var o := news;
      && finalResponse == o.finalResponse && hasStreamed == o.hasStreamed
      && metrics == NewsMetrics(o, inRouter, outRouter)
      && flowThread == Some(o.thread)
    ensures path == Callcenter ==>
      var o := callcenter;
      && finalResponse == o.finalResponse && hasStreamed == o.hasStreamed
      && metrics == CallcenterMetrics(o, inRouter, outRouter)
      && flowThread == Some(o.mainThread)
    ensures path == Fundfact ==>
      var o := fundfact;
      && finalResponse == o.finalResponse && hasStreamed == o.hasStreamed
      && metrics == FundfactMetrics(o, inRouter, outRouter)
      && flowThread == Some(o.mainThread)
    ensures path != Reply ==> flowThread.Some? && Merged(mainThread, flowThread.value, mainThread')
    ensures path == Reply ==>
      && flowThread == None
      && finalResponse == Concat(Texts(replyChunks))
      && |shown| == |replyChunks|
      && (forall i :: 0 <= i < |replyChunks| ==> shown[i] == Concat(Texts(replyChunks[..i + 1])))
      && mainThread' == (if replyChunks == [] then mainThread else replyChunks[|replyChunks| - 1].thread)
      && (hasStreamed <==> replyChunks != [])
      && metrics == ReplyMetrics(count41(ReplyPrompt(userQuery, language)), count41(finalResponse), inRouter, outRouter)
  {
    flowThread := None;
    shown := [];
    if path == Reply {
      finalResponse, mainThread', metrics, hasStreamed, shown := RunReply(userQuery, language, mainThread, replyChunks, count41, inRouter, outRouter);
    } else {
      var t: Thread;
      if path == News {
        finalResponse, hasStreamed, metrics, t := news.finalResponse, news.hasStreamed, NewsMetrics(news, inRouter, outRouter), news.thread;
      } else if path == Callcenter {
        finalResponse, hasStreamed, metrics, t :=
          callcenter.finalResponse, callcenter.hasStreamed, CallcenterMetrics(callcenter, inRouter, outRouter), callcenter.mainThread;
      } else {
        finalResponse, hasStreamed, metrics, t :=
          fundfact.finalResponse, fundfact.hasStreamed, FundfactMetrics(fundfact, inRouter, outRouter), fundfact.mainThread;
      }
      flowThread := Some(t);
      mainThread' := MergeThread(mainThread, t);
    }
  }

  /**
   * `get_agent_response`. The router's chunks, what each flow returns
   * when called with the new user thread and the parsed language, and the
   * reply agent's chunks come from outside; `count41` is the gpt-4.1
   * tokenizer. An empty router stream leaves the reply unbound in the
   * source, so the router is required to yield something.
   */
  method GetAgentResponse(
    userQuery: string, chatHistory: Thread, mainThread: Thread?, userThread: Thread?,
    routerChunks: seq<Chunk>,
    news: NewsOutcome, callcenter: CallcenterFlow.FlowResult, fundfact: FundfactFlow.FlowResult,
    replyChunks: seq<Chunk>, count41: string -> nat)
    returns (finalResponse: string, mainThread': Thread?, userThread': Thread?, metrics: Metrics, hasStreamed: bool, trace: Trace)
    requires routerChunks != []
    requires chatHistory != mainThread
    modifies chatHistory, mainThread
    ensures trace.routeStr == Strip(routerChunks[|routerChunks| - 1].text)
    ensures userThread' == routerChunks[|routerChunks| - 1].thread
    ensures trace.route == RouteOf(trace.routeStr)
    ensures trace.path == PathFor(trace.route.intent)
    ensures chatHistory.messages == old(chatHistory.messages) + [Message(UserRole, userQuery)] + [Message(AssistantRole, finalResponse)]
    ensures CountersSetFor(metrics, trace.path)
    ensures trace.path == News ==>
      var o := news;
      && finalResponse == o.finalResponse && hasStreamed == o.hasStreamed
      && metrics == NewsMetrics(o, count41(userQuery), count41(trace.routeStr))
      && trace.flowThread == Some(o.thread)
    ensures trace.path == Callcenter ==>
      var o := callcenter;
      && finalResponse == o.finalResponse && hasStreamed == o.hasStreamed
      && metrics == CallcenterMetrics(o, count41(userQuery), count41(trace.routeStr))
      && trace.flowThread == Some(o.mainThread)
    ensures trace.path == Fundfact ==>
      var o := fundfact;
      && finalResponse == o.finalResponse && hasStreamed == o.hasStreamed
      && metrics == FundfactMetrics(o, count41(userQuery), count41(trace.routeStr))
      && trace.flowThread == Some(o.mainThread)
    ensures trace.path != Reply ==> trace.flowThread.Some? && Merged(mainThread, trace.flowThread.value, mainThread')
    ensures trace.path == Reply ==>
      && trace.flowThread == None
      && finalResponse == Concat(Texts(replyChunks))
      && |trace.shown| == |replyChunks|
      && (forall i :: 0 <= i < |replyChunks| ==> trace.shown[i] == Concat(Texts(replyChunks[..i + 1])))
      && mainThread' == (if replyChunks == [] then mainThread else replyChunks[|replyChunks| - 1].thread)
      && (hasStreamed <==> replyChunks != [])
      && metrics == ReplyMetrics(count41(ReplyPrompt(userQuery, trace.route.language)), count41(finalResponse),
                                 count41(userQuery), count41(trace.routeStr))
  {
    var routeStr;
    routeStr, userThread' := RunRouter(routerChunks, userThread);
    var route := ParseRoute(routeStr);
    var path := PathFor(route.intent);
    var flowThread, shown;
    finalResponse, mainThread', metrics, hasStreamed, flowThread, shown :=
      RunPath(path, userQuery, route.language, mainThread, news, callcenter, fundfact,
              replyChunks, count41, count41(userQuery), count41(routeStr));
    RecordTurn(chatHistory, userQuery, finalResponse);
    trace := Trace(routeStr, route, path, flowThread, shown);
  }

  /** The two history appends that end every turn: the user query, then the answer. */
  method RecordTurn(chatHistory: Thread, userQuery: string, finalResponse: string)
    modifies chatHistory
    ensures chatHistory.messages == old(chatHistory.messages) + [Message(UserRole, userQuery)] + [Message(AssistantRole, finalResponse)]
  {
    chatHistory.AddUserMessage(userQuery);
    chatHistory.AddAssistantMessage(finalResponse);
  }
}
