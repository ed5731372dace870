/**
 * The single-file chat app: per family, three searches and one chat
 * completion over the system prompt, the recent history and the question;
 * then one completion that merges the three family answers.
 */
module StandaloneApp {
  import opened Wrappers
  import opened Documents
  import opened Conversation
  import opened MultimodalSearch
  import opened Prompts

  /** The vector part of every query asks for 6 neighbours, whatever the result cap. */
  const VectorNeighbours: nat := 6

  /**
   * `search_query`: one hybrid query (6 neighbours, cap `topK`), and one
   * record per hit appended in the service's order, with the same sentinels
   * as the search plugin.
   */
  method SearchQuery(index: Index, userQuery: string, select: seq<string>, topK: nat, filter: Option<string>, results: seq<Doc>)
    returns (query: BackendQuery, retrieved: seq<PageRecord>)
    ensures query == BackendQuery(index, userQuery, 6, topK, select, filter)
    ensures |retrieved| == |results|
    ensures forall i :: 0 <= i < |results| ==> retrieved[i] == ToPageRecord(results[i])
  {
    query := BackendQuery(index, userQuery, VectorNeighbours, topK, select, filter);
    retrieved := [];
    var i := 0;
    while i < |results|
      invariant 0 <= i <= |results|
      invariant |retrieved| == i
      invariant forall k :: 0 <= k < i ==> retrieved[k] == ToPageRecord(results[k])
    {
      retrieved := retrieved + [ToPageRecord(results[i])];
      i := i + 1;
    }
  }

  /**
   * The message list of a completion: the system prompt, then the history
   * (none when it is `None` or empty), then one user message.
   */
  method ComposeMessages(systemPrompt: string, history: Option<seq<Message>>, userContent: string) returns (messages: seq<Message>)
    ensures |messages| == |history.GetOr([])| + 2
    ensures messages[0] == Message(SystemRole, systemPrompt)
    ensures messages[1..|messages| - 1] == history.GetOr([])
    ensures messages[|messages| - 1] == Message(UserRole, userContent)
  {
    var h := if history.Some? then history.value else [];
    messages := [Message(SystemRole, systemPrompt)];
    if h != [] {
      messages := messages + h;
    }
    messages := messages + [Message(UserRole, userContent)];
  }

  /** What one family's completion gets back from outside: the hits of the three searches and the completion text. */
  datatype FamilyInputs = FamilyInputs(textResults: seq<Doc>, tableResults: seq<Doc>, imageResults: seq<Doc>, completion: string)

  /** The family question (fixed wording abbreviated): three JSON contexts, then the question. */
  const SearchTemplate: seq<string> :=
    ["Use the following JSON context to answer the question:\n\nContext text data:\n",
     "\n\nContext table data:\n", "\n\nContext image data:\n", "\n\nQuestion: ", "\n"]

  /** The messages of one family completion: system prompt, history, and the question with its three contexts. */
  function SearchMessages(systemPrompt: string, history: seq<Message>, userQuery: string,
                          family: FamilyInputs, render: seq<PageRecord> -> string): seq<Message>
  {
    [Message(SystemRole, systemPrompt)] + history
      + [Message(UserRole, Fill(SearchTemplate, [render(Normalise(family.textResults)), render(Normalise(family.tableResults)),
                                                 render(Normalise(family.imageResults)), userQuery]))]
  }

  /** The budget of each of the three family searches. */
  const FamilyTopK: nat := 4

  /**
   * `chat_with_search_agent`: text, table and image searches with budget 4
   * and the same filter, the contexts rendered as JSON by `render`, and one
   * completion over system prompt, history and question.
   */
  method ChatWithSearchAgent(
    userQuery: string, systemPrompt: string, filter: Option<string>, history: Option<seq<Message>>,
    family: FamilyInputs, render: seq<PageRecord> -> string)
    returns (reply: string, queries: seq<BackendQuery>, messages: seq<Message>)
    ensures queries == [BackendQuery(TextIndex, userQuery, 6, 4, ["content", "page", "doc_name"], filter),
                        BackendQuery(TableIndex, userQuery, 6, 4, ["content", "page", "table", "doc_name"], filter),
                        BackendQuery(ImageIndex, userQuery, 6, 4, ["content", "page", "doc_name", "figure"], filter)]
    ensures messages == SearchMessages(systemPrompt, history.GetOr([]), userQuery, family, render)
    ensures reply == family.completion
  {
    var q1, context := SearchQuery(TextIndex, userQuery, ["content", "page", "doc_name"], FamilyTopK, filter, family.textResults);
    var q2, contextTable := SearchQuery(TableIndex, userQuery, ["content", "page", "table", "doc_name"], FamilyTopK, filter, family.tableResults);
    var q3, contextImage := SearchQuery(ImageIndex, userQuery, ["content", "page", "doc_name", "figure"], FamilyTopK, filter, family.imageResults);
    queries := [q1, q2, q3];
    assert context == Normalise(family.textResults);
    assert contextTable == Normalise(family.tableResults);
    assert contextImage == Normalise(family.imageResults);
    var content := Fill(SearchTemplate, [render(context), render(contextTable), render(contextImage), userQuery]);
    messages := ComposeMessages(systemPrompt, history, content);
    assert messages == [messages[0]] + messages[1..|messages| - 1] + [messages[|messages| - 1]];
    reply := family.completion;
  }

  /** The merging question (fixed wording abbreviated): the query and the three family answers in order. */
  const OrchestratorTemplate: seq<string> :=
    ["\nYou are a senior analyst. Three junior agents (Monthly Standpoint, KTM, KCMA) have each answered the question \"",
     "\" based on their own context. Synthesize their answers, in Thai.\n\nAnswer from Monthly Standpoint:\n",
     "\n\nAnswer from KTM:\n", "\n\nAnswer from KCMA:\n",
     "\n\nPlease provide a complete, well-structured response based on all 3 sources.\n"]

  const OrchestratorSystemPrompt: string := "You are a helpful and expert financial assistant."

  /** `chat_with_ochestrator_agent`: the fixed system prompt, the history if any, and the three answers in argument order. */
  method ChatWithOrchestratorAgent(userQuery: string, monthlyReply: string, ktmReply: string, kcmaReply: string,
                                    history: Option<seq<Message>>, completion: string)
    returns (reply: string, messages: seq<Message>)
    ensures messages == [Message(SystemRole, OrchestratorSystemPrompt)] + history.GetOr([])
      + [Message(UserRole, Fill(OrchestratorTemplate, [userQuery, monthlyReply, ktmReply, kcmaReply]))]
    ensures reply == completion
  {
    messages := ComposeMessages(OrchestratorSystemPrompt, history, Fill(OrchestratorTemplate, [userQuery, monthlyReply, ktmReply, kcmaReply]));
    assert messages == [messages[0]] + messages[1..|messages| - 1] + [messages[|messages| - 1]];
    reply := completion;
  }

  /** A message the family agents may see as history. */
  predicate IsConversational(m: Message) {
    m.role == UserRole || m.role == AssistantRole
  }

  /** The user and assistant messages of `h`, in order. */
  function Conversational(h: seq<Message>): seq<Message>
    decreases |h|
  {
    if h == [] then []
    else Conversational(h[..|h| - 1]) + (if IsConversational(h[|h| - 1]) then [h[|h| - 1]] else [])
  }

  /** Exactly the user and assistant messages of `h` survive the filter. */
  lemma {:induction false} ConversationalMembers(h: seq<Message>, m: Message)
    ensures m in Conversational(h) <==> m in h && IsConversational(m)
    decreases |h|
  {
    if h != [] {
      ConversationalMembers(h[..|h| - 1], m);
      assert h == h[..|h| - 1] + [h[|h| - 1]];
    }
  }

  /** The filter keeps the original order: it distributes over concatenation. */
  lemma {:induction false} ConversationalAppend(a: seq<Message>, b: seq<Message>)
    ensures Conversational(a + b) == Conversational(a) + Conversational(b)
    decreases |b|
  {
    if b == [] {
      assert a + b == a;
    } else {
      var b' := b[..|b| - 1];
      assert (a + b)[..|a + b| - 1] == a + b';
      assert (a + b)[|a + b| - 1] == b[|b| - 1];
      ConversationalAppend(a, b');
    }
  }

  /** How many messages of history are kept. */
  const MaxHistory: nat := 6

  /** `[msg for msg in history if msg["role"] in {"user", "assistant"}][-6:]`. */
  function TruncatedHistory(h: seq<Message>): (r: seq<Message>)
    ensures var c := Conversational(h);
      |r| == (if |c| < 6 then |c| else 6) && r == c[|c| - |r|..]
  {
    var c := Conversational(h);
    if |c| <= MaxHistory then c else c[|c| - MaxHistory..]
  }

  /** Every kept message is a user or assistant message of the history. */
  lemma TruncatedFromHistory(h: seq<Message>, m: Message)
    requires m in TruncatedHistory(h)
    ensures m in h && IsConversational(m)
  {
    var c := Conversational(h);
    assert m in c;
    ConversationalMembers(h, m);
  }

  /**
   * The user query is appended before the history is cut, so the last
   * message the family agents see as history is the current question.
   */
  lemma TruncatedEndsWithQuery(h: seq<Message>, userQuery: string)
    ensures var r := TruncatedHistory(h + [Message(UserRole, userQuery)]);
      r != [] && r[|r| - 1] == Message(UserRole, userQuery)
  {
    var q := Message(UserRole, userQuery);
    ConversationalAppend(h, [q]);
    assert [q][..0] == [];
    assert Conversational([q]) == [q];
  }

  /**
   * The three family completions over the same truncated history, with the
   * Monthly Standpoint, KTM and KCMA filters, in that order.
   */
  method AskFamilies(userQuery: string, systemPrompt: string, history: seq<Message>,
                     monthly: FamilyInputs, ktm: FamilyInputs, kcma: FamilyInputs, render: seq<PageRecord> -> string)
    returns (monthlyReply: string, ktmReply: string, kcmaReply: string, familyMessages: seq<seq<Message>>)
    ensures monthlyReply == monthly.completion && ktmReply == ktm.completion && kcmaReply == kcma.completion
    ensures familyMessages == [SearchMessages(systemPrompt, history, userQuery, monthly, render),
                               SearchMessages(systemPrompt, history, userQuery, ktm, render),
                               SearchMessages(systemPrompt, history, userQuery, kcma, render)]
  {
    var msgs1, msgs2, msgs3, q1, q2, q3;
    monthlyReply, q1, msgs1 := ChatWithSearchAgent(userQuery, systemPrompt, Some(MonthlyStandpointFilter), Some(history), monthly, render);
    ktmReply, q2, msgs2 := ChatWithSearchAgent(userQuery, systemPrompt, Some(KtmFilter), Some(history), ktm, render);
    kcmaReply, q3, msgs3 := ChatWithSearchAgent(userQuery, systemPrompt, Some(KcmaFilter), Some(history), kcma, render);
    familyMessages := [msgs1, msgs2, msgs3];
  }

  /** The app's session: the list of chat messages shown and kept across turns. */
  class Session {
    var chatHistory: seq<Message>

    constructor ()
      ensures chatHistory == []
    {
      chatHistory := [];
    }

    /**
     * One turn of the app: the query is appended to the history, the three
     * families (Monthly Standpoint, KTM, KCMA) are asked with the truncated
     * history, their answers go to the merging completion in that order, and
     * its answer is appended after the query. The app runs a turn only for
     * a submitted, non-empty query (`main.py:216`); an empty input leaves the
     * session untouched, so that case has no method here.
     */
    method HandleQuery(userQuery: string, systemPrompt: string,
                       monthly: FamilyInputs, ktm: FamilyInputs, kcma: FamilyInputs,
                       orchestratorCompletion: string, render: seq<PageRecord> -> string)
      returns (reply: string, familyMessages: seq<seq<Message>>, orchestratorMessages: seq<Message>)
      modifies this
      ensures chatHistory == old(chatHistory) + [Message(UserRole, userQuery)] + [Message(AssistantRole, reply)]
      ensures reply == orchestratorCompletion
      ensures var h := TruncatedHistory(old(chatHistory) + [Message(UserRole, userQuery)]);
        familyMessages == [SearchMessages(systemPrompt, h, userQuery, monthly, render),
                           SearchMessages(systemPrompt, h, userQuery, ktm, render),
                           SearchMessages(systemPrompt, h, userQuery, kcma, render)]
      ensures orchestratorMessages == [Message(SystemRole, OrchestratorSystemPrompt),
        Message(UserRole, Fill(OrchestratorTemplate, [userQuery, monthly.completion, ktm.completion, kcma.completion]))]
    {
      var withQuery := chatHistory + [Message(UserRole, userQuery)];
      chatHistory := withQuery;
      var truncated := TruncatedHistory(withQuery);
      var m1, m2, m3;
      m1, m2, m3, familyMessages := AskFamilies(userQuery, systemPrompt, truncated, monthly, ktm, kcma, render);
      var none: Option<seq<Message>> := None;
      assert none.GetOr([]) == [];
      reply, orchestratorMessages := ChatWithOrchestratorAgent(userQuery, m1, m2, m3, none, orchestratorCompletion);
      chatHistory := chatHistory + [Message(AssistantRole, reply)];
    }
  }
}
