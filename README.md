# Multi-agent RAG chatbot: the deterministic core

This project models the deterministic core of a multi-agent
retrieval-augmented chatbot for fund and market questions:

- **Turn controller.** A router agent labels each user turn with an intent
  and a language. The controller parses that label, dispatches the turn to
  the news, call-center or fund-fact pipeline (or to a generic reply agent),
  merges the pipeline's conversation thread into the main thread, appends the
  turn to the chat history and keeps per-stage token counters.
- **Pipelines.** Each pipeline extracts search keywords, fans out retrieval
  tasks over document families with fixed result budgets, then fans in: the
  last response of a retrieval agent wins, streamed answers are concatenated,
  token counts are summed, and drafts fill a synthesis prompt in a fixed
  order.
- **Search plugins.** Raw search hits are normalised into records, with
  sentinel values for missing fields.
- **Identifier caches.** Two file-backed name-to-id stores.
- **Spreadsheet-agent assistant.** Its file-id reuse policy, update payload
  and create-or-reuse decision.
- **Older versions.** The earlier standalone application (history truncation
  and a three-family fan-out) and the earlier orchestration module.

Every hosted service is a parameter of the model:

- A language-model agent is the sequence of responses or chunks it yields.
- A search is the documents or JSON context it returns.
- The tokenizer is a function `string -> nat`.
- JSON rendering of records is a function `seq<PageRecord> -> string`.
- A failed service call is a boolean input.

Objects the source updates in place are classes:

- a conversation `Thread` and its message list;
- the two id stores;
- the standalone application's `Session`.

Everything else is datatypes and functions.

Modules, by source file:

| module | source |
|---|---|
| `PyStrings` | Python `str.strip`, `splitlines`, `startswith`, `endswith`, `split(sep)[1]` |
| `Conversation` | conversation threads and streamed chunks |
| `FanIn` | last-wins, concatenation with display of the text so far, sums |
| `Prompts` | f-string prompts as literals and holes; where each hole lands |
| `Keywords` | the keyword stage all pipelines share |
| `Documents`, `MultimodalSearch`, `TextSearch` | `agents/mm_rag_agent.py`, `agents/txt_rag_agent.py` |
| `NewsFlow`, `CallcenterFlow`, `FundfactFlow` | `promptflow_logics/*.py` |
| `LegacyFlow` | `agents_logic.py` |
| `StandaloneApp` | `main.py` |
| `IdCache` | `agents/save_and_load_azure_assistant_agent.py` |
| `CoderAgent` | `agents/fundfact_coder_rag_agent.py` |
| `Controller` | `main_agents_logic.py` |

Where the controller and the news pipeline disagree, the model follows the
controller:

- `main_agents_logic.py:85-97` passes eleven arguments to
  `get_news_agent_response` and unpacks eleven results, including the
  sub-router's two token counts.
- `promptflow_logics/news_agents_logic.py:53` declares nine parameters, and
  lines 124-134 return nine values.

As written, the NEWS call therefore raises a `TypeError` at
`main_agents_logic.py:92-97`: the news pipeline never runs and the
bookkeeping at lines 98-99 is never reached. The model does not capture that
failure. The controller takes the eleven values it would unpack
(`Controller.NewsOutcome`). `NewsFlow` models the pipeline as written.

Likewise, both retrieval helpers call the multimodal wrappers with a `top_k`
keyword argument:

- `promptflow_logics/news_agents_logic.py:20-22`;
- `agents_logic.py:7-9`.

The wrappers at `agents/mm_rag_agent.py:86-96` declare no such parameter.
As written, each of these calls raises a `TypeError` before any backend query
is sent. The model does not reproduce that failure:

- `NewsFlow` and `LegacyFlow` record the budgets the helpers request
  (`SearchCall`);
- `MultimodalSearch` records what the wrappers send when called with the
  arguments they do accept: the default budget of 10 (`BackendQuery`).

## Model

| member | source | states |
|---|---|---|
| PyStrings.StripLeft | main_agents_logic.py:51 | the result is a suffix of the input; every dropped character is whitespace; the result does not start with whitespace |
| PyStrings.StripRight | main_agents_logic.py:51 | the result is a prefix of the input; every dropped character is whitespace; the result does not end with whitespace |
| PyStrings.Strip | main_agents_logic.py:51 | the result is a slice `s[i..j]` of the input with only whitespace before `i` and from `j` on, and it neither starts nor ends with whitespace, which fixes it uniquely as `str.strip()` does |
| PyStrings.StripEnds | main_agents_logic.py:51 | the stripped text neither starts nor ends with whitespace |
| PyStrings.StripCuts | main_agents_logic.py:51 | the stripped text is the slice between the leading and the trailing whitespace |
| PyStrings.BeforeFirst | main_agents_logic.py:59 | the result is the longest prefix before the first occurrence of the separator (or the whole text when there is none) |
| PyStrings.FirstBreak | main_agents_logic.py:57 | the index of the first line break, with no line break before it |
| PyStrings.SplitLines | main_agents_logic.py:57 | no line contains a line break; the text is empty iff there are no lines |
| PyStrings.SplitLinesOneLine | main_agents_logic.py:57 | a non-empty text without line breaks is exactly one line |
| PyStrings.SplitLinesCons | main_agents_logic.py:57 | a text starting with a line and a "\n" or "\r\n" terminator splits into that line, then the lines of the rest |
| PyStrings.SplitLinesJoin | main_agents_logic.py:57 | round trip against an independent join: break-free lines, each followed by "\n" (or each by "\r\n"), plus an optional unterminated last line, split back into exactly those lines, in order |
| Conversation.Thread.constructor | main_agents_logic.py:104-105 | a thread starts with the given messages |
| Conversation.Thread.AddMessage | main_agents_logic.py:105 | appends exactly one message at the end |
| Conversation.Thread.AddUserMessage | main_agents_logic.py:186 | appends exactly one user message with the given content |
| Conversation.Thread.AddAssistantMessage | main_agents_logic.py:187 | appends exactly one assistant message with the given content |
| Conversation.Texts | promptflow_logics/callcenter_agents_logic.py:52-57 | one text per chunk, in stream order |
| FanIn.ConcatAppend | promptflow_logics/news_agents_logic.py:114-119 | concatenating a stream split in two is the concatenation of the parts |
| FanIn.ShownIsPrefix | promptflow_logics/news_agents_logic.py:114-119 | the text shown after chunk i is a prefix of the text shown after any later chunk |
| FanIn.StreamingExample | promptflow_logics/news_agents_logic.py:114-119 | a worked example, not a general property (that is `FanIn.Accumulate`): streaming "A", "B", "C" shows "A", "AB", "ABC" |
| FanIn.KeepLast | promptflow_logics/news_agents_logic.py:43-45 | the loop that overwrites a variable with each response leaves the last response, or the initial value when there is none |
| FanIn.Accumulate | promptflow_logics/news_agents_logic.py:114-122 | the final text is the in-order concatenation of the chunks; after chunk i the shown text is the concatenation of chunks 0..i; the thread is the last chunk's; streamed iff there was a chunk |
| FanIn.SumSmall | promptflow_logics/news_agents_logic.py:83-84 | the sum over a list of two or three per-family counts is their arithmetic sum |
| Prompts.FillSplit | promptflow_logics/news_agents_logic.py:90-107 | a filled template splits at any hole into the part before, the literal, the hole's value and the rest |
| Prompts.FillSlot | promptflow_logics/news_agents_logic.py:90-107 | each hole's value sits in the prompt at its offset, directly after its literal |
| Prompts.OffsetsIncrease | promptflow_logics/news_agents_logic.py:90-107 | hole k+1 starts after hole k and the literal between them |
| Prompts.FillSection | promptflow_logics/news_agents_logic.py:90-107 | each hole's value appears under its own heading |
| Keywords.ExtractKeywords | promptflow_logics/news_agents_logic.py:55-67 | the keywords are the last keyword response, else the raw query; input tokens are counted on "Extract keywords from this query: " + query, output tokens on the keywords |
| Documents.Get | agents/mm_rag_agent.py:78-82 | `dict.get`: the stored value when the key is present (even a null one), the default when it is absent |
| MultimodalSearch.RecordRoundTrip | agents/mm_rag_agent.py:76-84 | reading a record back as a hit gives the same record: normalisation loses nothing of a record |
| MultimodalSearch.Sentinels | agents/mm_rag_agent.py:78-82 | missing page, table and figure become "N/A"; a missing doc_name becomes "unknown.txt" (exposed as the filename); missing content becomes ""; present fields are copied |
| MultimodalSearch.Normalise | agents/mm_rag_agent.py:76-84 | one record per hit, in hit order |
| MultimodalSearch.Search | agents/mm_rag_agent.py:66-84 | the query text is both the lexical and the vector query; the neighbour count and the result cap both equal top_k; the selection and the filter are forwarded |
| MultimodalSearch.WrapperQueries | agents/mm_rag_agent.py:86-96 | the text, table and image wrappers search their own index with budget 10 and select content, page and doc_name, adding table or figure respectively |
| MultimodalSearch.TextHitsHaveNoTableOrFigure | agents/mm_rag_agent.py:76-84 | a hit holding only text-selected fields gets "N/A" for both table and figure |
| TextSearch.ToTextRecord | agents/txt_rag_agent.py:66-70 | a record keeps only id and content, each "" when missing |
| TextSearch.Normalise | agents/txt_rag_agent.py:66-70 | one record per hit, in hit order |
| TextSearch.RecordRoundTrip | agents/txt_rag_agent.py:66-70 | reading a record back as a hit gives the same record |
| TextSearch.Search | agents/txt_rag_agent.py:56-70 | the neighbour count and the result cap both equal top_k; the selection and the filter are forwarded |
| TextSearch.SearchTextContent | agents/txt_rag_agent.py:72-74 | forwards the filter and the budget; selects exactly content and id |
| TextSearch.Instructions | agents/txt_rag_agent.py:102 | the instructions are the catalog entry `agent_name + "_prompt"`, or "" when it is absent |
| NewsFlow.RunMmragAgent | promptflow_logics/news_agents_logic.py:18-49 | three searches on the keywords with the family filter: text with the family budget, tables with 5, images with 4; the draft is the last response or ""; tokens are counted on the prompt and on the draft |
| NewsFlow.DraftsInFamilyOrder | promptflow_logics/news_agents_logic.py:90-107 | the synthesis prompt holds the Monthly Standpoint, KTM and KCMA drafts in that order, each under its heading, without overlap |
| NewsFlow.GetNewsAgentResponse | promptflow_logics/news_agents_logic.py:53-134 | the keywords are the last keyword response, else the query; they drive nine searches with filters monthlystandpoint, ktm, kcma and text budgets 10, 20, 40; the drafts are positional; the rag token totals are the sums of the three families; the answer is the concatenated stream; the shown text after every chunk is the text so far; the thread is the last chunk's |
| CallcenterFlow.PromptSections | promptflow_logics/callcenter_agents_logic.py:40-46 | the prompt carries the language, then the context, then the question, each under its heading |
| CallcenterFlow.GetCallcenterAgentResponse | promptflow_logics/callcenter_agents_logic.py:22-70 | keyword last-wins; exactly one unfiltered text search with budget 10 on the keywords; rag prompt tokens counted on the prompt; the answer is the concatenated stream with completion tokens counted on it; the thread is the last chunk's |
| FundfactFlow.ContentTextAppend | promptflow_logics/fundfact_agents_logic.py:53-56 | collecting message contents distributes over concatenation of message sequences |
| FundfactFlow.ContentTextOfContents | promptflow_logics/fundfact_agents_logic.py:53-56 | when every message has content, the collected text is all the contents concatenated in order |
| FundfactFlow.RunAgent | promptflow_logics/fundfact_agents_logic.py:28-63 | with a search tool: one unfiltered text search with budget 50, the last response wins and input tokens are counted on the prompt; without: the non-empty contents are concatenated and input tokens are counted on the raw query; the answer is stripped, output tokens are counted on the unstripped text |
| FundfactFlow.CollectContents | promptflow_logics/fundfact_agents_logic.py:53-56 | the no-tool loop appends exactly the present, non-empty message contents, in order |
| FundfactFlow.AnswersInOrder | promptflow_logics/fundfact_agents_logic.py:103-112 | the text-document answer comes before the spreadsheet answer, each under its heading |
| FundfactFlow.GetFundfactAgentResponse | promptflow_logics/fundfact_agents_logic.py:66-141 | keyword last-wins; one text search with budget 50; rag token totals are the sums over the text agent's and the spreadsheet agent's counts, in that order; both stripped answers fill the synthesis prompt in that order; the answer is the concatenated stream; nothing is shown without a container; the thread is the last chunk's |
| LegacyFlow.RunMmragAgent | agents_logic.py:5-32 | text, table and image searches on the raw query, all with the family filter and the one shared budget; the draft is the last response or "" |
| LegacyFlow.AnswersInFamilyOrder | agents_logic.py:43-55 | the three answers appear in the order monthlystandpoint, KTM, KCMA, each under its heading |
| LegacyFlow.GetAgentResponse | agents_logic.py:36-64 | budgets 5, 10, 20 for the three families in argument order; the answer is the last synthesis response (or ""); the thread is that response's, or the given one when there is none |
| StandaloneApp.SearchQuery | main.py:38-60 | the vector neighbour count is fixed at 6 whatever top_k is; one record per hit, in order, with the sentinel defaults |
| StandaloneApp.ComposeMessages | main.py:66-67 | the system prompt comes first, then the history (none counts as empty), then the one user message |
| StandaloneApp.ChatWithSearchAgent | main.py:64-113 | text, table and image searches, each with budget 4, vector count 6 and the same filter; the completion's messages are system prompt, history and question; the reply is the completion |
| StandaloneApp.ChatWithOrchestratorAgent | main.py:116-145 | the messages are the orchestrator system prompt, the history and one user message holding the three replies in argument order |
| StandaloneApp.ConversationalMembers | main.py:225-228 | a message survives the role filter iff it is in the history with role user or assistant |
| StandaloneApp.ConversationalAppend | main.py:225-228 | the role filter keeps the original order across concatenation |
| StandaloneApp.TruncatedHistory | main.py:225-228 | keeps min(6, n) messages, and they are the last ones of the filtered history |
| StandaloneApp.TruncatedFromHistory | main.py:225-228 | every kept message is a user or assistant message of the history |
| StandaloneApp.TruncatedEndsWithQuery | main.py:217-228 | the user query is appended before the cut, so the last history message the families see is the current question |
| StandaloneApp.AskFamilies | main.py:230-234 | three completions with filters monthlystandpoint, ktm and kcma on the same truncated history; the replies are positional |
| StandaloneApp.Session.constructor | main.py:204-205 | a session starts with an empty chat history |
| StandaloneApp.Session.HandleQuery | main.py:215-242 | the history gains the user query, then the assistant reply; the families see the truncated history including the query; the orchestrator gets the three replies |
| IdCache.Saved | agents/save_and_load_azure_assistant_agent.py:10-21 | after a save the store exists and maps the name to the id; every other name keeps its entry, and none exists if the store was absent |
| IdCache.Loaded | agents/save_and_load_azure_assistant_agent.py:24-30 | a load is a value iff the store exists and holds the name, and then it is the stored id |
| IdCache.LoadAfterSave | agents/save_and_load_azure_assistant_agent.py:10-30 | loading a name just saved returns the saved id |
| IdCache.SaveKeepsOthers | agents/save_and_load_azure_assistant_agent.py:12-21 | a save does not change what any other name loads |
| IdCache.LastSaveWins | agents/save_and_load_azure_assistant_agent.py:18 | saving one name twice equals saving only the second id |
| IdCache.SaveIntoAbsent | agents/save_and_load_azure_assistant_agent.py:15-16 | a save into an absent store yields the one-entry mapping |
| IdCache.IdStore.constructor | agents/save_and_load_azure_assistant_agent.py:5-6 | a store starts absent and empty |
| IdCache.IdStore.Save | agents/save_and_load_azure_assistant_agent.py:10-21 | the store's new content is the read-modify-write save of the old one |
| IdCache.IdStore.Load | agents/save_and_load_azure_assistant_agent.py:24-30 | returns the stored id iff the store exists and holds the name |
| IdCache.Caches.constructor | agents/save_and_load_azure_assistant_agent.py:5-6 | two distinct stores, both absent |
| IdCache.Caches.SaveAgentId | agents/save_and_load_azure_assistant_agent.py:10-21 | saves into the agent-id store and leaves the file-id store unchanged |
| IdCache.Caches.SaveFileId | agents/save_and_load_azure_assistant_agent.py:34-45 | saves into the file-id store and leaves the agent-id store unchanged |
| IdCache.Caches.LoadAgentId | agents/save_and_load_azure_assistant_agent.py:24-30 | loads from the agent-id store |
| IdCache.Caches.LoadFileId | agents/save_and_load_azure_assistant_agent.py:48-54 | loads from the file-id store |
| CoderAgent.CsvFiles | agents/fundfact_coder_rag_agent.py:66 | exactly the listed entries ending in ".csv" are kept, and no more entries than listed |
| CoderAgent.CsvFilesSingle | agents/fundfact_coder_rag_agent.py:66 | a one-entry listing keeps its entry iff it ends in ".csv" |
| CoderAgent.CsvFilesAppend | agents/fundfact_coder_rag_agent.py:66 | the filter distributes over concatenated listings, so it keeps listing order and duplicates |
| CoderAgent.Resolve | agents/fundfact_coder_rag_agent.py:68-81 | one file id per csv file |
| CoderAgent.EntryAfterUpload | agents/fundfact_coder_rag_agent.py:68-81 | saving an upload for one file does not change the entry decided for any other file |
| CoderAgent.ResolveEntries | agents/fundfact_coder_rag_agent.py:68-81 | entry i is the cached id when not forced and the cached id is truthy, and a fresh upload otherwise, in listing order |
| CoderAgent.ResolveStore | agents/fundfact_coder_rag_agent.py:72-81 | afterwards every listed file loads as its entry, and every other name loads as before |
| CoderAgent.ForcedReuploadsAll | agents/fundfact_coder_rag_agent.py:72-81 | when forced, every csv file is re-uploaded and its cache entry overwritten |
| CoderAgent.ConfigureTools | agents/fundfact_coder_rag_agent.py:84-85 | tools are configured iff there is a file id, and then over exactly those ids |
| CoderAgent.UpdatePayload | agents/fundfact_coder_rag_agent.py:92-101 | "instructions" iff a prompt update is forced, valued by the override when truthy, else the catalog prompt; "tools" and "tool_resources" iff a file update is forced and tools exist; no other keys; empty iff neither |
| CoderAgent.BuildUpdatePayload | agents/fundfact_coder_rag_agent.py:92-101 | builds the update payload key by key |
| CoderAgent.ResolveFrom | agents/fundfact_coder_rag_agent.py:68-81 | resolving from file i is deciding file i's entry, saving it if uploaded, then resolving the rest |
| CoderAgent.ResolveFileIds | agents/fundfact_coder_rag_agent.py:68-81 | the loop's ids and the final file-id store are those of the reuse policy |
| CoderAgent.GetFundfactCoderRagAgent | agents/fundfact_coder_rag_agent.py:54-124 | file ids follow the reuse policy over the csv files. A truthy cached assistant whose retrieval succeeds, and whose update (made only for a non-empty payload) succeeds, is reused and the agent store is unchanged. Otherwise a new assistant is created with the catalog prompt and the configured tools, and its id is saved under "fundfact_coder_rag_agent" |
| Controller.LastFieldNone | main_agents_logic.py:55-61 | a field stays unset iff no line starts with its prefix |
| Controller.LastMatchWins | main_agents_logic.py:57-61 | the last line starting with the prefix sets the field, to the stripped text after the prefix |
| Controller.NonMatchingLineIgnored | main_agents_logic.py:57-61 | a line not starting with the prefix changes nothing |
| Controller.IndentedLineIgnored | main_agents_logic.py:51-58 | a line starting with whitespace sets neither field: matching is anchored and case-sensitive, and lines are not stripped |
| Controller.PrefixesExclusive | main_agents_logic.py:58-61 | no line sets both fields |
| Controller.DefaultsIndependent | main_agents_logic.py:64-65 | the intent falls back to "BYPASS" and the language to "THAI", each on its own, when unset or empty |
| Controller.LastFieldStep | main_agents_logic.py:57-61 | the parse after one more line is that line's value if it matches, else the parse so far |
| Controller.ParseRoute | main_agents_logic.py:55-65 | the loop over the lines computes the route the parse specification defines |
| Controller.PathFor | main_agents_logic.py:71-169 | only "NEWS", "CALLCENTER" and "FUNDFACT" select their flows; every other intent takes the reply path |
| Controller.UnparsedReplyFallsBack | main_agents_logic.py:64-71 | a router reply without an INTENT: line takes the reply path |
| Controller.MergeThread | main_agents_logic.py:103-107 | if the main thread exists and is not the flow's thread, the flow's messages are appended to it in order; otherwise the flow's thread becomes the main thread |
| Controller.RunRouter | main_agents_logic.py:50-52 | the route text is the stripped last router response, and the user thread is that response's thread |
| Controller.NewsMetrics | main_agents_logic.py:85-99 | the news path sets all its counters, adds the sub-router input to the router input and the sub-router output to the orchestrator output, and leaves the reply counters unset |
| Controller.CallcenterMetrics | main_agents_logic.py:115-126 | the call-center path sets the router, rag and keyword counters and leaves the orchestrator and reply counters unset |
| Controller.FundfactMetrics | main_agents_logic.py:146-160 | the fund-fact path sets router, rag, orchestrator and keyword counters and leaves the reply counters unset |
| Controller.ReplyMetrics | main_agents_logic.py:169-183 | the reply path sets only the router and reply counters |
| Controller.RunReply | main_agents_logic.py:169-183 | the answer is the concatenated reply stream, the text so far is shown after each chunk, the main thread becomes the last chunk's thread, and reply tokens are counted on the prompt and the answer |
| Controller.RunPath | main_agents_logic.py:71-183 | each path returns its flow's answer and counters and merges its thread; the reply path streams |
| Controller.GetAgentResponse | main_agents_logic.py:41-206 | route parsed from the stripped last router response; dispatch on the exact intent; the counters of stages that did not run stay unset; the flow's thread is merged; the chat history gains exactly the user query and then the answer |
| Controller.RecordTurn | main_agents_logic.py:186-187 | the chat history gains exactly the user query, then the answer |

## Left out

- Hosted services are not modelled. This covers the language-model agents, Azure AI Search, the HTTP embedding call, the tokenizer and JSON serialisation. Each is an input: response sequences, returned contexts or hits, a token-count function and a render function.
- The Streamlit user interface is not modelled. This covers session state widgets, status placeholders, spinners and the markdown container. Displayed text is recorded as the sequence of strings shown.
- `asyncio.gather` is modelled as sequential calls in argument order. Results come back positionally, so nothing else of the concurrency matters.
- The keyword agent's own conversation thread is ignored by every flow, so it is not modelled.
- Prompt wording is abbreviated in the templates. Only the literal headings and the order of the values filled in are kept. The keyword prompt and the reply prompt are exact.
- Loading YAML prompt catalogs and agent configuration is not modelled. The catalog is a `map<string,string>` input.
- Files of the id caches are modelled as a map plus a presence flag. JSON encoding and decoding and I/O errors are not modelled.
- The agent factories and the context-only agent files are not modelled: the router, keyword, reply, orchestrator, linguistic agents and kernel setup.
- `os.listdir` order is given as the input `listing`.
- CoderAgent.GetFundfactCoderRagAgent: a file upload's id is a fixed function of the file name. Retrieval and update failures (the `except` branch) are boolean inputs. The created assistant's id is an input.
- CoderAgent.GetFundfactCoderRagAgent: creation uses the catalog prompt even when an override is given. The model keeps that (`agents/fundfact_coder_rag_agent.py:116-122`).
- Controller.GetAgentResponse: the pipelines are given as their outcomes (`NewsOutcome`, `CallcenterFlow.FlowResult`, `FundfactFlow.FlowResult`) rather than run inside the controller. `NewsFlow`, `CallcenterFlow` and `FundfactFlow` state how those outcomes are computed.
- Controller.GetAgentResponse, Controller.RunPath: as written, the NEWS call at `main_agents_logic.py:92-97` passes eleven arguments to a function of nine parameters, so it raises `TypeError` before the news pipeline runs. The model does not capture that failure; it takes the eleven values the controller would unpack (`NewsOutcome`).
- Controller.GetAgentResponse: requires the chat history object to be distinct from the main thread. No caller of `get_agent_response` is part of this model, so the distinctness is assumed, not taken from a caller.
- Controller.GetAgentResponse and Controller.RunRouter: require the router to yield at least one response. On an empty stream the source leaves `route_str` unbound and fails.
- Controller.RunReply: an empty reply stream yields `hasStreamed == false`, the value `main_agents_logic.py:21` sets on entry.
- NewsFlow.GetNewsAgentResponse, CallcenterFlow.GetCallcenterAgentResponse, FundfactFlow.GetFundfactAgentResponse: require a non-empty synthesis stream. On an empty stream the source returns a thread and a `has_streamed` flag that were never bound.
- NewsFlow.GetNewsAgentResponse: models the pipeline's own nine-value signature, not the eleven values its caller unpacks.
- NewsFlow.RunMmragAgent: records the top_k values the pipeline passes (10/20/40, 5 and 4). As written, these calls raise a `TypeError`, because the multimodal wrappers accept no `top_k` (`agents/mm_rag_agent.py:86-96`). The model does not capture that failure.
- LegacyFlow.RunMmragAgent: records the shared top_k the helper passes. As written, these calls at `agents_logic.py:7-9` raise the same `TypeError`. The model does not capture that failure.
- StandaloneApp: the image select order differs between `main.py:77` (doc_name before figure) and `agents/mm_rag_agent.py:96`. Each module keeps its own source's order.
- Integer widths are not modelled: token counts are unbounded `nat`, as Python's integers are.
