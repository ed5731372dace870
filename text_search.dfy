/**
 * The text-only search plugin (call-center and fund-fact text indexes) and
 * the lookup of a retrieval agent's instructions in the prompt catalog.
 */
module TextSearch {
  import opened Wrappers
  import opened Documents

  /** One hit as the plugin hands it on: its id and content only. */
  datatype TextRecord = TextRecord(id: Value, content: Value)

  /** The record of one hit: a missing id or content becomes "". */
  function ToTextRecord(d: Doc): (r: TextRecord)
    ensures r.id == (if "id" in d then d["id"] else Str(""))
    ensures r.content == (if "content" in d then d["content"] else Str(""))
  {
    TextRecord(Get(d, "id", Str("")), Get(d, "content", Str("")))
  }

  /** The records of all hits: one per hit, in the service's order. */
  function Normalise(results: seq<Doc>): (rs: seq<TextRecord>)
    ensures |rs| == |results|
    ensures forall i :: 0 <= i < |results| ==> rs[i] == ToTextRecord(results[i])
  {
    seq(|results|, i requires 0 <= i < |results| => ToTextRecord(results[i]))
  }

  /** Reading a record back as a hit gives the same record. */
  lemma RecordRoundTrip(r: TextRecord)
    ensures ToTextRecord(map["id" := r.id, "content" := r.content]) == r
  {
  }

  datatype SearchOutcome = SearchOutcome(query: BackendQuery, records: seq<TextRecord>)

  /** `_search`: the neighbour count and the result cap are both `topK`. */
  function Search(query: string, select: seq<string>, topK: nat, filter: Option<string>, results: seq<Doc>): (o: SearchOutcome)
    ensures o.query.searchText == query && o.query.vectorK == topK && o.query.top == topK
    ensures o.query.select == select && o.query.filter == filter
    ensures o.records == Normalise(results)
  {
    SearchOutcome(BackendQuery(TextIndex, query, topK, topK, select, filter), Normalise(results))
  }

  /** The default budget of `search_text_content`. */
  const DefaultTopK: nat := 10

  /** `search_text_content(query, filter, top_k)`: forwards the filter and the budget; selects content and id. */
  function SearchTextContent(query: string, filter: Option<string>, topK: nat, results: seq<Doc>): (o: SearchOutcome)
    ensures o.query.filter == filter && o.query.top == topK && o.query.vectorK == topK
    ensures o.query.select == ["content", "id"]
  {
    Search(query, ["content", "id"], topK, filter, results)
  }

  /** The catalog key of an agent's instructions. */
  function PromptKey(agentName: string): string {
    agentName + "_prompt"
  }

  /** `prompts.get(agent_name + "_prompt", "")`: the catalog entry, or no instructions at all. */
  function Instructions(catalog: map<string, string>, agentName: string): (r: string)
    ensures agentName + "_prompt" in catalog ==> r == catalog[agentName + "_prompt"]
    ensures agentName + "_prompt" !in catalog ==> r == ""
  {
    if PromptKey(agentName) in catalog then catalog[PromptKey(agentName)] else ""
  }
}
