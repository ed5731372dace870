/**
 * The multimodal search plugin of the news pipeline: three indexes (text,
 * tables, images) searched with a hybrid lexical and vector query, each hit
 * reduced to a record whose missing fields get fixed sentinel values.
 */
module MultimodalSearch {
  import opened Wrappers
  import opened Documents

  /** One hit as the plugin hands it on; `filename` is the document's `doc_name` field. */
  datatype PageRecord = PageRecord(page: Value, filename: Value, content: Value, table: Value, figure: Value)

  const NotAvailable: Value := Str("N/A")
  const UnknownFile: Value := Str("unknown.txt")
  const NoContent: Value := Str("")

  /** The record of one hit: each field is copied when present and replaced by its sentinel when absent. */
  function ToPageRecord(d: Doc): PageRecord {
    PageRecord(Get(d, "page", NotAvailable), Get(d, "doc_name", UnknownFile), Get(d, "content", NoContent),
               Get(d, "table", NotAvailable), Get(d, "figure", NotAvailable))
  }

  /** The hit a record came from, as far as the record keeps it. */
  function RecordDoc(r: PageRecord): Doc {
    map["page" := r.page, "doc_name" := r.filename, "content" := r.content, "table" := r.table, "figure" := r.figure]
  }

  /** Reading a record back as a hit gives the same record: nothing of a record is lost. */
  lemma RecordRoundTrip(r: PageRecord)
    ensures ToPageRecord(RecordDoc(r)) == r
  {
  }

  /**
   * A missing field takes its sentinel ("N/A" for page, table and figure,
   * "unknown.txt" for the file name, "" for the content) and a present one,
   * even a null one, is copied.
   */
  lemma Sentinels(d: Doc)
    ensures ToPageRecord(d).page == (if "page" in d then d["page"] else Str("N/A"))
    ensures ToPageRecord(d).filename == (if "doc_name" in d then d["doc_name"] else Str("unknown.txt"))
    ensures ToPageRecord(d).content == (if "content" in d then d["content"] else Str(""))
    ensures ToPageRecord(d).table == (if "table" in d then d["table"] else Str("N/A"))
    ensures ToPageRecord(d).figure == (if "figure" in d then d["figure"] else Str("N/A"))
  {
  }

  /** The records of all hits: one per hit, in the service's order. */
  function Normalise(results: seq<Doc>): (rs: seq<PageRecord>)
    ensures |rs| == |results|
    ensures forall i :: 0 <= i < |results| ==> rs[i] == ToPageRecord(results[i])
  {
    seq(|results|, i requires 0 <= i < |results| => ToPageRecord(results[i]))
  }

  /** What `_search` sends to the service and what it returns. */
  datatype SearchOutcome = SearchOutcome(query: BackendQuery, records: seq<PageRecord>)

  /**
   * `_search`: the text is both the lexical query and the embedded vector
   * query; the neighbour count and the result cap are both `topK`.
   */
  function Search(index: Index, query: string, select: seq<string>, topK: nat, filter: Option<string>, results: seq<Doc>): (o: SearchOutcome)
    ensures o.query.searchText == query && o.query.vectorK == topK && o.query.top == topK
    ensures o.query.index == index && o.query.select == select && o.query.filter == filter
    ensures o.records == Normalise(results)
  {
    SearchOutcome(BackendQuery(index, query, topK, topK, select, filter), Normalise(results))
  }

  /** The default result budget of `_search`; no wrapper passes another. */
  const DefaultTopK: nat := 10

  const TextSelect: seq<string> := ["content", "page", "doc_name"]
  const TableSelect: seq<string> := ["content", "page", "table", "doc_name"]
  const ImageSelect: seq<string> := ["content", "page", "figure", "doc_name"]

  /** `search_text_content(query, filter)`. */
  function SearchTextContent(query: string, filter: Option<string>, results: seq<Doc>): SearchOutcome {
    Search(TextIndex, query, TextSelect, DefaultTopK, filter, results)
  }

  /** `search_table_content(query, filter)`. */
  function SearchTableContent(query: string, filter: Option<string>, results: seq<Doc>): SearchOutcome {
    Search(TableIndex, query, TableSelect, DefaultTopK, filter, results)
  }

  /** `search_image_content(query, filter)`. */
  function SearchImageContent(query: string, filter: Option<string>, results: seq<Doc>): SearchOutcome {
    Search(ImageIndex, query, ImageSelect, DefaultTopK, filter, results)
  }

  /**
   * All three wrappers search with the default budget of 10 and select the
   * content, page and document name; the table wrapper adds "table", the image
   * wrapper "figure".
   */
  lemma WrapperQueries(query: string, filter: Option<string>, results: seq<Doc>)
    ensures var t := SearchTextContent(query, filter, results).query;
      t.index == TextIndex && t.top == 10 && t.vectorK == 10 && multiset(t.select) == multiset{"content", "page", "doc_name"}
    ensures var t := SearchTableContent(query, filter, results).query;
      t.index == TableIndex && t.top == 10 && t.vectorK == 10 && multiset(t.select) == multiset{"content", "page", "doc_name", "table"}
    ensures var t := SearchImageContent(query, filter, results).query;
      t.index == ImageIndex && t.top == 10 && t.vectorK == 10 && multiset(t.select) == multiset{"content", "page", "doc_name", "figure"}
  {
  }

  /**
   * The service returns only selected fields, so a text-index hit never has a
   * table or figure: both come out as "N/A".
   */
  lemma TextHitsHaveNoTableOrFigure(d: Doc)
    requires forall k :: k in d ==> k in TextSelect
    ensures ToPageRecord(d).table == NotAvailable && ToPageRecord(d).figure == NotAvailable
  {
    assert "table" !in d;
    assert "figure" !in d;
  }
}
