/**
 * What the search plugins exchange with the search service: raw result
 * documents (field name to value), the calls made to a plugin's wrappers and
 * the query a plugin sends to the service.
 */
module Documents {
  import opened Wrappers

  /** A field value of a result document as the service returns it. */
  datatype Value = Null | Str(s: string) | Int(i: int)

  /** A raw result document: the fields the service returned. */
  type Doc = map<string, Value>

  /** `doc.get(key, default)`: the stored value, even a null one, or `default` when the key is absent. */
  function Get(d: Doc, key: string, default: Value): (v: Value)
    ensures key in d ==> v == d[key]
    ensures key !in d ==> v == default
  {
    if key in d then d[key] else default
  }

  /** The indexes a plugin can search: running text, tables and images of the documents. */
  datatype Index = TextIndex | TableIndex | ImageIndex

  /** A call to a plugin wrapper (`search_text_content` and friends) with the arguments it was given. */
  datatype SearchCall = SearchCall(index: Index, query: string, filter: Option<string>, topK: nat)

  /**
   * The hybrid query a plugin sends to the service: the lexical text, the
   * number of nearest neighbours of the vector part, the result cap, the
   * selected fields and the filter.
   */
  datatype BackendQuery = BackendQuery(index: Index, searchText: string, vectorK: nat, top: nat, select: seq<string>, filter: Option<string>)

  /** The metadata filters of the three document families. */
  const MonthlyStandpointFilter: string := "key_prefix eq 'monthlystandpoint'"
  const KtmFilter: string := "key_prefix eq 'ktm'"
  const KcmaFilter: string := "key_prefix eq 'kcma'"
}
