/**
 * The keyword-extraction stage every retrieval flow starts with: the query is
 * rewritten by the keyword agent, and the raw query stands in when the agent
 * yields nothing.
 */
module Keywords {
  import opened FanIn

  /** The message sent to the keyword agent. */
  function KeywordPrompt(userQuery: string): string {
    "Extract keywords from this query: " + userQuery
  }

  /**
   * `search_keywords = user_query`, then overwritten by every response: the
   * last response wins. Input tokens are counted on the agent's message,
   * output tokens on the keywords.
   */
  method ExtractKeywords(userQuery: string, responses: seq<string>, count: string -> nat)
    returns (keywords: string, inputTokens: nat, outputTokens: nat)
    ensures keywords == LastOr(responses, userQuery)
    ensures inputTokens == count("Extract keywords from this query: " + userQuery)
    ensures outputTokens == count(keywords)
  {
    inputTokens := count(KeywordPrompt(userQuery));
    keywords := KeepLast(responses, userQuery);
    outputTokens := count(keywords);
  }
}
