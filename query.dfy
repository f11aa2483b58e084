/**
 * The question-answering script: its own copy of `hybrid_search` and the context
 * it builds from the documents found.
 */
module Query {
  import opened Merge

  /**
   * `hybrid_search` of this script; it has the same specification as the search
   * script's, so the two copies return the same documents.
   */
  method HybridSearch(query: string, lexical: string -> seq<Doc>, dense: string -> seq<Doc>)
    returns (docs: seq<Doc>)
    ensures docs == Hybrid(lexical(query), dense(query))
  {
    var bm25Docs := Take(lexical(query), SearchCap);
    var faissDocs := Take(dense(query), SearchCap);
    var kept := InterleaveMerge(bm25Docs, faissDocs);
    docs := Take(kept, SearchCap);
  }

  /** `get_context`: the texts of the documents found, joined by newlines. */
  method GetContext(query: string, lexical: string -> seq<Doc>, dense: string -> seq<Doc>)
    returns (context: string)
    ensures context == Context(Hybrid(lexical(query), dense(query)))
  {
    var docs := HybridSearch(query, lexical, dense);
    context := Context(docs);
  }
}
