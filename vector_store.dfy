/**
 * The boundary to the vector store (a ChromaDB collection). Only the shape
 * of a search answer matters to the retrieval strategies: one list of
 * documents and one list of metadatas per query text, nested one level
 * (`{"documents": [[...]], "metadatas": [[...]]}`). When the store fails,
 * the wrapper answers with empty outer lists instead of raising.
 */
module VectorStore {

  /** A metadata record: field name to value. */
  type Meta = map<string, string>

  /** The `where` filter of a search. */
  datatype Filter =
    | NoFilter
      /** title or abstract among the keywords (the `$or` of `$in` clauses) */
    | KeywordFilter(keywords: seq<string>)

  datatype SearchResult = SearchResult(documents: seq<seq<string>>, metadatas: seq<seq<Meta>>)

  /** What `search` returns when the store raises. */
  const SearchFailed := SearchResult([], [])

  /** `search(query, top_k, filter)`, an oracle: the store's ranking is not modelled. */
  type Search = (string, int, Filter) -> SearchResult

  /**
   * A store answer as the store gives it: at most one group (one query
   * text), and every document paired with one metadata.
   */
  predicate WellFormed(r: SearchResult) {
    && |r.documents| == |r.metadatas| <= 1
    && forall i :: 0 <= i < |r.documents| ==> |r.documents[i]| == |r.metadatas[i]|
  }
}
