/**
 * The retrieval strategies of `ModularRAG` and the dispatch between them.
 * The vector store is an oracle `search(query, top_k, filter)`; everything
 * else is list and string processing on what it answers.
 */
module ModularRag {
  import opened Wrappers
  import opened Text
  import opened VectorStore
  import opened Reranking
  import opened QueryAnalysis
  import opened Merging

  /** `TOP_K_RESULTS`, the default number of results. */
  const TopKResults := 3
  /** Candidate width of the hierarchical strategy when dispatched by name. */
  const HierarchicalBroadTopK := 10
  /** Candidate width of the hierarchical strategy when chosen by the adaptive router. */
  const AdaptiveBroadTopK := 15

  datatype Strategy = Basic | Hierarchical | Hybrid | Adaptive {
    /** The enum's string value. */
    function Value(): string {
      match this
      case Basic => "basic"
      case Hierarchical => "hierarchical"
      case Hybrid => "hybrid"
      case Adaptive => "adaptive"
    }
  }

  /** `execute_rag` accepts either an enum member or a string. */
  datatype StrategyArg = ByName(name: string) | ByValue(strategy: Strategy)

  datatype RagError =
      /** `RAGStrategy(name)` raised `ValueError` */
    | UnknownStrategy(name: string)
      /** `_merge_results` indexed `[0]` of an empty outer list */
    | IndexError

  datatype SearchType = Semantic | TwoStage | SemanticKeyword | SemanticOnly

  /**
   * The dictionary a strategy returns. Basic and hierarchical answer flat
   * lists; hybrid passes on the store's nested lists (one group per query).
   */
  datatype RagResult =
    | Flat(documents: seq<string>, metadatas: seq<Meta>, strategy: Strategy, searchType: SearchType)
    | Nested(groups: seq<seq<string>>, metaGroups: seq<seq<Meta>>, strategy: Strategy, searchType: SearchType)
  {
    /** `not rag_results['documents']`: the outer list is empty. */
    predicate NoDocuments() {
      if Flat? then documents == [] else groups == []
    }
  }

  /** `RAGStrategy(name.lower())`. */
  function ParseStrategy(name: string): (r: Result<Strategy, RagError>)
    ensures r.Ok? ==> r.value.Value() == Lower(name)
    ensures r.Err? ==> r.error == UnknownStrategy(Lower(name)) && forall s: Strategy :: s.Value() != Lower(name)
  {
    var n := Lower(name);
    if n == "basic" then Ok(Basic)
    else if n == "hierarchical" then Ok(Hierarchical)
    else if n == "hybrid" then Ok(Hybrid)
    else if n == "adaptive" then Ok(Adaptive)
    else Err(UnknownStrategy(n))
  }

  /** `_basic_rag`: the first group of a semantic search, or nothing when the store failed. */
  function BasicRag(search: Search, question: string, topK: int): (r: RagResult)
    ensures r.Flat? && r.strategy == Basic && r.searchType == Semantic
    ensures search(question, topK, NoFilter).documents == [] ==> r.documents == []
    ensures search(question, topK, NoFilter).documents != [] ==> r.documents == search(question, topK, NoFilter).documents[0]
  {
    var results := search(question, topK, NoFilter);
    Flat(if results.documents != [] then results.documents[0] else [],
         if results.metadatas != [] then results.metadatas[0] else [],
         Basic, Semantic)
  }

  /**
   * `_hierarchical_rag`: a broad semantic search, the candidates reranked
   * lexically and cut to `finalTopK`; the metadatas are cut from the store's
   * order, not reordered with the documents.
   */
  function HierarchicalRag(search: Search, question: string, broadTopK: int, finalTopK: int): (r: RagResult)
    ensures r.Flat? && r.strategy == Hierarchical && r.searchType == TwoStage
    ensures finalTopK >= 0 ==> |r.documents| <= finalTopK && |r.metadatas| <= finalTopK
  {
    var broad := search(question, broadTopK, NoFilter);
    if broad.documents == [] then Flat([], [], Hierarchical, TwoStage)
    else
      Flat(Take(Reranked(question, broad.documents[0]), finalTopK),
           if broad.metadatas != [] then Take(broad.metadatas[0], finalTopK) else [],
           Hierarchical, TwoStage)
  }

  /** `_keyword_search`: the keywords joined as the query, filtered on title or abstract. */
  function KeywordSearch(search: Search, keywords: seq<string>, topK: int): SearchResult {
    search(Join(" ", keywords), topK, KeywordFilter(keywords))
  }

  /**
   * `_hybrid_rag`: semantic hits merged with keyword hits when the question
   * has keywords, else the semantic hits alone; either way in the nested
   * shape of a store answer.
   */
  function HybridRag(search: Search, question: string, topK: int): (r: Result<RagResult, RagError>)
    ensures r.Ok? ==> r.value.Nested? && r.value.strategy == Hybrid
    ensures r.Err? ==> r.error == IndexError && Keywords(question) != []
  {
    var semantic := search(question, topK, NoFilter);
    var keywords := Keywords(question);
    if keywords != [] then
      match Merged(semantic, KeywordSearch(search, keywords, topK))
      case None => Err(IndexError)
      case Some(combined) => Ok(Nested(combined.documents, combined.metadatas, Hybrid, SemanticKeyword))
    else
      Ok(Nested(semantic.documents, semantic.metadatas, Hybrid, SemanticOnly))
  }

  /** `_adaptive_rag`: route by the question's complexity. */
  function AdaptiveRag(search: Search, question: string, topK: int): (r: Result<RagResult, RagError>)
    ensures r.Ok? ==> r.value.strategy != Adaptive
    ensures r.Err? ==> r.error == IndexError && AssessComplexity(question) == Medium
  {
    match AssessComplexity(question)
    case Simple => Ok(BasicRag(search, question, topK))
    case Medium => HybridRag(search, question, topK)
    case Complex => Ok(HierarchicalRag(search, question, AdaptiveBroadTopK, topK))
  }

  /**
   * `execute_rag(question, strategy, top_k=...)`: a string strategy is
   * lowercased and looked up; hierarchical is called with broad width 10,
   * the others with `top_k` (default `TOP_K_RESULTS`).
   */
  function ExecuteRag(search: Search, question: string, arg: StrategyArg, topK: Option<int>): (r: Result<RagResult, RagError>)
    ensures r.Ok? ==> r.value.strategy != Adaptive
    ensures r.Err? && r.error.UnknownStrategy? <==> arg.ByName? && ParseStrategy(arg.name).Err?
    ensures arg.ByValue? && (arg.strategy == Basic || arg.strategy == Hierarchical) ==> r.Ok? && r.value.strategy == arg.strategy
  {
    var strategy :- if arg.ByName? then ParseStrategy(arg.name) else Ok(arg.strategy);
    var k := topK.GetOr(TopKResults);
    match strategy
    case Hierarchical => Ok(HierarchicalRag(search, question, HierarchicalBroadTopK, k))
    case Basic => Ok(BasicRag(search, question, k))
    case Hybrid => HybridRag(search, question, k)
    case Adaptive => AdaptiveRag(search, question, k)
  }

  // ---------------------------------------------------------------------
  // Dispatch

  /** Lowercasing happens before the lookup, so case does not matter. */
  lemma ParseStrategyIgnoresCase(name: string)
    ensures ParseStrategy(name) == ParseStrategy(Lower(name))
  {
    LowerIdempotent(name);
  }

  /** Every strategy is found under its own value. */
  lemma ParseStrategyValue(s: Strategy)
    ensures ParseStrategy(s.Value()) == Ok(s)
  {
    LowerOfLowercase(s.Value());
  }

  /**
   * A name that is no strategy's value, in any case, fails, and fails
   * without consulting the store: the answer is the same whatever the
   * store would have said.
   */
  lemma UnknownNameRunsNoSearch(search1: Search, search2: Search, question: string, name: string, topK: Option<int>)
    ensures ExecuteRag(search1, question, ByName(name), topK) == Err(UnknownStrategy(Lower(name))) <==>
      forall s: Strategy :: s.Value() != Lower(name)
    ensures (forall s: Strategy :: s.Value() != Lower(name)) ==>
      ExecuteRag(search1, question, ByName(name), topK) == ExecuteRag(search2, question, ByName(name), topK)
  {
  }

  /** A name is dispatched exactly like the enum member it names. */
  lemma ByNameIsByValue(search: Search, question: string, name: string, s: Strategy, topK: Option<int>)
    requires Lower(name) == s.Value()
    ensures ExecuteRag(search, question, ByName(name), topK) == ExecuteRag(search, question, ByValue(s), topK)
  {
    ParseStrategyValue(s);
    ParseStrategyIgnoresCase(name);
  }

  /**
   * Through `execute_rag` the hierarchical strategy asks the store only for
   * the broad width 10: two stores that agree on that query give the same
   * answer. The final width is `top_k` (default 3): the answer holds the
   * best `top_k` candidates, or all of them when there are fewer, with the
   * store's first `top_k` metadatas.
   */
  lemma HierarchicalDispatchUsesWidthTen(search1: Search, search2: Search, question: string, topK: Option<int>)
    requires search1(question, HierarchicalBroadTopK, NoFilter) == search2(question, HierarchicalBroadTopK, NoFilter)
    ensures ExecuteRag(search1, question, ByValue(Hierarchical), topK) == ExecuteRag(search2, question, ByValue(Hierarchical), topK)
    ensures ExecuteRag(search1, question, ByValue(Hierarchical), topK).Ok?
    ensures var r := ExecuteRag(search1, question, ByValue(Hierarchical), topK).value;
      topK.GetOr(TopKResults) >= 0 ==> |r.documents| <= topK.GetOr(TopKResults)
    ensures var r := ExecuteRag(search1, question, ByValue(Hierarchical), topK).value;
      var k, b := topK.GetOr(TopKResults), search1(question, HierarchicalBroadTopK, NoFilter);
      b.documents != [] && k >= 0 ==>
        && |r.documents| == (if k < |b.documents[0]| then k else |b.documents[0]|)
        && r.metadatas == (if b.metadatas != [] then Take(b.metadatas[0], k) else [])
  {
    var k := topK.GetOr(TopKResults);
    if k >= 0 {
      HierarchicalSpec(search1, question, HierarchicalBroadTopK, k);
    }
  }

  /**
   * Chosen by the adaptive router, the hierarchical strategy asks the store
   * only for width 15 and cuts the answer to `top_k`.
   */
  lemma AdaptiveComplexUsesWidthFifteen(search1: Search, search2: Search, question: string, topK: int)
    requires AssessComplexity(question) == Complex
    requires search1(question, AdaptiveBroadTopK, NoFilter) == search2(question, AdaptiveBroadTopK, NoFilter)
    ensures AdaptiveRag(search1, question, topK) == AdaptiveRag(search2, question, topK)
    ensures AdaptiveRag(search1, question, topK).Ok? && AdaptiveRag(search1, question, topK).value.strategy == Hierarchical
    ensures var r := AdaptiveRag(search1, question, topK).value;
      var b := search1(question, AdaptiveBroadTopK, NoFilter);
      b.documents != [] && topK >= 0 ==>
        && |r.documents| == (if topK < |b.documents[0]| then topK else |b.documents[0]|)
        && r.metadatas == (if b.metadatas != [] then Take(b.metadatas[0], topK) else [])
  {
    if topK >= 0 {
      HierarchicalSpec(search1, question, AdaptiveBroadTopK, topK);
    }
  }

  /**
   * The simple and medium routes of the adaptive router ask the store at
   * `top_k`: two stores that agree on the semantic query at `top_k` and, for
   * a question with keywords, on the keyword query at `top_k` give the same
   * answer.
   */
  lemma AdaptiveSimpleAndMediumUseTopK(search1: Search, search2: Search, question: string, topK: int)
    requires AssessComplexity(question) != Complex
    requires search1(question, topK, NoFilter) == search2(question, topK, NoFilter)
    requires Keywords(question) != [] ==>
      var kws := Keywords(question);
      search1(Join(" ", kws), topK, KeywordFilter(kws)) == search2(Join(" ", kws), topK, KeywordFilter(kws))
    ensures AdaptiveRag(search1, question, topK) == AdaptiveRag(search2, question, topK)
  {
    if AssessComplexity(question) == Medium {
      HybridUsesTopK(search1, search2, question, topK);
    }
  }

  /** The hybrid strategy asks the store only for the semantic and the keyword query at `top_k`. */
  lemma HybridUsesTopK(search1: Search, search2: Search, question: string, topK: int)
    requires search1(question, topK, NoFilter) == search2(question, topK, NoFilter)
    requires Keywords(question) != [] ==>
      var kws := Keywords(question);
      search1(Join(" ", kws), topK, KeywordFilter(kws)) == search2(Join(" ", kws), topK, KeywordFilter(kws))
    ensures HybridRag(search1, question, topK) == HybridRag(search2, question, topK)
  {
    var kws := Keywords(question);
    if kws != [] {
      assert KeywordSearch(search1, kws, topK) == KeywordSearch(search2, kws, topK);
    }
  }

  /**
   * Through `execute_rag` the basic, hybrid and adaptive strategies run at
   * `top_k` (default 3): stores that agree on the queries at that width
   * give the same answer (for adaptive, unless the question is complex,
   * whose width is 15).
   */
  lemma DispatchUsesTopK(search1: Search, search2: Search, question: string, s: Strategy, topK: Option<int>)
    requires s == Basic || s == Hybrid || (s == Adaptive && AssessComplexity(question) != Complex)
    requires var k := topK.GetOr(TopKResults);
      search1(question, k, NoFilter) == search2(question, k, NoFilter)
    requires Keywords(question) != [] ==>
      var k, kws := topK.GetOr(TopKResults), Keywords(question);
      search1(Join(" ", kws), k, KeywordFilter(kws)) == search2(Join(" ", kws), k, KeywordFilter(kws))
    ensures ExecuteRag(search1, question, ByValue(s), topK) == ExecuteRag(search2, question, ByValue(s), topK)
  {
    var k := topK.GetOr(TopKResults);
    match s
    case Basic =>
    case Hybrid => HybridUsesTopK(search1, search2, question, k);
    case Adaptive => AdaptiveSimpleAndMediumUseTopK(search1, search2, question, k);
  }

  // ---------------------------------------------------------------------
  // Basic and hierarchical

  /**
   * The basic strategy passes on the store's first group, each document with
   * its own metadata when the store answer is well formed, and answers
   * nothing exactly when the store failed or found nothing.
   */
  lemma BasicPassesStoreGroup(search: Search, question: string, topK: int)
    requires WellFormed(search(question, topK, NoFilter))
    ensures var r := BasicRag(search, question, topK);
      var s := search(question, topK, NoFilter);
      && |r.documents| == |r.metadatas|
      && (r.NoDocuments() <==> s.documents == [] || s.documents[0] == [])
      && (s.documents != [] ==> forall i :: 0 <= i < |r.documents| ==>
            r.documents[i] == s.documents[0][i] && r.metadatas[i] == s.metadatas[0][i])
  {
  }

  /**
   * What the hierarchical strategy answers: when the store failed, nothing;
   * otherwise at most `finalTopK` candidates, the best-scoring ones in
   * non-increasing score, none of them outscored by a candidate left out,
   * and the metadatas the store listed first.
   */
  lemma HierarchicalSpec(search: Search, question: string, broadTopK: int, finalTopK: nat)
    ensures var r := HierarchicalRag(search, question, broadTopK, finalTopK);
      var broad := search(question, broadTopK, NoFilter);
      && r.Flat? && r.strategy == Hierarchical && r.searchType == TwoStage
      && (broad.documents == [] ==> r.documents == [] && r.metadatas == [])
      && (broad.documents != [] ==>
        var cands := broad.documents[0];
        && |r.documents| == (if finalTopK < |cands| then finalTopK else |cands|)
        && multiset(r.documents) <= multiset(cands)
        && |Reranked(question, cands)| == |cands|
        && (forall i, j :: 0 <= i < j < |r.documents| ==> Score(question, r.documents[i]) >= Score(question, r.documents[j]))
        && (forall i, j :: 0 <= i < |r.documents| && |r.documents| <= j < |cands| ==>
              Score(question, r.documents[i]) >= Score(question, Reranked(question, cands)[j]))
        && r.metadatas == (if broad.metadatas != [] then Take(broad.metadatas[0], finalTopK) else []))
  {
    var broad := search(question, broadTopK, NoFilter);
    if broad.documents != [] {
      var cands := broad.documents[0];
      var ranked := Reranked(question, cands);
      RerankedSpec(question, cands);
      var docs := Take(ranked, finalTopK);
      assert ranked == docs + ranked[|docs|..];
      assert multiset(ranked) == multiset(docs) + multiset(ranked[|docs|..]);
    }
  }

  const StoreOrderMetas: seq<Meta> := [map["title" := "x"], map["title" := "q"]]

  /** A store that answers the candidates "x" then "q" with their titles. */
  function TwoCandidateStore(): Search {
    (query: string, k: int, f: Filter) => SearchResult([["x", "q"]], [StoreOrderMetas])
  }

  lemma ScoreOfSingleWord(w: string, doc: string)
    requires IsWord(w)
    ensures Score(w, doc) == if Contains(Lower(doc), Lower(w)) then 1 else 0
  {
    WordsOfJoin([Lower(w)]);
    assert Join(" ", [Lower(w)]) == Lower(w);
  }

  /**
   * Reranking moves the documents but not the metadatas: asked "q" with one
   * result, the strategy answers document "q" with the metadata of "x".
   */
  lemma HierarchicalMetadataOutOfStep()
    ensures HierarchicalRag(TwoCandidateStore(), "q", HierarchicalBroadTopK, 1).documents == ["q"]
    ensures HierarchicalRag(TwoCandidateStore(), "q", HierarchicalBroadTopK, 1).metadatas == [map["title" := "x"]]
  {
    ScoreOfSingleWord("q", "x");
    ScoreOfSingleWord("q", "q");
    assert Lower("q") == "q" && Lower("x") == "x";
    assert !Contains("x", "q");
    assert Contains("q", "q");
    var key := ScoreKey("q");
    assert key("x") == 0 && key("q") == 1;
    assert SortByKey(key, ["x"]) == ["x"];
    assert ["x", "q"][..1] == ["x"];
    assert Reranked("q", ["x", "q"]) == InsertByKey(key, "q", ["x"]) == ["q", "x"];
  }

  /** Repeated question tokens each count: "a a" scores 2 against "a". */
  lemma RepeatedTokensCountTwice()
    ensures Score(Join(" ", ["a", "a"]), "a") == 2
  {
    WordsOfJoin(["a", "a"]);
    LowerJoin(["a", "a"]);
    assert Lower("a") == "a";
    assert LowerAll(["a", "a"]) == ["a", "a"];
    assert Contains("a", "a");
  }

  // ---------------------------------------------------------------------
  // Hybrid and adaptive

  /**
   * The hybrid strategy always answers in the nested shape. With keywords it
   * fails exactly when a store answer has an empty outer list, and otherwise
   * answers one group with no document twice, starting with the semantic
   * hits; without keywords it passes the semantic answer on unchanged.
   */
  lemma HybridSpec(search: Search, question: string, topK: int)
    ensures var r := HybridRag(search, question, topK);
      var semantic := search(question, topK, NoFilter);
      var keywords := Keywords(question);
      var keyword := KeywordSearch(search, keywords, topK);
      && (r.Ok? ==> r.value.Nested? && r.value.strategy == Hybrid)
      && (keywords == [] ==> r == Ok(Nested(semantic.documents, semantic.metadatas, Hybrid, SemanticOnly)))
      && (keywords != [] ==>
        && (r.Err? <==> |semantic.documents| == 0 || |keyword.documents| == 0 || |semantic.metadatas| == 0 || |keyword.metadatas| == 0)
        && (r.Ok? ==>
          && r.value.searchType == SemanticKeyword
          && |r.value.groups| == 1 && |r.value.metaGroups| == 1
          && |r.value.groups[0]| == |r.value.metaGroups[0]|
          && (forall i, j :: 0 <= i < j < |r.value.groups[0]| ==> r.value.groups[0][i] != r.value.groups[0][j])
          && DocsOf(FirstOccurrences(Zip(semantic.documents[0], semantic.metadatas[0]))) <= r.value.groups[0]))
    ensures var r := HybridRag(search, question, topK);
      var semantic := search(question, topK, NoFilter);
      var keyword := KeywordSearch(search, Keywords(question), topK);
      Keywords(question) != [] && r.Ok? ==>
        var z1 := Zip(semantic.documents[0], semantic.metadatas[0]);
        var z2 := Zip(keyword.documents[0], keyword.metadatas[0]);
        var docs := r.value.groups[0];
        && (forall d :: d in DocsOf(z1) || d in DocsOf(z2) <==> d in docs)
        && (forall k :: |FirstOccurrences(z1)| <= k < |docs| ==> docs[k] !in DocsOf(z1) && docs[k] in DocsOf(z2))
  {
    var keywords := Keywords(question);
    if keywords != [] {
      MergedSpec(search(question, topK, NoFilter), KeywordSearch(search, keywords, topK));
    }
  }

  /**
   * The keyword search sends the keywords joined by spaces as its query text:
   * splitting that text gives exactly the keywords back.
   */
  lemma KeywordQueryIsKeywords(question: string)
    ensures Words(Join(" ", Keywords(question))) == Keywords(question)
  {
    var kws := Keywords(question);
    var ws := Words(Lower(question));
    KeptAreWords(ws);
    forall i | 0 <= i < |kws| ensures IsWord(kws[i]) {
      assert kws[i] == KeptWords(ws)[i];
      assert kws[i] in ws;
    }
    WordsOfJoin(kws);
  }

  /** A failed store makes the hybrid strategy raise as soon as the question has a keyword. */
  lemma HybridRaisesOnStoreError(search: Search, question: string, topK: int)
    requires search(question, topK, NoFilter) == SearchFailed
    ensures HybridRag(search, question, topK).Err? <==> Keywords(question) != []
  {
  }

  /**
   * The adaptive router's choice shows in the strategy it reports: basic
   * exactly for simple questions, hybrid for medium ones, hierarchical for
   * complex ones; only the hybrid route can fail.
   */
  lemma AdaptiveReportsRoute(search: Search, question: string, topK: int)
    ensures var r := AdaptiveRag(search, question, topK);
      var c := AssessComplexity(question);
      && (r.Err? ==> c == Medium)
      && (r.Ok? ==>
        && (r.value.strategy == Basic <==> c == Simple)
        && (r.value.strategy == Hybrid <==> c == Medium)
        && (r.value.strategy == Hierarchical <==> c == Complex))
  {
  }

  /** "What is AI?" is sent to the hybrid strategy. */
  lemma WhatIsAiGoesHybrid(search: Search, topK: int)
    ensures AdaptiveRag(search, "What is AI?", topK) == HybridRag(search, "What is AI?", topK)
  {
    WhatIsAiIsMedium();
  }
}
