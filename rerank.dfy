/**
 * Lexical reranking of the hierarchical strategy (`_rerank_documents`):
 * every candidate is scored by how many whitespace tokens of the lowercased
 * question (repeats counted) occur as substrings of the lowercased document,
 * and the candidates are stably sorted by decreasing score.
 */
module Reranking {
  import opened Text

  /** The number of `words` that occur in `text`, each occurrence in `words` counted. */
  function CountPresent(words: seq<string>, text: string): (n: nat)
    ensures n <= |words|
  {
    if words == [] then 0
    else (if Contains(text, words[0]) then 1 else 0) + CountPresent(words[1..], text)
  }

  /** The number of question tokens, repeats included, that occur in the document (both lowercased). */
  function Score(question: string, doc: string): (n: nat)
    ensures n <= |Words(Lower(question))|
  {
    CountPresent(Words(Lower(question)), Lower(doc))
  }

  /**
   * The sort is stated over any key; reranking uses `Score(question, _)`.
   * `ranked` lists documents by non-increasing key.
   */
  ghost predicate RankedBy(key: string -> nat, ranked: seq<string>) {
    forall i, j :: 0 <= i < j < |ranked| ==> key(ranked[i]) >= key(ranked[j])
  }

  /** The documents of `docs` whose key is `v`, in order. */
  function WithKey(key: string -> nat, docs: seq<string>, v: nat): seq<string> {
    if docs == [] then []
    else (if key(docs[0]) == v then [docs[0]] else []) + WithKey(key, docs[1..], v)
  }

  /** Puts `d` after every document whose key is at least its own. */
  function InsertByKey(key: string -> nat, d: string, ranked: seq<string>): seq<string> {
    if ranked == [] then [d]
    else if key(ranked[0]) >= key(d) then [ranked[0]] + InsertByKey(key, d, ranked[1..])
    else [d] + ranked
  }

  /** The stable sort by decreasing key, as an insertion sort. */
  function SortByKey(key: string -> nat, docs: seq<string>): seq<string> {
    if docs == [] then []
    else InsertByKey(key, docs[|docs| - 1], SortByKey(key, docs[..|docs| - 1]))
  }

  function ScoreKey(question: string): string -> nat {
    d => Score(question, d)
  }

  /** `_rerank_documents` as a function of its inputs. */
  function Reranked(question: string, docs: seq<string>): (ranked: seq<string>)
    ensures |ranked| == |docs|
  {
    SortPermutation(ScoreKey(question), docs);
    SortByKey(ScoreKey(question), docs)
  }

  lemma {:induction false} InsertPermutation(key: string -> nat, d: string, ranked: seq<string>)
    ensures multiset(InsertByKey(key, d, ranked)) == multiset(ranked) + multiset{d}
  {
    if ranked != [] && key(ranked[0]) >= key(d) {
      InsertPermutation(key, d, ranked[1..]);
      assert ranked == [ranked[0]] + ranked[1..];
    }
  }

  /** The sort returns a permutation of its input. */
  lemma {:induction false} SortPermutation(key: string -> nat, docs: seq<string>)
    ensures multiset(SortByKey(key, docs)) == multiset(docs)
    ensures |SortByKey(key, docs)| == |docs|
  {
    if docs != [] {
      var init := docs[..|docs| - 1];
      SortPermutation(key, init);
      InsertPermutation(key, docs[|docs| - 1], SortByKey(key, init));
      assert docs == init + [docs[|docs| - 1]];
    }
    assert |multiset(SortByKey(key, docs))| == |multiset(docs)|;
  }

  lemma {:induction false} InsertRanked(key: string -> nat, d: string, ranked: seq<string>)
    requires RankedBy(key, ranked)
    ensures RankedBy(key, InsertByKey(key, d, ranked))
  {
    if ranked != [] && key(ranked[0]) >= key(d) {
      var rest := InsertByKey(key, d, ranked[1..]);
      InsertRanked(key, d, ranked[1..]);
      InsertPermutation(key, d, ranked[1..]);
      forall k | 0 <= k < |rest| ensures key(ranked[0]) >= key(rest[k]) {
        assert rest[k] in multiset(rest);
        if rest[k] != d {
          assert rest[k] in multiset(ranked[1..]);
          var m :| 0 <= m < |ranked[1..]| && ranked[1..][m] == rest[k];
          assert ranked[1..][m] == ranked[m + 1];
        }
      }
    }
  }

  /** The sort orders its output by non-increasing key. */
  lemma {:induction false} SortIsRanked(key: string -> nat, docs: seq<string>)
    ensures RankedBy(key, SortByKey(key, docs))
  {
    if docs != [] {
      SortIsRanked(key, docs[..|docs| - 1]);
      InsertRanked(key, docs[|docs| - 1], SortByKey(key, docs[..|docs| - 1]));
    }
  }

  lemma {:induction false} WithKeyAppend(key: string -> nat, a: seq<string>, b: seq<string>, v: nat)
    ensures WithKey(key, a + b, v) == WithKey(key, a, v) + WithKey(key, b, v)
  {
    if a != [] {
      WithKeyAppend(key, a[1..], b, v);
      assert (a + b)[1..] == a[1..] + b;
    } else {
      assert a + b == b;
    }
  }

  lemma {:induction false} WithKeyOfLower(key: string -> nat, docs: seq<string>, v: nat)
    requires forall k :: 0 <= k < |docs| ==> key(docs[k]) < v
    ensures WithKey(key, docs, v) == []
  {
    if docs != [] {
      WithKeyOfLower(key, docs[1..], v);
    }
  }

  lemma {:induction false} InsertStable(key: string -> nat, d: string, ranked: seq<string>, v: nat)
    requires RankedBy(key, ranked)
    ensures WithKey(key, InsertByKey(key, d, ranked), v)
         == WithKey(key, ranked, v) + (if key(d) == v then [d] else [])
  {
    if ranked == [] {
      assert [d][1..] == [];
    } else if key(ranked[0]) >= key(d) {
      RankedTail(key, ranked);
      InsertStable(key, d, ranked[1..], v);
      InsertStablePast(key, d, ranked, v);
    } else {
      InsertStableFront(key, d, ranked, v);
    }
  }

  /** Inserting behind the first document, given the claim for the rest. */
  lemma InsertStablePast(key: string -> nat, d: string, ranked: seq<string>, v: nat)
    requires ranked != [] && key(ranked[0]) >= key(d)
    requires WithKey(key, InsertByKey(key, d, ranked[1..]), v)
          == WithKey(key, ranked[1..], v) + (if key(d) == v then [d] else [])
    ensures WithKey(key, InsertByKey(key, d, ranked), v)
         == WithKey(key, ranked, v) + (if key(d) == v then [d] else [])
  {
    var extra := if key(d) == v then [d] else [];
    var head, tail := [ranked[0]], ranked[1..];
    assert InsertByKey(key, d, ranked) == head + InsertByKey(key, d, tail);
    assert ranked == head + tail;
    WithKeyAppend(key, head, InsertByKey(key, d, tail), v);
    WithKeyAppend(key, head, tail, v);
    var h, t := WithKey(key, head, v), WithKey(key, tail, v);
    calc {
      WithKey(key, InsertByKey(key, d, ranked), v);
      h + WithKey(key, InsertByKey(key, d, tail), v);
      h + (t + extra);
      { assert h + (t + extra) == (h + t) + extra; }
      WithKey(key, ranked, v) + extra;
    }
  }

  /** Inserting in front: every ranked document has a lower key than `d`. */
  lemma InsertStableFront(key: string -> nat, d: string, ranked: seq<string>, v: nat)
    requires RankedBy(key, ranked)
    requires ranked != [] && key(ranked[0]) < key(d)
    ensures WithKey(key, InsertByKey(key, d, ranked), v)
         == WithKey(key, ranked, v) + (if key(d) == v then [d] else [])
  {
    assert InsertByKey(key, d, ranked) == [d] + ranked;
    WithKeyAppend(key, [d], ranked, v);
    if key(d) == v {
      forall k | 0 <= k < |ranked| ensures key(ranked[k]) < v {
        if k > 0 {
          assert key(ranked[0]) >= key(ranked[k]);
        }
      }
      WithKeyOfLower(key, ranked, v);
    }
  }

  lemma RankedTail(key: string -> nat, ranked: seq<string>)
    requires ranked != [] && RankedBy(key, ranked)
    ensures RankedBy(key, ranked[1..])
  {
    var tail := ranked[1..];
    forall i, j | 0 <= i < j < |tail| ensures key(tail[i]) >= key(tail[j]) {
      assert tail[i] == ranked[i + 1] && tail[j] == ranked[j + 1];
    }
  }

  /**
   * Stability: for every key value, the documents with that key appear in
   * the sorted list in the order they had in the input.
   */
  lemma {:induction false} SortIsStable(key: string -> nat, docs: seq<string>, v: nat)
    ensures WithKey(key, SortByKey(key, docs), v) == WithKey(key, docs, v)
  {
    if docs != [] {
      var init, last := docs[..|docs| - 1], docs[|docs| - 1];
      SortIsStable(key, init, v);
      SortIsRanked(key, init);
      InsertStable(key, last, SortByKey(key, init), v);
      WithKeyAppend(key, init, [last], v);
      assert docs == init + [last];
    }
  }

  /**
   * What `_rerank_documents` promises: a permutation of the candidates,
   * sorted by non-increasing score, and for each score the candidates with
   * that score in their original order.
   */
  lemma RerankedSpec(question: string, docs: seq<string>)
    ensures multiset(Reranked(question, docs)) == multiset(docs)
    ensures |Reranked(question, docs)| == |docs|
    ensures forall i, j :: 0 <= i < j < |docs| ==>
      Score(question, Reranked(question, docs)[i]) >= Score(question, Reranked(question, docs)[j])
    ensures forall v: nat :: WithKey(ScoreKey(question), Reranked(question, docs), v) == WithKey(ScoreKey(question), docs, v)
  {
    SortPermutation(ScoreKey(question), docs);
    SortIsRanked(ScoreKey(question), docs);
    forall v: nat ensures WithKey(ScoreKey(question), Reranked(question, docs), v) == WithKey(ScoreKey(question), docs, v) {
      SortIsStable(ScoreKey(question), docs, v);
    }
  }

  datatype ScoredDoc = ScoredDoc(score: nat, doc: string)

  function DocsOfScored(scored: seq<ScoredDoc>): (docs: seq<string>)
    ensures |docs| == |scored|
    ensures forall k :: 0 <= k < |scored| ==> docs[k] == scored[k].doc
  {
    seq(|scored|, k requires 0 <= k < |scored| => scored[k].doc)
  }

  lemma {:induction false} InsertAtFirstLower(key: string -> nat, d: string, ranked: seq<string>, j: nat)
    requires j <= |ranked|
    requires forall k :: 0 <= k < j ==> key(ranked[k]) >= key(d)
    requires j < |ranked| ==> key(ranked[j]) < key(d)
    ensures InsertByKey(key, d, ranked) == ranked[..j] + [d] + ranked[j..]
  {
    if j > 0 {
      InsertAtFirstLower(key, d, ranked[1..], j - 1);
      assert ranked[..j] == [ranked[0]] + ranked[1..][..j - 1];
      assert ranked[j..] == ranked[1..][j - 1..];
    }
  }

  /** The first position whose score is below `score` (`|sorted|` when there is none). */
  method FirstBelow(sorted: seq<ScoredDoc>, score: nat) returns (j: nat)
    ensures j <= |sorted|
    ensures forall k :: 0 <= k < j ==> sorted[k].score >= score
    ensures j < |sorted| ==> sorted[j].score < score
  {
    j := 0;
    while j < |sorted| && sorted[j].score >= score
      invariant j <= |sorted|
      invariant forall k :: 0 <= k < j ==> sorted[k].score >= score
    {
      j := j + 1;
    }
  }

  /**
   * One step of the sort: insert `x` into the stably sorted `sorted`,
   * after every entry whose score is at least `x`'s.
   */
  method InsertScored(question: string, sorted: seq<ScoredDoc>, x: ScoredDoc) returns (r: seq<ScoredDoc>)
    requires forall k :: 0 <= k < |sorted| ==> sorted[k].score == Score(question, sorted[k].doc)
    requires x.score == Score(question, x.doc)
    ensures DocsOfScored(r) == InsertByKey(ScoreKey(question), x.doc, DocsOfScored(sorted))
    ensures forall k :: 0 <= k < |r| ==> r[k].score == Score(question, r[k].doc)
  {
    var j := FirstBelow(sorted, x.score);
    r := sorted[..j] + [x] + sorted[j..];
    InsertScoredAt(ScoreKey(question), sorted, x, j);
  }

  /** Splicing `x` in at the first lower score is the insertion step of the sort. */
  lemma InsertScoredAt(key: string -> nat, sorted: seq<ScoredDoc>, x: ScoredDoc, j: nat)
    requires forall k :: 0 <= k < |sorted| ==> sorted[k].score == key(sorted[k].doc)
    requires x.score == key(x.doc)
    requires j <= |sorted|
    requires forall k :: 0 <= k < j ==> sorted[k].score >= x.score
    requires j < |sorted| ==> sorted[j].score < x.score
    ensures DocsOfScored(sorted[..j] + [x] + sorted[j..]) == InsertByKey(key, x.doc, DocsOfScored(sorted))
  {
    var docs := DocsOfScored(sorted);
    InsertAtFirstLower(key, x.doc, docs, j);
    assert DocsOfScored(sorted[..j] + [x] + sorted[j..]) == docs[..j] + [x.doc] + docs[j..];
  }

  /**
   * `_rerank_documents`: score each candidate, then sort the (score, doc)
   * pairs stably by decreasing score and keep the documents.
   */
  method RerankDocuments(question: string, documents: seq<string>) returns (ranked: seq<string>)
    ensures ranked == Reranked(question, documents)
  {
    var scored: seq<ScoredDoc> := [];
    var i := 0;
    while i < |documents|
      invariant 0 <= i <= |documents|
      invariant |scored| == i
      invariant forall k :: 0 <= k < i ==> scored[k] == ScoredDoc(Score(question, documents[k]), documents[k])
    {
      scored := scored + [ScoredDoc(Score(question, documents[i]), documents[i])];
      i := i + 1;
    }
    var sorted: seq<ScoredDoc> := [];
    i := 0;
    while i < |scored|
      invariant 0 <= i <= |scored|
      invariant DocsOfScored(sorted) == Reranked(question, documents[..i])
      invariant forall k :: 0 <= k < |sorted| ==> sorted[k].score == Score(question, sorted[k].doc)
    {
      sorted := InsertScored(question, sorted, scored[i]);
      assert documents[..i + 1][..i] == documents[..i];
      i := i + 1;
    }
    assert documents[..|documents|] == documents;
    ranked := DocsOfScored(sorted);
  }
}
