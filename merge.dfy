/**
 * `_merge_results` of the hybrid strategy: the semantic hits, then the
 * keyword hits, each document kept once (first occurrence wins, compared by
 * text), every kept document with the metadata that came with it.
 */
module Merging {
  import opened Wrappers
  import opened VectorStore

  type Hit = (string, Meta)

  /** Python's `zip(docs, metas)`: pairs up to the shorter list. */
  function Zip(docs: seq<string>, metas: seq<Meta>): (hits: seq<Hit>)
    ensures |hits| == if |docs| < |metas| then |docs| else |metas|
    ensures forall i :: 0 <= i < |hits| ==> hits[i] == (docs[i], metas[i])
  {
    var n := if |docs| < |metas| then |docs| else |metas|;
    seq(n, i requires 0 <= i < n => (docs[i], metas[i]))
  }

  function DocsOf(hits: seq<Hit>): (docs: seq<string>)
    ensures |docs| == |hits|
    ensures forall i :: 0 <= i < |hits| ==> docs[i] == hits[i].0
  {
    seq(|hits|, i requires 0 <= i < |hits| => hits[i].0)
  }

  function MetasOf(hits: seq<Hit>): (metas: seq<Meta>)
    ensures |metas| == |hits|
    ensures forall i :: 0 <= i < |hits| ==> metas[i] == hits[i].1
  {
    seq(|hits|, i requires 0 <= i < |hits| => hits[i].1)
  }

  /** Where `d` first occurs in `docs`. */
  function FirstIndex(docs: seq<string>, d: string): (i: nat)
    requires d in docs
    ensures i < |docs| && docs[i] == d && d !in docs[..i]
  {
    if docs[0] == d then 0
    else
      var j := FirstIndex(docs[1..], d);
      assert docs[..j + 1] == [docs[0]] + docs[1..][..j];
      j + 1
  }

  /** Any position where `d` occurs with no earlier occurrence is its first index. */
  lemma FirstIndexUnique(docs: seq<string>, d: string, i: nat)
    requires i < |docs| && docs[i] == d && d !in docs[..i]
    ensures FirstIndex(docs, d) == i
  {
    var j := FirstIndex(docs, d);
    assert forall k :: 0 <= k < i ==> docs[..i][k] == docs[k];
    assert forall k :: 0 <= k < j ==> docs[..j][k] == docs[k];
  }

  /** Keeps each hit whose document does not occur in an earlier hit. */
  function FirstOccurrences(hits: seq<Hit>): (kept: seq<Hit>)
    ensures |kept| <= |hits|
  {
    if hits == [] then []
    else
      var init, last := hits[..|hits| - 1], hits[|hits| - 1];
      FirstOccurrences(init) + (if last.0 in DocsOf(init) then [] else [last])
  }

  lemma FirstOccurrencesSnoc(hits: seq<Hit>, h: Hit)
    ensures FirstOccurrences(hits + [h]) == FirstOccurrences(hits) + (if h.0 in DocsOf(hits) then [] else [h])
  {
    assert (hits + [h])[..|hits|] == hits;
  }

  /**
   * What the dedup keeps: every kept hit is a hit of the input whose
   * document did not occur before it; kept documents are pairwise distinct;
   * and no document of the input is lost.
   */
  lemma FirstOccurrencesSpec(hits: seq<Hit>)
    ensures |FirstOccurrences(hits)| <= |hits|
    ensures forall k :: 0 <= k < |FirstOccurrences(hits)| ==>
      exists i :: 0 <= i < |hits| && hits[i] == FirstOccurrences(hits)[k] && hits[i].0 !in DocsOf(hits[..i])
    ensures forall k, l :: 0 <= k < l < |FirstOccurrences(hits)| ==>
      FirstOccurrences(hits)[k].0 != FirstOccurrences(hits)[l].0
    ensures forall d :: d in DocsOf(hits) <==> d in DocsOf(FirstOccurrences(hits))
    ensures forall k :: 0 <= k < |FirstOccurrences(hits)| ==>
      FirstOccurrences(hits)[k].0 in DocsOf(hits) &&
      FirstOccurrences(hits)[k] == hits[FirstIndex(DocsOf(hits), FirstOccurrences(hits)[k].0)]
    ensures forall k, l :: 0 <= k < l < |FirstOccurrences(hits)| ==>
      FirstIndex(DocsOf(hits), FirstOccurrences(hits)[k].0) < FirstIndex(DocsOf(hits), FirstOccurrences(hits)[l].0)
  {
    FirstOccurrencesOrdered(hits);
    FirstOccurrencesKept(hits);
    FirstOccurrencesDistinct(hits);
    FirstOccurrencesCover(hits);
  }

  /**
   * The dedup pins down its result: each kept hit is the hit at its
   * document's first index, and kept hits appear in the order of those
   * indices.
   */
  lemma {:induction false} FirstOccurrencesOrdered(hits: seq<Hit>)
    ensures forall k :: 0 <= k < |FirstOccurrences(hits)| ==>
      FirstOccurrences(hits)[k].0 in DocsOf(hits) &&
      FirstOccurrences(hits)[k] == hits[FirstIndex(DocsOf(hits), FirstOccurrences(hits)[k].0)]
    ensures forall k, l :: 0 <= k < l < |FirstOccurrences(hits)| ==>
      FirstIndex(DocsOf(hits), FirstOccurrences(hits)[k].0) < FirstIndex(DocsOf(hits), FirstOccurrences(hits)[l].0)
  {
    if hits != [] {
      var init, last := hits[..|hits| - 1], hits[|hits| - 1];
      FirstOccurrencesOrdered(init);
      FirstOccurrencesCover(init);
      var f, g := FirstOccurrences(init), FirstOccurrences(hits);
      var di, dh := DocsOf(init), DocsOf(hits);
      assert dh == di + [last.0];
      forall d | d in di ensures d in dh && FirstIndex(dh, d) == FirstIndex(di, d) {
        var i := FirstIndex(di, d);
        assert dh[..i] == di[..i];
        FirstIndexUnique(dh, d, i);
      }
      forall k | 0 <= k < |f| ensures f[k].0 in di {
        assert f[k].0 == DocsOf(f)[k];
      }
      if last.0 !in di {
        assert g == f + [last];
        assert dh[..|init|] == di;
        FirstIndexUnique(dh, last.0, |init|);
      } else {
        assert g == f;
      }
    }
  }

  lemma {:induction false} FirstOccurrencesKept(hits: seq<Hit>)
    ensures |FirstOccurrences(hits)| <= |hits|
    ensures forall k :: 0 <= k < |FirstOccurrences(hits)| ==>
      exists i :: 0 <= i < |hits| && hits[i] == FirstOccurrences(hits)[k] && hits[i].0 !in DocsOf(hits[..i])
  {
    if hits != [] {
      var init, last := hits[..|hits| - 1], hits[|hits| - 1];
      FirstOccurrencesKept(init);
      var f, g := FirstOccurrences(init), FirstOccurrences(hits);
      forall k | 0 <= k < |g|
        ensures exists i :: 0 <= i < |hits| && hits[i] == g[k] && hits[i].0 !in DocsOf(hits[..i])
      {
        if k < |f| {
          var i :| 0 <= i < |init| && init[i] == f[k] && init[i].0 !in DocsOf(init[..i]);
          assert hits[..i] == init[..i];
          assert hits[i] == g[k];
        } else {
          assert hits[..|hits| - 1] == init;
          assert hits[|hits| - 1] == g[k];
        }
      }
    }
  }

  lemma {:induction false} FirstOccurrencesDistinct(hits: seq<Hit>)
    ensures forall k, l :: 0 <= k < l < |FirstOccurrences(hits)| ==>
      FirstOccurrences(hits)[k].0 != FirstOccurrences(hits)[l].0
  {
    if hits != [] {
      var init, last := hits[..|hits| - 1], hits[|hits| - 1];
      FirstOccurrencesDistinct(init);
      FirstOccurrencesCover(init);
      var f, g := FirstOccurrences(init), FirstOccurrences(hits);
      if last.0 !in DocsOf(init) {
        assert g == f + [last];
        forall k, l | 0 <= k < l < |g| ensures g[k].0 != g[l].0 {
          if l == |f| {
            assert g[k].0 == DocsOf(f)[k];
          }
        }
      }
    }
  }

  lemma {:induction false} FirstOccurrencesCover(hits: seq<Hit>)
    ensures forall d :: d in DocsOf(hits) <==> d in DocsOf(FirstOccurrences(hits))
  {
    if hits != [] {
      var init, last := hits[..|hits| - 1], hits[|hits| - 1];
      FirstOccurrencesCover(init);
      var f := FirstOccurrences(init);
      assert hits == init + [last];
      assert DocsOf(hits) == DocsOf(init) + [last.0];
      if last.0 !in DocsOf(init) {
        assert DocsOf(FirstOccurrences(hits)) == DocsOf(f) + [last.0];
      } else {
        assert FirstOccurrences(hits) == f;
      }
    }
  }

  /** One step of either loop of `MergeResults`. */
  lemma MergeStep(prefix: seq<Hit>, h: Hit)
    ensures DocsOf(prefix + [h]) == DocsOf(prefix) + [h.0]
    ensures DocsOf(FirstOccurrences(prefix + [h])) ==
      DocsOf(FirstOccurrences(prefix)) + (if h.0 in DocsOf(prefix) then [] else [h.0])
    ensures MetasOf(FirstOccurrences(prefix + [h])) ==
      MetasOf(FirstOccurrences(prefix)) + (if h.0 in DocsOf(prefix) then [] else [h.1])
  {
    FirstOccurrencesSnoc(prefix, h);
    ProjectionsSnoc(prefix, h);
    var f := FirstOccurrences(prefix);
    if h.0 !in DocsOf(prefix) {
      ProjectionsSnoc(f, h);
    } else {
      assert FirstOccurrences(prefix + [h]) == f;
    }
  }

  lemma ProjectionsSnoc(hits: seq<Hit>, h: Hit)
    ensures DocsOf(hits + [h]) == DocsOf(hits) + [h.0]
    ensures MetasOf(hits + [h]) == MetasOf(hits) + [h.1]
  {
    assert forall k :: 0 <= k < |hits| ==> (hits + [h])[k] == hits[k];
  }

  /** The dedup of a list starts with the dedup of any prefix of it. */
  lemma {:induction false} FirstOccurrencesPrefix(a: seq<Hit>, b: seq<Hit>)
    ensures FirstOccurrences(a) <= FirstOccurrences(a + b)
    decreases |b|
  {
    if b != [] {
      var init := b[..|b| - 1];
      FirstOccurrencesPrefix(a, init);
      assert a + b == (a + init) + [b[|b| - 1]];
      FirstOccurrencesSnoc(a + init, b[|b| - 1]);
    } else {
      assert a + b == a;
    }
  }

  /**
   * The merge, or `None` where Python raises: `_merge_results` takes element
   * `[0]` of each outer list, and a failed search has empty outer lists.
   */
  function Merged(semantic: SearchResult, keyword: SearchResult): (r: Option<SearchResult>)
    ensures r.None? <==>
      |semantic.documents| == 0 || |keyword.documents| == 0 || |semantic.metadatas| == 0 || |keyword.metadatas| == 0
    ensures r.Some? ==> |r.value.documents| == 1 && |r.value.metadatas| == 1 && |r.value.documents[0]| == |r.value.metadatas[0]|
  {
    if |semantic.documents| == 0 || |keyword.documents| == 0
       || |semantic.metadatas| == 0 || |keyword.metadatas| == 0 then None
    else
      var kept := FirstOccurrences(Zip(semantic.documents[0], semantic.metadatas[0])
                                   + Zip(keyword.documents[0], keyword.metadatas[0]));
      Some(SearchResult([DocsOf(kept)], [MetasOf(kept)]))
  }

  /**
   * What `_merge_results` promises: it fails exactly when an outer list is
   * empty; otherwise it gives one group whose documents and metadatas have
   * the same length, at most the two inputs' lengths together, with no
   * document twice, beginning with the deduplicated semantic hits and
   * losing no document of either input.
   */
  lemma MergedSpec(semantic: SearchResult, keyword: SearchResult)
    ensures Merged(semantic, keyword).None? <==>
      |semantic.documents| == 0 || |keyword.documents| == 0 || |semantic.metadatas| == 0 || |keyword.metadatas| == 0
    ensures Merged(semantic, keyword).Some? ==>
      var m := Merged(semantic, keyword).value;
      var z1 := Zip(semantic.documents[0], semantic.metadatas[0]);
      var z2 := Zip(keyword.documents[0], keyword.metadatas[0]);
      && |m.documents| == 1 && |m.metadatas| == 1
      && |m.documents[0]| == |m.metadatas[0]| <= |semantic.documents[0]| + |keyword.documents[0]|
      && (forall k, l :: 0 <= k < l < |m.documents[0]| ==> m.documents[0][k] != m.documents[0][l])
      && DocsOf(FirstOccurrences(z1)) <= m.documents[0]
      && (forall k :: |FirstOccurrences(z1)| <= k < |m.documents[0]| ==>
            m.documents[0][k] !in DocsOf(z1) && m.documents[0][k] in DocsOf(z2))
      && (forall d :: d in DocsOf(z1) || d in DocsOf(z2) <==> d in m.documents[0])
      && (forall k :: 0 <= k < |m.documents[0]| ==>
            m.documents[0][k] in DocsOf(z1 + z2) &&
            (m.documents[0][k], m.metadatas[0][k]) == (z1 + z2)[FirstIndex(DocsOf(z1 + z2), m.documents[0][k])])
      && (forall k, l :: 0 <= k < l < |m.documents[0]| ==>
            FirstIndex(DocsOf(z1 + z2), m.documents[0][k]) < FirstIndex(DocsOf(z1 + z2), m.documents[0][l]))
  {
    if Merged(semantic, keyword).Some? {
      var z1 := Zip(semantic.documents[0], semantic.metadatas[0]);
      var z2 := Zip(keyword.documents[0], keyword.metadatas[0]);
      MergedHitsShape(z1, z2);
      MergedHitsTail(z1, z2);
      MergedHitsOrder(z1, z2);
    }
  }

  /** Length, distinctness, the semantic prefix and coverage of the merged documents. */
  lemma MergedHitsShape(z1: seq<Hit>, z2: seq<Hit>)
    ensures var docs := DocsOf(FirstOccurrences(z1 + z2));
      && |docs| <= |z1| + |z2|
      && (forall k, l :: 0 <= k < l < |docs| ==> docs[k] != docs[l])
      && DocsOf(FirstOccurrences(z1)) <= docs
      && (forall d :: d in DocsOf(z1) || d in DocsOf(z2) <==> d in docs)
  {
    var kept := FirstOccurrences(z1 + z2);
    FirstOccurrencesDistinct(z1 + z2);
    FirstOccurrencesCover(z1 + z2);
    FirstOccurrencesPrefix(z1, z2);
    assert DocsOf(z1 + z2) == DocsOf(z1) + DocsOf(z2);
    forall k, l | 0 <= k < l < |kept| ensures DocsOf(kept)[k] != DocsOf(kept)[l] {
      assert kept[k].0 != kept[l].0;
    }
    var f1 := FirstOccurrences(z1);
    assert DocsOf(f1) == DocsOf(kept)[..|f1|];
  }

  /** After the semantic prefix come only keyword documents the semantic hits lack. */
  lemma MergedHitsTail(z1: seq<Hit>, z2: seq<Hit>)
    ensures var docs := DocsOf(FirstOccurrences(z1 + z2));
      forall k :: |FirstOccurrences(z1)| <= k < |docs| ==> docs[k] !in DocsOf(z1) && docs[k] in DocsOf(z2)
  {
    var f1 := FirstOccurrences(z1);
    var docs := DocsOf(FirstOccurrences(z1 + z2));
    MergedHitsShape(z1, z2);
    FirstOccurrencesCover(z1);
    assert DocsOf(f1) == docs[..|f1|];
    forall k | |f1| <= k < |docs| ensures docs[k] !in DocsOf(z1) && docs[k] in DocsOf(z2) {
      assert forall p :: 0 <= p < |f1| ==> DocsOf(f1)[p] != docs[k];
    }
  }

  /**
   * Each merged document carries the metadata of its first hit, and the
   * documents keep the order of their first hits in `z1 + z2`.
   */
  lemma MergedHitsOrder(z1: seq<Hit>, z2: seq<Hit>)
    ensures var kept := FirstOccurrences(z1 + z2);
      var docs, metas := DocsOf(kept), MetasOf(kept);
      && (forall k :: 0 <= k < |docs| ==>
            docs[k] in DocsOf(z1 + z2) &&
            (docs[k], metas[k]) == (z1 + z2)[FirstIndex(DocsOf(z1 + z2), docs[k])])
      && (forall k, l :: 0 <= k < l < |docs| ==>
            FirstIndex(DocsOf(z1 + z2), docs[k]) < FirstIndex(DocsOf(z1 + z2), docs[l]))
  {
    var kept := FirstOccurrences(z1 + z2);
    FirstOccurrencesOrdered(z1 + z2);
    forall k | 0 <= k < |kept| ensures (DocsOf(kept)[k], MetasOf(kept)[k]) == kept[k] {
    }
  }

  /**
   * `_merge_results`: two loops over the zipped hits with a set of seen
   * documents; the second loop also checks the merged length against the
   * sum of the input lengths, a bound it can never reach.
   */
  method MergeResults(results1: SearchResult, results2: SearchResult) returns (r: Option<SearchResult>)
    ensures r == Merged(results1, results2)
  {
    if |results1.documents| == 0 || |results2.documents| == 0
       || |results1.metadatas| == 0 || |results2.metadatas| == 0 {
      return None;
    }
    var docs1, docs2 := results1.documents[0], results2.documents[0];
    var z1 := Zip(docs1, results1.metadatas[0]);
    var z2 := Zip(docs2, results2.metadatas[0]);
    var seen: set<string> := {};
    var mergedDocs: seq<string> := [];
    var mergedMetas: seq<Meta> := [];
    var i := 0;
    while i < |z1|
      invariant 0 <= i <= |z1|
      invariant mergedDocs == DocsOf(FirstOccurrences(z1[..i]))
      invariant mergedMetas == MetasOf(FirstOccurrences(z1[..i]))
      invariant forall d :: d in seen <==> d in DocsOf(z1[..i])
      invariant |mergedDocs| <= i
    {
      var (doc, meta) := z1[i];
      assert z1[..i + 1] == z1[..i] + [z1[i]];
      MergeStep(z1[..i], z1[i]);
      if doc !in seen {
        seen := seen + {doc};
        mergedDocs := mergedDocs + [doc];
        mergedMetas := mergedMetas + [meta];
      }
      i := i + 1;
    }
    assert z1[..|z1|] == z1;
    mergedDocs, mergedMetas := AddKeywordHits(z1, z2, |docs1| + |docs2|, seen, mergedDocs, mergedMetas);
    r := Some(SearchResult([mergedDocs], [mergedMetas]));
  }

  /** The second loop of `_merge_results`, continuing from the semantic hits. */
  method AddKeywordHits(z1: seq<Hit>, z2: seq<Hit>, cap: int, seen0: set<string>,
                        docs0: seq<string>, metas0: seq<Meta>)
    returns (mergedDocs: seq<string>, mergedMetas: seq<Meta>)
    requires |z1| + |z2| <= cap
    requires docs0 == DocsOf(FirstOccurrences(z1)) && metas0 == MetasOf(FirstOccurrences(z1))
    requires forall d :: d in seen0 <==> d in DocsOf(z1)
    requires |docs0| <= |z1|
    ensures mergedDocs == DocsOf(FirstOccurrences(z1 + z2))
    ensures mergedMetas == MetasOf(FirstOccurrences(z1 + z2))
  {
    var seen := seen0;
    mergedDocs, mergedMetas := docs0, metas0;
    assert z1 + z2[..0] == z1;
    var j := 0;
    while j < |z2|
      invariant 0 <= j <= |z2|
      invariant mergedDocs == DocsOf(FirstOccurrences(z1 + z2[..j]))
      invariant mergedMetas == MetasOf(FirstOccurrences(z1 + z2[..j]))
      invariant forall d :: d in seen <==> d in DocsOf(z1 + z2[..j])
      invariant |mergedDocs| <= |z1| + j
    {
      var (doc, meta) := z2[j];
      assert z1 + z2[..j + 1] == (z1 + z2[..j]) + [z2[j]];
      MergeStep(z1 + z2[..j], z2[j]);
      if doc !in seen && |mergedDocs| < cap {
        seen := seen + {doc};
        mergedDocs := mergedDocs + [doc];
        mergedMetas := mergedMetas + [meta];
      }
      j := j + 1;
    }
    assert z2[..|z2|] == z2;
  }
}
