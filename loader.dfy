/**
 * The arXiv loader script: `create_document_text` and the batching loop of
 * `process_arxiv_data`. The vector store's `add_documents` is a sink that
 * records each batch it is given.
 */
module Loader {
  import opened Wrappers
  import opened Text
  import opened VectorStore

  /** Papers taken from the data file. */
  const MaxPapers := 3000
  /** `BATCH_SIZE`. */
  const BatchSize := 100

  /** One paper record of the JSON file; a field the record lacks is `None`. */
  datatype Paper = Paper(
    id: Option<string>,
    title: Option<string>,
    authors: Option<string>,
    categories: Option<string>,
    summary: Option<string>)

  /** `paper.get(name, "")`. */
  function FieldOr(field: Option<string>): string {
    field.GetOr("")
  }

  const TitleLabel := "Title: "
  const AuthorsLabel := "Authors: "
  const CategoriesLabel := "Categories: "
  const AbstractLabel := "Abstract: "

  /**
   * The document for already stripped fields: the title line, an authors
   * line and a categories line only when those are not empty, then the
   * abstract.
   */
  function DocumentText(title: string, authors: string, categories: string, summary: string): (text: string)
    ensures TitleLabel + title + "\n" <= text
    ensures var footer := AbstractLabel + summary;
      |footer| <= |text| && text[|text| - |footer|..] == footer
  {
    var header := TitleLabel + title + "\n";
    var withAuthors := if authors != "" then header + AuthorsLabel + authors + "\n" else header;
    var withCategories := if categories != "" then withAuthors + CategoriesLabel + categories + "\n" else withAuthors;
    assert header <= withAuthors <= withCategories;
    withCategories + AbstractLabel + summary
  }

  /** `create_document_text`: every field stripped first. */
  function CreateDocumentText(paper: Paper): (text: string)
    ensures TitleLabel + Strip(FieldOr(paper.title)) + "\n" <= text
    ensures var footer := AbstractLabel + Strip(FieldOr(paper.summary));
      |footer| <= |text| && text[|text| - |footer|..] == footer
  {
    var title, authors := Strip(FieldOr(paper.title)), Strip(FieldOr(paper.authors));
    var categories, summary := Strip(FieldOr(paper.categories)), Strip(FieldOr(paper.summary));
    var text := DocumentText(title, authors, categories, summary);
    assert TitleLabel + title + "\n" <= text;
    text
  }

  /**
   * The lines of the document: title first, abstract last, and between
   * them the authors line exactly when the authors are not empty and the
   * categories line exactly when the categories are not empty, in that order.
   */
  function DocumentLines(title: string, authors: string, categories: string, summary: string): (lines: seq<string>)
    ensures 2 <= |lines| <= 4
    ensures lines[0] == TitleLabel + title
    ensures lines[|lines| - 1] == AbstractLabel + summary
    ensures AuthorsLabel + authors in lines <==> authors != ""
    ensures CategoriesLabel + categories in lines <==> categories != ""
    ensures |lines| == 2 + (if authors != "" then 1 else 0) + (if categories != "" then 1 else 0)
  {
    var middle := (if authors != "" then [AuthorsLabel + authors] else [])
                + (if categories != "" then [CategoriesLabel + categories] else []);
    LabelsDiffer(title, summary, authors, categories);
    [TitleLabel + title] + middle + [AbstractLabel + summary]
  }

  /** A line's label tells it apart: no line of one kind equals a line of another. */
  lemma LabelsDiffer(title: string, summary: string, authors: string, categories: string)
    ensures AuthorsLabel + authors != TitleLabel + title
    ensures AuthorsLabel + authors != CategoriesLabel + categories
    ensures AuthorsLabel + authors != AbstractLabel + summary
    ensures CategoriesLabel + categories != TitleLabel + title
    ensures CategoriesLabel + categories != AbstractLabel + summary
  {
    assert (AuthorsLabel + authors)[0] == 'A' && (TitleLabel + title)[0] == 'T';
    assert (CategoriesLabel + categories)[0] == 'C';
    assert (AuthorsLabel + authors)[1] == 'u' && (AbstractLabel + summary)[1] == 'b';
    assert (AbstractLabel + summary)[0] == 'A';
  }

  lemma JoinOfTwo(x: string, y: string)
    ensures Join("\n", [x, y]) == x + "\n" + y
  {
    assert [x, y][1..] == [y];
  }

  lemma JoinOfThree(x: string, y: string, z: string)
    ensures Join("\n", [x, y, z]) == x + "\n" + y + "\n" + z
  {
    assert [x, y, z][1..] == [y, z];
    JoinOfTwo(y, z);
  }

  lemma JoinOfFour(w: string, x: string, y: string, z: string)
    ensures Join("\n", [w, x, y, z]) == w + "\n" + x + "\n" + y + "\n" + z
  {
    assert [w, x, y, z][1..] == [x, y, z];
    JoinOfThree(x, y, z);
  }

  /** The document is its lines joined by newlines. */
  lemma DocumentTextIsLines(title: string, authors: string, categories: string, summary: string)
    ensures DocumentText(title, authors, categories, summary) == Join("\n", DocumentLines(title, authors, categories, summary))
  {
    if authors != "" && categories != "" {
      DocumentWithAllLines(title, authors, categories, summary);
    } else if authors != "" {
      DocumentWithOneMiddleLine(title, AuthorsLabel, authors, categories, summary);
    } else if categories != "" {
      DocumentWithOneMiddleLine(title, CategoriesLabel, authors, categories, summary);
    } else {
      DocumentWithTwoLines(title, authors, categories, summary);
    }
  }

  lemma DocumentWithAllLines(title: string, authors: string, categories: string, summary: string)
    requires authors != "" && categories != ""
    ensures DocumentText(title, authors, categories, summary) == Join("\n", DocumentLines(title, authors, categories, summary))
  {
    var t, a, c, s := TitleLabel + title, AuthorsLabel + authors, CategoriesLabel + categories, AbstractLabel + summary;
    assert DocumentLines(title, authors, categories, summary) == [t, a, c, s];
    JoinOfFour(t, a, c, s);
    Regroup(TitleLabel, title, AuthorsLabel, authors, CategoriesLabel, categories, AbstractLabel, summary);
  }

  /** Exactly one of authors and categories is present; `middleLabel` is its label. */
  lemma DocumentWithOneMiddleLine(title: string, middleLabel: string, authors: string, categories: string, summary: string)
    requires (authors != "") != (categories != "")
    requires middleLabel == if authors != "" then AuthorsLabel else CategoriesLabel
    ensures DocumentText(title, authors, categories, summary) == Join("\n", DocumentLines(title, authors, categories, summary))
  {
    var middle := if authors != "" then authors else categories;
    var t, m, s := TitleLabel + title, middleLabel + middle, AbstractLabel + summary;
    assert DocumentLines(title, authors, categories, summary) == [t, m, s];
    JoinOfThree(t, m, s);
    RegroupThree(TitleLabel, title, middleLabel, middle, AbstractLabel, summary);
  }

  lemma DocumentWithTwoLines(title: string, authors: string, categories: string, summary: string)
    requires authors == "" && categories == ""
    ensures DocumentText(title, authors, categories, summary) == Join("\n", DocumentLines(title, authors, categories, summary))
  {
    var t, s := TitleLabel + title, AbstractLabel + summary;
    assert DocumentLines(title, authors, categories, summary) == [t, s];
    JoinOfTwo(t, s);
    assert TitleLabel + title + "\n" + AbstractLabel + summary == t + "\n" + s;
  }

  lemma RegroupThree(tl: string, t: string, ml: string, m: string, sl: string, s: string)
    ensures tl + t + "\n" + ml + m + "\n" + sl + s == (tl + t) + "\n" + (ml + m) + "\n" + (sl + s)
  {
  }

  /** Concatenation regrouped into label-and-value pairs. */
  lemma Regroup(tl: string, t: string, al: string, a: string, cl: string, c: string, sl: string, s: string)
    ensures tl + t + "\n" + al + a + "\n" + cl + c + "\n" + sl + s
         == (tl + t) + "\n" + (al + a) + "\n" + (cl + c) + "\n" + (sl + s)
  {
  }

  /** `paper.get("id", f"unknown_{i}")`. */
  function PaperId(paper: Paper, i: nat): (pid: string)
    ensures paper.id.Some? ==> pid == paper.id.value
    ensures paper.id.None? ==> "unknown_" <= pid
    ensures paper.id.None? ==> (forall k :: |"unknown_"| <= k < |pid| ==> '0' <= pid[k] <= '9')
    ensures paper.id.None? ==> ParseDecimal(pid[|"unknown_"|..]) == i
  {
    ParseNatToString(i);
    if paper.id.Some? then paper.id.value else "unknown_" + NatToString(i)
  }

  /** The metadata recorded for paper `i`. */
  function PaperMetadata(paper: Paper, i: nat): (meta: Meta)
    ensures meta.Keys == {"paper_id", "title", "authors", "categories", "year"}
    ensures meta["year"] == "2020"
    ensures meta["paper_id"] == PaperId(paper, i)
  {
    map["paper_id" := PaperId(paper, i),
        "title" := FieldOr(paper.title),
        "authors" := FieldOr(paper.authors),
        "categories" := FieldOr(paper.categories),
        "year" := "2020"]
  }

  /** `f"arxiv_{paper.get('id', i)}"`. */
  function DocumentId(paper: Paper, i: nat): (id: string)
    ensures "arxiv_" <= id
    ensures paper.id.Some? ==> id[|"arxiv_"|..] == paper.id.value
    ensures paper.id.None? ==> (forall k :: |"arxiv_"| <= k < |id| ==> '0' <= id[k] <= '9')
    ensures paper.id.None? ==> ParseDecimal(id[|"arxiv_"|..]) == i
  {
    ParseNatToString(i);
    "arxiv_" + (if paper.id.Some? then paper.id.value else NatToString(i))
  }

  /** Papers without an id get distinct default ids and distinct document ids. */
  lemma DefaultIdsDistinct(p: Paper, i: nat, q: Paper, j: nat)
    requires p.id.None? && q.id.None? && i != j
    ensures PaperId(p, i) != PaperId(q, j)
    ensures DocumentId(p, i) != DocumentId(q, j)
  {
  }

  /** One `add_documents(documents, metadatas, ids)` call. */
  datatype Batch = Batch(documents: seq<string>, metadatas: seq<Meta>, ids: seq<string>)

  function Concat<T>(parts: seq<seq<T>>): seq<T> {
    if parts == [] then [] else Concat(parts[..|parts| - 1]) + parts[|parts| - 1]
  }

  function AllDocuments(batches: seq<Batch>): seq<string> {
    Concat(seq(|batches|, k requires 0 <= k < |batches| => batches[k].documents))
  }

  function AllMetadatas(batches: seq<Batch>): seq<Meta> {
    Concat(seq(|batches|, k requires 0 <= k < |batches| => batches[k].metadatas))
  }

  function AllIds(batches: seq<Batch>): seq<string> {
    Concat(seq(|batches|, k requires 0 <= k < |batches| => batches[k].ids))
  }

  lemma AppendBatch(batches: seq<Batch>, b: Batch)
    ensures AllDocuments(batches + [b]) == AllDocuments(batches) + b.documents
    ensures AllMetadatas(batches + [b]) == AllMetadatas(batches) + b.metadatas
    ensures AllIds(batches + [b]) == AllIds(batches) + b.ids
  {
    var bs := batches + [b];
    assert seq(|bs|, k requires 0 <= k < |bs| => bs[k].documents)[..|batches|]
        == seq(|batches|, k requires 0 <= k < |batches| => batches[k].documents);
    assert seq(|bs|, k requires 0 <= k < |bs| => bs[k].metadatas)[..|batches|]
        == seq(|batches|, k requires 0 <= k < |batches| => batches[k].metadatas);
    assert seq(|bs|, k requires 0 <= k < |bs| => bs[k].ids)[..|batches|]
        == seq(|batches|, k requires 0 <= k < |batches| => batches[k].ids);
  }

  /** Builds one of the three lists the loader sends: one value per paper, from the paper and its position. */
  type Builder<T> = (Paper, nat) -> T

  function Column<T>(papers: seq<Paper>, build: Builder<T>): (column: seq<T>)
    ensures |column| == |papers|
  {
    seq(|papers|, i requires 0 <= i < |papers| => build(papers[i], i))
  }

  function DocumentOf(paper: Paper, i: nat): string {
    CreateDocumentText(paper)
  }

  /** Sending one more batch after full ones. */
  lemma SendBatch(batches: seq<Batch>, b: Batch)
    requires WellSized(batches) && forall k :: 0 <= k < |batches| ==> |batches[k].documents| == BatchSize
    requires 1 <= |b.documents| <= BatchSize && |b.metadatas| == |b.ids| == |b.documents|
    ensures WellSized(batches + [b])
    ensures |b.documents| == BatchSize ==> forall k :: 0 <= k < |batches| + 1 ==> |(batches + [b])[k].documents| == BatchSize
    ensures AllDocuments(batches + [b]) == AllDocuments(batches) + b.documents
    ensures AllMetadatas(batches + [b]) == AllMetadatas(batches) + b.metadatas
    ensures AllIds(batches + [b]) == AllIds(batches) + b.ids
  {
    AppendBatch(batches, b);
  }

  /** The batch sizes the loop produces: each holds 1 to 100 of each list, all full but the last. */
  ghost predicate WellSized(batches: seq<Batch>) {
    && (forall k :: 0 <= k < |batches| ==>
          && 1 <= |batches[k].documents| <= BatchSize
          && |batches[k].metadatas| == |batches[k].ids| == |batches[k].documents|)
    && (forall k :: 0 <= k < |batches| - 1 ==> |batches[k].documents| == BatchSize)
  }

  /**
   * `process_arxiv_data`: when the database already exists it loads
   * nothing and succeeds; when the data file is missing (or unreadable,
   * `None`) it fails; otherwise the first 3000 papers are turned into
   * documents, metadatas and ids and sent to the store in batches.
   */
  method ProcessArxivData(databaseExists: bool, dataFileExists: bool, loaded: Option<seq<Paper>>)
    returns (success: bool, batches: seq<Batch>)
    ensures databaseExists ==> success && batches == []
    ensures !databaseExists && !dataFileExists ==> !success && batches == []
    ensures !databaseExists && dataFileExists && loaded.None? ==> !success && batches == []
    ensures !databaseExists && dataFileExists && loaded.Some? ==>
      var papers := Take(loaded.value, MaxPapers);
      && success
      && WellSized(batches)
      && AllDocuments(batches) == Column(papers, DocumentOf)
      && AllMetadatas(batches) == Column(papers, PaperMetadata)
      && AllIds(batches) == Column(papers, DocumentId)
  {
    batches := [];
    if databaseExists {
      return true, batches;
    }
    if !dataFileExists || loaded.None? {
      return false, batches;
    }
    var papers := Take(loaded.value, MaxPapers);
    batches := AddInBatches(papers, DocumentOf, PaperMetadata, DocumentId);
    return true, batches;
  }

  /**
   * The loop's bookkeeping after `i` papers: what has been sent, followed
   * by what is pending, is the first `i` entries of each column.
   */
  ghost predicate SentSoFar(batches: seq<Batch>, documents: seq<string>, metadatas: seq<Meta>, ids: seq<string>,
                            papers: seq<Paper>, document: Builder<string>, metadata: Builder<Meta>, id: Builder<string>, i: nat)
  {
    && i <= |papers|
    && AllDocuments(batches) + documents == Column(papers, document)[..i]
    && AllMetadatas(batches) + metadatas == Column(papers, metadata)[..i]
    && AllIds(batches) + ids == Column(papers, id)[..i]
  }

  lemma ExtendPrefix<T>(done: seq<T>, pending: seq<T>, all: seq<T>, i: nat)
    requires i < |all| && done + pending == all[..i]
    ensures done + (pending + [all[i]]) == all[..i + 1]
  {
    assert all[..i + 1] == all[..i] + [all[i]];
  }

  /** Appending paper `i` to the pending lists. */
  lemma PendingGrows(batches: seq<Batch>, documents: seq<string>, metadatas: seq<Meta>, ids: seq<string>,
                     papers: seq<Paper>, document: Builder<string>, metadata: Builder<Meta>, id: Builder<string>, i: nat)
    requires SentSoFar(batches, documents, metadatas, ids, papers, document, metadata, id, i)
    requires i < |papers|
    ensures SentSoFar(batches, documents + [document(papers[i], i)], metadatas + [metadata(papers[i], i)],
                      ids + [id(papers[i], i)], papers, document, metadata, id, i + 1)
  {
    ExtendPrefix(AllDocuments(batches), documents, Column(papers, document), i);
    ExtendPrefix(AllMetadatas(batches), metadatas, Column(papers, metadata), i);
    ExtendPrefix(AllIds(batches), ids, Column(papers, id), i);
  }

  /** Sending the pending lists as one batch. */
  lemma PendingSent(batches: seq<Batch>, documents: seq<string>, metadatas: seq<Meta>, ids: seq<string>,
                    papers: seq<Paper>, document: Builder<string>, metadata: Builder<Meta>, id: Builder<string>, i: nat)
    requires SentSoFar(batches, documents, metadatas, ids, papers, document, metadata, id, i)
    ensures SentSoFar(batches + [Batch(documents, metadatas, ids)], [], [], [], papers, document, metadata, id, i)
  {
    AppendBatch(batches, Batch(documents, metadatas, ids));
  }

  /**
   * The loop of `process_arxiv_data`: the three lists grow by one entry per
   * paper and are sent to the store and emptied whenever they reach
   * `BATCH_SIZE`; what is left is sent at the end.
   */
  method AddInBatches(papers: seq<Paper>, document: Builder<string>, metadata: Builder<Meta>, id: Builder<string>)
    returns (batches: seq<Batch>)
    ensures WellSized(batches)
    ensures AllDocuments(batches) == Column(papers, document)
    ensures AllMetadatas(batches) == Column(papers, metadata)
    ensures AllIds(batches) == Column(papers, id)
  {
    batches := [];
    var documents: seq<string> := [];
    var metadatas: seq<Meta> := [];
    var ids: seq<string> := [];
    for i := 0 to |papers|
      invariant |documents| == |metadatas| == |ids| < BatchSize
      invariant WellSized(batches)
      invariant forall k :: 0 <= k < |batches| ==> |batches[k].documents| == BatchSize
      invariant SentSoFar(batches, documents, metadatas, ids, papers, document, metadata, id, i)
    {
      PendingGrows(batches, documents, metadatas, ids, papers, document, metadata, id, i);
      documents := documents + [document(papers[i], i)];
      metadatas := metadatas + [metadata(papers[i], i)];
      ids := ids + [id(papers[i], i)];
      if |documents| >= BatchSize {
        SendBatch(batches, Batch(documents, metadatas, ids));
        PendingSent(batches, documents, metadatas, ids, papers, document, metadata, id, i + 1);
        batches := batches + [Batch(documents, metadatas, ids)];
        documents, metadatas, ids := [], [], [];
      }
    }
    if documents != [] {
      SendBatch(batches, Batch(documents, metadatas, ids));
      PendingSent(batches, documents, metadatas, ids, papers, document, metadata, id, |papers|);
      batches := batches + [Batch(documents, metadatas, ids)];
    }
    assert SentSoFar(batches, [], [], [], papers, document, metadata, id, |papers|);
    assert Column(papers, document)[..|papers|] == Column(papers, document);
    assert Column(papers, metadata)[..|papers|] == Column(papers, metadata);
    assert Column(papers, id)[..|papers|] == Column(papers, id);
  }
}
