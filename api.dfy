/**
 * Response assembly of the `/query` endpoint: the numbered source list, the
 * numbered context passed to the model, the conversation block put in front
 * of it, and the request flow that ties retrieval, memory, the model and the
 * metrics together.
 */
module Api {
  import opened Wrappers
  import opened Text
  import opened VectorStore
  import opened ModularRag
  import opened Memory
  import opened Metrics
  import opened Gemini

  // ---------------------------------------------------------------------
  // format_sources

  const SourceWord := "Source "
  const UnknownTitle := "Unknown title"

  /** `f"Source {i+1}"` for position `i`. */
  function SourceLabel(i: nat): string {
    SourceWord + NatToString(i + 1)
  }

  /** `meta.get('title', 'Unknown title')`. */
  function TitleOr(meta: Meta): string {
    if "title" in meta then meta["title"] else UnknownTitle
  }

  /** `meta.get('authors')` is truthy. */
  predicate HasAuthors(meta: Meta) {
    "authors" in meta && meta["authors"] != ""
  }

  /**
   * The source line for the metadata at position `i`: an empty metadata
   * gives the bare label; otherwise the label, the title (or "Unknown
   * title"), and " by <authors>" only when the authors are not empty.
   */
  function SourceLine(i: nat, meta: Meta): string {
    LabelledLine(SourceLabel(i), meta)
  }

  /** The line for `meta` behind the label `name`. */
  function LabelledLine(name: string, meta: Meta): string {
    if meta == map[] then name
    else
      var titled := name + ": " + TitleOr(meta);
      if HasAuthors(meta) then titled + " by " + meta["authors"] else titled
  }

  /**
   * The parts of a source line: the label always comes first; an empty
   * metadata gives nothing more, any other gives ": " and the title, and
   * the line ends with " by <authors>" exactly when the authors are given.
   */
  lemma SourceLineShape(i: nat, meta: Meta)
    ensures SourceLabel(i) <= SourceLine(i, meta)
    ensures meta == map[] <==> SourceLine(i, meta) == SourceLabel(i)
    ensures meta != map[] ==> SourceLabel(i) + ": " + TitleOr(meta) <= SourceLine(i, meta)
    ensures meta != map[] && HasAuthors(meta) ==>
      var line, tail := SourceLine(i, meta), " by " + meta["authors"];
      |tail| <= |line| && line[|line| - |tail|..] == tail
    ensures meta != map[] && !HasAuthors(meta) ==> SourceLine(i, meta) == SourceLabel(i) + ": " + TitleOr(meta)
  {
    LabelledLineShape(SourceLabel(i), meta);
  }

  lemma LabelledLineShape(name: string, meta: Meta)
    ensures name <= LabelledLine(name, meta)
    ensures meta == map[] <==> LabelledLine(name, meta) == name
    ensures meta != map[] ==> name + ": " + TitleOr(meta) <= LabelledLine(name, meta)
    ensures meta != map[] && HasAuthors(meta) ==>
      var line, tail := LabelledLine(name, meta), " by " + meta["authors"];
      |tail| <= |line| && line[|line| - |tail|..] == tail
    ensures meta != map[] && !HasAuthors(meta) ==> LabelledLine(name, meta) == name + ": " + TitleOr(meta)
  {
    if meta != map[] {
      var titled := name + ": " + TitleOr(meta);
      assert name <= name + ": " <= titled;
      if HasAuthors(meta) {
        var tail := " by " + meta["authors"];
        assert LabelledLine(name, meta) == titled + tail;
        assert titled <= LabelledLine(name, meta);
      }
    }
  }

  /** The longest prefix of `s` made of decimal digits. */
  function DigitPrefix(s: string): (d: string)
    ensures d <= s
    ensures forall k :: 0 <= k < |d| ==> '0' <= d[k] <= '9'
    ensures |d| < |s| ==> !('0' <= s[|d|] <= '9')
  {
    if s != [] && '0' <= s[0] <= '9' then [s[0]] + DigitPrefix(s[1..]) else []
  }

  lemma {:induction false} DigitPrefixOfNumber(digits: string, rest: string)
    requires forall k :: 0 <= k < |digits| ==> '0' <= digits[k] <= '9'
    requires rest == [] || !('0' <= rest[0] <= '9')
    ensures DigitPrefix(digits + rest) == digits
  {
    if digits != [] {
      assert (digits + rest)[1..] == digits[1..] + rest;
      DigitPrefixOfNumber(digits[1..], rest);
    }
  }

  /** The number a source line carries after "Source ", if any. */
  function SourceNumber(line: string): Option<nat> {
    if SourceWord <= line && DigitPrefix(line[|SourceWord|..]) != [] then
      Some(ParseDecimal(DigitPrefix(line[|SourceWord|..])))
    else None
  }

  lemma {:induction false} NumberAfterWord(number: string, rest: string)
    requires forall k :: 0 <= k < |number| ==> '0' <= number[k] <= '9'
    requires number != []
    requires rest == [] || rest[0] == ':'
    ensures SourceNumber(SourceWord + number + rest) == Some(ParseDecimal(number))
  {
    var line := SourceWord + number + rest;
    assert line[|SourceWord|..] == number + rest;
    DigitPrefixOfNumber(number, rest);
  }

  /** Every source line reads back as its 1-based position. */
  lemma SourceLineNumbered(i: nat, meta: Meta)
    ensures SourceNumber(SourceLine(i, meta)) == Some(i + 1)
  {
    var line, name := SourceLine(i, meta), SourceLabel(i);
    SourceLineShape(i, meta);
    var rest := line[|name|..];
    assert line == name + rest;
    assert rest == [] || rest[0] == ':' by {
      if meta != map[] {
        assert name + ": " <= name + ": " + TitleOr(meta) <= line;
        assert rest[0] == (name + ": ")[|name|];
      }
    }
    NumberAfterWord(NatToString(i + 1), rest);
    ParseNatToString(i + 1);
  }

  /** The body of `format_sources`' loop for the metadata at position `i`. */
  method SourceEntry(i: nat, meta: Meta) returns (source: string)
    ensures source == SourceLine(i, meta)
  {
    if meta != map[] {
      source := SourceWord + NatToString(i + 1) + ": " + TitleOr(meta);
      if HasAuthors(meta) {
        source := source + " by " + meta["authors"];
      }
    } else {
      source := SourceWord + NatToString(i + 1);
    }
  }

  /** The list `format_sources` returns. */
  function Sources(metadatas: seq<Meta>): (sources: seq<string>)
    ensures |sources| == |metadatas|
    ensures forall i :: 0 <= i < |sources| ==> SourceLabel(i) <= sources[i]
  {
    seq(|metadatas|, i requires 0 <= i < |metadatas| => SourceLine(i, metadatas[i]))
  }

  /** `format_sources`: one line per metadata, in order. */
  method FormatSources(metadatas: seq<Meta>) returns (sources: seq<string>)
    ensures sources == Sources(metadatas)
  {
    sources := [];
    for i := 0 to |metadatas|
      invariant |sources| == i
      invariant forall k :: 0 <= k < i ==> sources[k] == SourceLine(k, metadatas[k])
    {
      var source := SourceEntry(i, metadatas[i]);
      sources := sources + [source];
    }
  }

  /**
   * The source list names each result once and in order: line `i` carries
   * number `i + 1`, so no two lines carry the same number.
   */
  lemma SourcesNumberedInOrder(metadatas: seq<Meta>)
    ensures |Sources(metadatas)| == |metadatas|
    ensures forall i :: 0 <= i < |metadatas| ==> SourceNumber(Sources(metadatas)[i]) == Some(i + 1)
    ensures forall i, j :: 0 <= i < j < |metadatas| ==> Sources(metadatas)[i] != Sources(metadatas)[j]
  {
    var sources := Sources(metadatas);
    forall i | 0 <= i < |sources| ensures SourceNumber(sources[i]) == Some(i + 1) {
      SourceLineNumbered(i, metadatas[i]);
    }
  }

  // ---------------------------------------------------------------------
  // format_context

  /** `"[Source {i+1}]"`, then `" " + title` when the metadata has a title, a newline, the document. */
  function ContextEntry(i: nat, document: string, meta: Meta): string {
    var tag := "[" + SourceLabel(i) + "]";
    (if meta != map[] && "title" in meta then tag + " " + meta["title"] else tag) + "\n" + document
  }

  /**
   * A context entry starts with the bracketed source label, ends with the
   * document on its own line, and names the title in between exactly when
   * the metadata has one.
   */
  lemma ContextEntryShape(i: nat, document: string, meta: Meta)
    ensures "[" + SourceLabel(i) + "]" <= ContextEntry(i, document, meta)
    ensures var entry, tail := ContextEntry(i, document, meta), "\n" + document;
      |tail| <= |entry| && entry[|entry| - |tail|..] == tail
    ensures meta != map[] && "title" in meta ==> "[" + SourceLabel(i) + "] " + meta["title"] + "\n" <= ContextEntry(i, document, meta)
    ensures !(meta != map[] && "title" in meta) ==> ContextEntry(i, document, meta) == "[" + SourceLabel(i) + "]\n" + document
  {
    var tag := "[" + SourceLabel(i) + "]";
    var info := if meta != map[] && "title" in meta then tag + " " + meta["title"] else tag;
    assert ContextEntry(i, document, meta) == (info + "\n") + document;
    assert tag <= info;
    if meta != map[] && "title" in meta {
      assert tag + " " + meta["title"] + "\n" == info + "\n";
    } else {
      assert tag + "\n" + document == "[" + SourceLabel(i) + "]\n" + document;
    }
  }

  /** The entries `format_context` joins: documents paired with metadatas up to the shorter list. */
  function ContextEntries(documents: seq<string>, metadatas: seq<Meta>): (entries: seq<string>)
    ensures |entries| <= |documents| && |entries| <= |metadatas|
    ensures |entries| == |documents| || |entries| == |metadatas|
  {
    var n := if |documents| < |metadatas| then |documents| else |metadatas|;
    seq(n, i requires 0 <= i < n => ContextEntry(i, documents[i], metadatas[i]))
  }

  /** The body of `format_context`'s loop for position `i`. */
  method ContextEntryFor(i: nat, document: string, meta: Meta) returns (entry: string)
    ensures entry == ContextEntry(i, document, meta)
  {
    var sourceInfo := "[" + SourceWord + NatToString(i + 1) + "]";
    if meta != map[] && "title" in meta {
      sourceInfo := sourceInfo + " " + meta["title"];
    }
    entry := sourceInfo + "\n" + document;
  }

  /** `format_context`: the entries joined by a blank line. */
  method FormatContext(documents: seq<string>, metadatas: seq<Meta>) returns (context: string)
    ensures context == Join("\n\n", ContextEntries(documents, metadatas))
  {
    var formatted: seq<string> := [];
    var n := if |documents| < |metadatas| then |documents| else |metadatas|;
    for i := 0 to n
      invariant |formatted| == i
      invariant forall k :: 0 <= k < i ==> formatted[k] == ContextEntry(k, documents[k], metadatas[k])
    {
      var entry := ContextEntryFor(i, documents[i], metadatas[i]);
      formatted := formatted + [entry];
    }
    assert formatted == ContextEntries(documents, metadatas);
    context := Join("\n\n", formatted);
  }

  // ---------------------------------------------------------------------
  // The conversation block in front of the context

  /** How many stored turns the prompt shows. */
  const HistoryLimit := 3

  const PreviousHeader := "\n\nPrevious conversation:\n"
  const CurrentHeader := "\n\nCurrent context:\n"

  /** `f"Q: {conv['question']}\nA: {conv['answer']}"`. */
  function TurnLine(turn: Turn): string {
    "Q: " + turn.question + "\nA: " + turn.answer
  }

  function TurnLines(turns: seq<Turn>): seq<string> {
    seq(|turns|, i requires 0 <= i < |turns| => TurnLine(turns[i]))
  }

  /**
   * The formatted context with the conversation put in front of it: the
   * given turns (most recent first, as the memory returns them) are shown
   * oldest first; no turns leave the context as it is.
   */
  function WithHistory(history: seq<Turn>, context: string): (r: string)
    ensures history == [] ==> r == context
    ensures history != [] ==> PreviousHeader <= r && |r| > |context|
  {
    if history == [] then context
    else PreviousHeader + Join("\n", TurnLines(Reversed(history))) + CurrentHeader + context
  }

  lemma WithHistorySpec(history: seq<Turn>, context: string)
    ensures history == [] <==> WithHistory(history, context) == context
    ensures history != [] ==> PreviousHeader <= WithHistory(history, context)
    ensures history != [] ==>
      var r := WithHistory(history, context);
      |CurrentHeader + context| <= |r| && r[|r| - |CurrentHeader + context|..] == CurrentHeader + context
  {
    if history != [] {
      var middle := PreviousHeader + Join("\n", TurnLines(Reversed(history)));
      assert WithHistory(history, context) == middle + (CurrentHeader + context);
    }
  }

  lemma {:induction false} TakeOfTake<T>(xs: seq<T>, m: nat, n: nat)
    requires n <= m
    ensures Take(Take(xs, m), n) == Take(xs, n)
  {
  }

  lemma {:induction false} ReversedPrefixOfReversed<T>(xs: seq<T>, m: nat)
    requires m <= |xs|
    ensures Reversed(Take(Reversed(xs), m)) == xs[|xs| - m..]
  {
    var r := Reversed(Take(Reversed(xs), m));
    forall i | 0 <= i < m ensures r[i] == xs[|xs| - m + i] {
      assert Take(Reversed(xs), m)[m - 1 - i] == Reversed(xs)[m - 1 - i];
    }
  }

  /**
   * After a session has stored `turns` in order, the prompt's conversation
   * block shows the last three of them, in the order they were asked.
   */
  lemma PromptShowsLastTurnsInOrder(turns: seq<Turn>, context: string)
    ensures turns == [] ==> WithHistory(Take(StoredAll(turns, []), HistoryLimit), context) == context
    ensures var shown := if |turns| < HistoryLimit then |turns| else HistoryLimit;
      turns != [] ==>
        WithHistory(Take(StoredAll(turns, []), HistoryLimit), context)
          == PreviousHeader + Join("\n", TurnLines(turns[|turns| - shown..])) + CurrentHeader + context
  {
    var shown := if |turns| < HistoryLimit then |turns| else HistoryLimit;
    var history := Take(StoredAll(turns, []), HistoryLimit);
    StoredAllKeepsLastTen(turns);
    TakeOfTake(Reversed(turns), MaxTurns, HistoryLimit);
    assert Take(Reversed(turns), HistoryLimit) == Take(Reversed(turns), shown);
    ReversedPrefixOfReversed(turns, shown);
    assert |history| == shown;
  }

  // ---------------------------------------------------------------------
  // The prompt (SYSTEM_PROMPT_TEMPLATE with its two fields filled in)

  const PromptIntro := "\nYou are a helpful AI assistant for academic research. Your task is to help researchers find scientific articles and answer questions strictly based on the provided context.\n\nCONTEXT FOR ANSWERING:\n"
  const PromptInstructions := "\n\nINSTRUCTIONS:\n1. Answer ONLY based on the provided context\n2. If there is not enough information in the context, politely inform the user\n3. Be precise and academic in your responses\n4. Structure the answer if appropriate\n5. Do not invent information that is not in the context\n\nQUESTION: "
  const PromptClose := "\n\nANSWER:\n"

  /** The template with the context after its introduction and the question just before its close. */
  function Prompt(context: string, question: string): (prompt: string)
    ensures PromptIntro + context + PromptInstructions <= prompt
    ensures |question + PromptClose| <= |prompt| && prompt[|prompt| - |question + PromptClose|..] == question + PromptClose
  {
    PromptIntro + context + PromptInstructions + question + PromptClose
  }

  // ---------------------------------------------------------------------
  // query_documents

  const NoDocumentsAnswer := "I couldn't find any relevant research papers in my database to answer your question. Please try rephrasing or asking about a different topic."

  /** `QueryResponse` without its floating-point `processing_time`. */
  datatype QueryResponse = QueryResponse(answer: string, sources: seq<string>, context: seq<string>, strategy: string)

  /** The exceptions `query_documents` turns into a 500 response. */
  datatype QueryError =
      /** `execute_rag` raised */
    | RetrievalFailed(error: RagError)
      /** the nested hybrid shape reached `format_sources` and `QueryResponse` */
    | MalformedResult

  /**
   * The reply to a question, given what retrieval gave, the session's stored
   * turns (most recent first) and the model's outcomes for each prompt.
   */
  function Answered(rag: Result<RagResult, RagError>, model: string -> nat -> Outcome, question: string,
                    strategy: Strategy, history: seq<Turn>): (r: Result<QueryResponse, QueryError>)
    ensures r.Err? <==> rag.Err? || (!rag.value.NoDocuments() && rag.value.Nested?)
    ensures r.Ok? ==> r.value.strategy == strategy.Value()
    ensures r.Ok? && !rag.value.NoDocuments() ==> r.value.context == rag.value.documents && |r.value.sources| == |rag.value.metadatas|
  {
    if rag.Err? then Err(RetrievalFailed(rag.error))
    else if rag.value.NoDocuments() then Ok(QueryResponse(NoDocumentsAnswer, [], [], strategy.Value()))
    else if rag.value.Nested? then Err(MalformedResult)
    else
      var documents, metadatas := rag.value.documents, rag.value.metadatas;
      var context := WithHistory(Take(history, HistoryLimit), Join("\n\n", ContextEntries(documents, metadatas)));
      Ok(QueryResponse(Response(model(Prompt(context, question))), Sources(metadatas), documents, strategy.Value()))
  }

  /**
   * What a request ends in: retrieval errors and the nested hybrid shape
   * fail; an empty retrieval gives the canned answer with no sources and no
   * context; otherwise the retrieved documents are the context, each
   * metadata gives one numbered source, and the answer is the model's reply
   * to a prompt holding the question.
   */
  lemma AnsweredSpec(rag: Result<RagResult, RagError>, model: string -> nat -> Outcome, question: string,
                     strategy: Strategy, history: seq<Turn>)
    ensures var r := Answered(rag, model, question, strategy, history);
      && (r.Err? <==> rag.Err? || (!rag.value.NoDocuments() && rag.value.Nested?))
      && (r.Ok? ==> r.value.strategy == strategy.Value())
      && (rag.Ok? && rag.value.NoDocuments() ==>
            r == Ok(QueryResponse(NoDocumentsAnswer, [], [], strategy.Value())))
      && (r.Ok? && !rag.value.NoDocuments() ==>
            && r.value.context == rag.value.documents
            && |r.value.sources| == |rag.value.metadatas|
            && (forall i :: 0 <= i < |r.value.sources| ==> SourceNumber(r.value.sources[i]) == Some(i + 1)))
    ensures var r := Answered(rag, model, question, strategy, history);
      r.Ok? && !rag.value.NoDocuments() ==>
        var context := Join("\n\n", ContextEntries(rag.value.documents, rag.value.metadatas));
        && r.value.sources == Sources(rag.value.metadatas)
        && r.value.answer == Response(model(Prompt(WithHistory(Take(history, HistoryLimit), context), question)))
  {
    if rag.Ok? && rag.value.Flat? {
      SourcesNumberedInOrder(rag.value.metadatas);
    }
  }

  /**
   * Through `/query` the hybrid strategy never gives a model answer: it
   * fails, or, when nothing was retrieved, gives the canned answer.
   */
  lemma HybridNeverAnswers(search: Search, model: string -> nat -> Outcome, question: string, topK: int, history: seq<Turn>)
    ensures var r := Answered(ExecuteRag(search, question, ByValue(Hybrid), Some(topK)), model, question, Hybrid, history);
      r.Err? || r.value.answer == NoDocumentsAnswer
  {
    var rag := ExecuteRag(search, question, ByValue(Hybrid), Some(topK));
    assert rag == HybridRag(search, question, topK);
    assert rag.Ok? ==> rag.value.Nested?;
  }

  /**
   * The part of `query_documents` between retrieval and storing: format the
   * context, put the session's last three turns in front of it, ask the
   * model, and format the sources.
   */
  method AnswerFromDocuments(memory: ConversationMemory, model: string -> nat -> Outcome, question: string,
                             documents: seq<string>, metadatas: seq<Meta>, sessionId: string)
    returns (answer: string, sources: seq<string>)
    ensures var history := Take(HistoryOf(memory.conversationHistory, sessionId), HistoryLimit);
      answer == Response(model(Prompt(WithHistory(history, Join("\n\n", ContextEntries(documents, metadatas))), question)))
    ensures sources == Sources(metadatas)
  {
    var formattedContext := FormatContext(documents, metadatas);
    var conversationHistory := memory.GetConversationHistory(sessionId, HistoryLimit);
    if conversationHistory != [] {
      var historyContext := PreviousHeader + Join("\n", TurnLines(Reversed(conversationHistory)));
      formattedContext := historyContext + CurrentHeader + formattedContext;
    }
    var prompt := PromptIntro + formattedContext + PromptInstructions + question + PromptClose;
    var calls, sleeps;
    answer, calls, sleeps := GenerateResponse(model(prompt));
    sources := FormatSources(metadatas);
  }

  /**
   * `query_documents` for one request of session `sessionId` at time `now`
   * taking `elapsed` seconds. A reply is stored in the session's history;
   * a failure stores nothing and records a failed request in the metrics.
   */
  method QueryDocuments(memory: ConversationMemory, metrics: PerformanceMetrics, search: Search,
                        model: string -> nat -> Outcome, question: string, strategy: Strategy, topK: int,
                        sessionId: string, now: int, elapsed: real)
    returns (r: Result<QueryResponse, QueryError>)
    requires memory.Valid() && metrics.Valid()
    modifies memory, metrics
    ensures memory.Valid() && metrics.Valid()
    ensures r == Answered(ExecuteRag(search, question, ByValue(strategy), Some(topK)), model, question, strategy,
                          HistoryOf(old(memory.conversationHistory), sessionId))
    ensures memory.memoryCache == old(memory.memoryCache)
    ensures r.Ok? ==>
      && memory.conversationHistory == Stored(old(memory.conversationHistory), sessionId,
                                              Turn(now, question, r.value.answer, r.value.sources))
      && metrics.requestTimes == old(metrics.requestTimes)
      && metrics.successCount == old(metrics.successCount)
      && metrics.errorCount == old(metrics.errorCount)
    ensures r.Err? ==>
      && memory.conversationHistory == old(memory.conversationHistory)
      && metrics.requestTimes == Window(old(metrics.requestTimes), elapsed)
      && metrics.successCount == old(metrics.successCount)
      && metrics.errorCount == old(metrics.errorCount) + 1
  {
    var ragResults := ExecuteRag(search, question, ByValue(strategy), Some(topK));
    if ragResults.Err? {
      metrics.RecordRequest(elapsed, false);
      return Err(RetrievalFailed(ragResults.error));
    }
    var rag := ragResults.value;
    if rag.NoDocuments() {
      var response := QueryResponse(NoDocumentsAnswer, [], [], strategy.Value());
      memory.StoreConversation(sessionId, question, response.answer, response.sources, now);
      return Ok(response);
    }
    if rag.Nested? {
      metrics.RecordRequest(elapsed, false);
      return Err(MalformedResult);
    }
    var answer, sources := AnswerFromDocuments(memory, model, question, rag.documents, rag.metadatas, sessionId);
    memory.StoreConversation(sessionId, question, answer, sources, now);
    r := Ok(QueryResponse(answer, sources, rag.documents, strategy.Value()));
  }
}
