/**
 * The two ways the retrieval strategies read a question: keyword
 * extraction for the hybrid strategy (`_extract_keywords`) and the
 * complexity classification that drives the adaptive strategy
 * (`_assess_question_complexity`).
 */
module QueryAnalysis {
  import opened Text

  const StopWords: set<string> :=
    {"what", "is", "the", "a", "an", "in", "on", "at", "to", "for", "of", "with", "by"}

  const MaxKeywords := 5

  /** A token survives keyword extraction: longer than three characters and not a stop word. */
  predicate IsKeyword(w: string) {
    |w| > 3 && w !in StopWords
  }

  /** The surviving tokens, in order. */
  function KeptWords(ws: seq<string>): (kept: seq<string>)
    ensures forall i :: 0 <= i < |kept| ==> IsKeyword(kept[i])
  {
    if ws == [] then []
    else (if IsKeyword(ws[0]) then [ws[0]] else []) + KeptWords(ws[1..])
  }

  /** Every surviving token is one of the tokens. */
  lemma {:induction false} KeptAreWords(ws: seq<string>)
    ensures forall i :: 0 <= i < |KeptWords(ws)| ==> KeptWords(ws)[i] in ws
  {
    if ws != [] {
      KeptAreWords(ws[1..]);
    }
  }

  /** `a` can be obtained from `b` by deleting elements. */
  predicate IsSubsequence(a: seq<string>, b: seq<string>)
    decreases |b|
  {
    a == [] || (b != [] && ((a[0] == b[0] && IsSubsequence(a[1..], b[1..])) || IsSubsequence(a, b[1..])))
  }

  lemma {:induction false} KeptIsSubsequence(ws: seq<string>)
    ensures IsSubsequence(KeptWords(ws), ws)
  {
    if ws != [] {
      KeptIsSubsequence(ws[1..]);
      var kept := KeptWords(ws);
      if IsKeyword(ws[0]) {
        assert kept == [ws[0]] + KeptWords(ws[1..]);
        assert kept[0] == ws[0] && kept[1..] == KeptWords(ws[1..]);
      } else {
        assert kept == KeptWords(ws[1..]);
      }
    }
  }

  lemma {:induction false} PrefixIsSubsequence(a: seq<string>, b: seq<string>, n: nat)
    requires IsSubsequence(a, b) && n <= |a|
    ensures IsSubsequence(a[..n], b)
    decreases |b|
  {
    if n > 0 {
      if a[0] == b[0] && IsSubsequence(a[1..], b[1..]) {
        PrefixIsSubsequence(a[1..], b[1..], n - 1);
        assert a[..n][1..] == a[1..][..n - 1];
      } else {
        PrefixIsSubsequence(a, b[1..], n);
      }
    }
  }

  /**
   * `_extract_keywords`: at most five tokens of the lowercased, split
   * question, each longer than three characters and not a stop word, in
   * their order in the question; fewer than five only when no other token
   * survives.
   */
  function Keywords(question: string): (kws: seq<string>)
    ensures |kws| <= MaxKeywords
    ensures forall i :: 0 <= i < |kws| ==> |kws[i]| > 3 && kws[i] !in StopWords
    ensures IsSubsequence(kws, Words(Lower(question)))
    ensures kws <= KeptWords(Words(Lower(question)))
    ensures |kws| < MaxKeywords ==> kws == KeptWords(Words(Lower(question)))
  {
    var kept := KeptWords(Words(Lower(question)));
    KeptIsSubsequence(Words(Lower(question)));
    PrefixIsSubsequence(kept, Words(Lower(question)), if |kept| < MaxKeywords then |kept| else MaxKeywords);
    assert kept[..|kept|] == kept;
    Take(kept, MaxKeywords)
  }

  lemma {:induction false} KeptAppend(a: seq<string>, b: seq<string>)
    ensures KeptWords(a + b) == KeptWords(a) + KeptWords(b)
  {
    if a != [] {
      assert (a + b)[1..] == a[1..] + b;
      KeptAppend(a[1..], b);
    } else {
      assert a + b == b;
    }
  }

  /** The question of the keyword-extraction test, word by word, in three parts. */
  const QuestionStart: seq<string> := ["What", "are", "the", "main"]
  const QuestionMiddle: seq<string> := ["advantages", "of", "transformer", "models"]
  const QuestionEnd: seq<string> := ["over", "recurrent", "neural", "networks?"]
  const ComparisonQuestion: seq<string> := QuestionStart + QuestionMiddle + QuestionEnd

  lemma LowerQuestionStart()
    ensures LowerAll(QuestionStart) == ["what", "are", "the", "main"]
  {
    assert Lower("What") == "what" && Lower("are") == "are" && Lower("the") == "the" && Lower("main") == "main";
  }

  lemma LowerQuestionMiddle()
    ensures LowerAll(QuestionMiddle) == QuestionMiddle
  {
    LowerOfLowercase("advantages");
    LowerOfLowercase("of");
    LowerOfLowercase("transformer");
    LowerOfLowercase("models");
  }

  lemma LowerQuestionEnd()
    ensures LowerAll(QuestionEnd) == QuestionEnd
  {
    LowerOfLowercase("over");
    LowerOfLowercase("recurrent");
    LowerOfLowercase("neural");
    LowerOfLowercase("networks?");
  }

  const LoweredQuestion: seq<string> :=
    ["what", "are", "the", "main"] + QuestionMiddle + QuestionEnd

  lemma LowerComparisonQuestion()
    ensures LowerAll(ComparisonQuestion) == LoweredQuestion
  {
    LowerQuestionStart();
    LowerQuestionMiddle();
    LowerQuestionEnd();
    LowerAllAppend(QuestionStart + QuestionMiddle, QuestionEnd);
    LowerAllAppend(QuestionStart, QuestionMiddle);
  }

  lemma LoweredQuestionIsWords()
    ensures forall i :: 0 <= i < |LoweredQuestion| ==> IsWord(LoweredQuestion[i])
  {
  }

  lemma ComparisonQuestionWords()
    ensures Words(Lower(Join(" ", ComparisonQuestion))) == LoweredQuestion
  {
    LowerJoin(ComparisonQuestion);
    LowerComparisonQuestion();
    LoweredQuestionIsWords();
    WordsOfJoin(LoweredQuestion);
  }

  lemma ComparisonQuestionKept()
    ensures KeptWords(LoweredQuestion) == ["main", "advantages", "transformer", "models", "over", "recurrent", "neural", "networks?"]
  {
    var a, b, c := ["what", "are", "the", "main"], QuestionMiddle, QuestionEnd;
    KeptAppend(a + b, c);
    KeptAppend(a, b);
    KeptOfStart();
    KeptOfMiddle();
    KeptOfEnd();
  }

  lemma KeptOfStart()
    ensures KeptWords(["what", "are", "the", "main"]) == ["main"]
  {
    assert !IsKeyword("what") && !IsKeyword("are") && !IsKeyword("the") && IsKeyword("main");
  }

  lemma KeptOfMiddle()
    ensures KeptWords(QuestionMiddle) == ["advantages", "transformer", "models"]
  {
  }

  lemma KeptOfEnd()
    ensures KeptWords(QuestionEnd) == ["over", "recurrent", "neural", "networks?"]
  {
    assert IsKeyword("over") && IsKeyword("recurrent") && IsKeyword("neural") && IsKeyword("networks?");
    assert KeptWords(["networks?"]) == ["networks?"];
    assert KeptWords(["neural", "networks?"]) == ["neural", "networks?"];
  }

  /**
   * For "What are the main advantages of transformer models over recurrent
   * neural networks?" the extracted keywords keep "advantages" and
   * "transformer", drop "what" and "the", and, because only the first five
   * survivors are kept, also drop "recurrent" (the sixth survivor).
   */
  lemma ComparisonQuestionKeywords()
    ensures Keywords(Join(" ", ComparisonQuestion)) == ["main", "advantages", "transformer", "models", "over"]
    ensures "recurrent" !in Keywords(Join(" ", ComparisonQuestion))
  {
    ComparisonQuestionWords();
    ComparisonQuestionKept();
  }

  datatype Complexity = Simple | Medium | Complex

  const SimpleIndicators: seq<string> := ["what", "who", "when", "where"]
  const ComplexIndicators: seq<string> := ["how", "why", "compare", "difference", "advantages", "disadvantages"]

  /** Python's `any(ind in text for ind in indicators)`. */
  function MentionsAny(text: string, indicators: seq<string>): (b: bool)
    ensures b <==> exists i :: 0 <= i < |indicators| && Contains(text, indicators[i])
  {
    if indicators == [] then false
    else Contains(text, indicators[0]) || MentionsAny(text, indicators[1..])
  }

  /**
   * `_assess_question_complexity`: a substring test on the lowercased
   * question; a complex indicator wins over a simple one.
   */
  function AssessComplexity(question: string): (c: Complexity)
    ensures c == Complex <==>
      exists i :: 0 <= i < |ComplexIndicators| && Contains(Lower(question), ComplexIndicators[i])
    ensures c == Medium <==>
      && (forall i :: 0 <= i < |ComplexIndicators| ==> !Contains(Lower(question), ComplexIndicators[i]))
      && (exists i :: 0 <= i < |SimpleIndicators| && Contains(Lower(question), SimpleIndicators[i]))
    ensures c == Simple <==>
      && (forall i :: 0 <= i < |ComplexIndicators| ==> !Contains(Lower(question), ComplexIndicators[i]))
      && (forall i :: 0 <= i < |SimpleIndicators| ==> !Contains(Lower(question), SimpleIndicators[i]))
  {
    var q := Lower(question);
    if MentionsAny(q, ComplexIndicators) then Complex
    else if MentionsAny(q, SimpleIndicators) then Medium
    else Simple
  }

  lemma LowerWhatIsAi()
    ensures Lower("What is AI?") == "what is ai?"
  {
  }

  /** Each complex indicator has a letter among o, y, c, f, v; a text lacking all five mentions none. */
  lemma NoComplexIndicator(q: string)
    requires 'o' !in q && 'y' !in q && 'c' !in q && 'f' !in q && 'v' !in q
    ensures forall i :: 0 <= i < |ComplexIndicators| ==> !Contains(q, ComplexIndicators[i])
  {
    MissingCharNotContained(q, "how", 'o');
    MissingCharNotContained(q, "why", 'y');
    MissingCharNotContained(q, "compare", 'c');
    MissingCharNotContained(q, "difference", 'f');
    MissingCharNotContained(q, "advantages", 'v');
    MissingCharNotContained(q, "disadvantages", 'v');
  }

  /** "What is AI?" mentions "what" and no complex indicator, so it is classed medium, not simple. */
  lemma WhatIsAiIsMedium()
    ensures AssessComplexity("What is AI?") == Medium
  {
    LowerWhatIsAi();
    NoComplexIndicator("what is ai?");
    assert "what" <= "what is ai?";
    assert Contains("what is ai?", SimpleIndicators[0]);
  }

  /**
   * A question that starts with "How" is complex whatever follows, even when
   * it also contains a simple indicator such as "what".
   */
  lemma HowQuestionIsComplex(rest: string)
    ensures AssessComplexity("How" + rest) == Complex
  {
    LowerAppend("How", rest);
    assert Lower("How") == "how";
    assert "how" <= Lower("How" + rest);
    assert Contains(Lower("How" + rest), ComplexIndicators[0]);
  }

  /**
   * The test is on substrings, not words: "show" contains "how", so a
   * request starting with "Show" is complex too.
   */
  lemma ShowRequestIsComplex(rest: string)
    ensures AssessComplexity("Show" + rest) == Complex
  {
    LowerAppend("Show", rest);
    assert Lower("Show") == "show";
    var q := Lower("Show" + rest);
    assert q[1..] == "how" + Lower(rest);
    assert "how" <= q[1..];
    assert Contains(q, ComplexIndicators[0]);
  }
}
