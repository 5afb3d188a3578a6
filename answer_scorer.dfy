/**
 * The rule-based answer analysis of the interview results view,
 * `analyzeAnswer(content, type, question)`: word and sentence counts,
 * keyword signals per question type that select fixed scores and canned
 * strengths and improvements, a relevance score from the overlap with the
 * question's words, the five most frequent answer words, and the overall
 * clarity.
 *
 * Each regular-expression test is a named predicate over the text; the
 * case-insensitive ones compare ASCII-folded text with lower-case
 * alternatives. Quotients are exact rationals and `Math.round` is RoundDiv.
 */
module AnswerScorer {
  import opened Common
  import opened Text
  import opened StableSort

  // ---------------------------------------------------------------------
  // Signals
  // ---------------------------------------------------------------------

  /** `/situation|context|background/i`. */
  predicate HasContext(content: string)
  {
    MatchesAnyCi(content, ["situation", "context", "background"])
  }

  /** `/action|approach|steps|implemented/i`. */
  predicate HasAction(content: string)
  {
    MatchesAnyCi(content, ["action", "approach", "steps", "implemented"])
  }

  /** `/result|outcome|impact|improved|increased|decreased/i`. */
  predicate HasResult(content: string)
  {
    MatchesAnyCi(content, ["result", "outcome", "impact", "improved", "increased", "decreased"])
  }

  /**
   * `/\d+p/i` for a literal p: some digit is immediately followed by p, since
   * a run of digits ending just before p contains that digit.
   */
  predicate DigitsThen(content: string, p: string)
  {
    exists i | 0 <= i < |content| :: IsDigit(content[i]) && OccursAt(Fold(content), p, i + 1)
  }

  /** `/\d+%|\d+ percent|increased by|decreased by|improved|specific|exactly|precisely/i`. */
  predicate HasSpecificDetails(content: string)
  {
    DigitsThen(content, "%") || DigitsThen(content, " percent")
    || MatchesAnyCi(content, ["increased by", "decreased by", "improved", "specific", "exactly", "precisely"])
  }

  /** `/algorithm|framework|architecture|system|design|implementation|technology|concept|principle/i`. */
  predicate HasTechnicalTerms(content: string)
  {
    MatchesAnyCi(content, ["algorithm", "framework", "architecture", "system", "design",
                           "implementation", "technology", "concept", "principle"])
  }

  /** `/because|therefore|this means|as a result|consequently|due to|explains|clarifies/i`. */
  predicate HasExplanation(content: string)
  {
    MatchesAnyCi(content, ["because", "therefore", "this means", "as a result", "consequently",
                           "due to", "explains", "clarifies"])
  }

  /** `/\/\/|\*\/|#|\*\*|--/i`. */
  predicate HasComments(content: string)
  {
    MatchesAnyCi(content, ["//", "*/", "#", "**", "--"])
  }

  /** No line terminator in s[i..j]: the span `.*` can match. */
  predicate OnOneLine(s: string, i: nat, j: nat)
  {
    forall k :: i <= k < j && k < |s| ==> !IsLineTerminator(s[k])
  }

  /** `/if.*error/i`: "if", later "error", with no line break between them. */
  predicate IfThenError(content: string)
  {
    exists i, j | 0 <= i && i + 2 <= j <= |content| :: OccursAt(Fold(content), "if", i)
      && OccursAt(Fold(content), "error", j) && OnOneLine(content, i + 2, j)
  }

  /** `/try|catch|if.*error|exception|throw|finally/i`. */
  predicate HasErrorHandling(content: string)
  {
    MatchesAnyCi(content, ["try", "catch", "exception", "throw", "finally"]) || IfThenError(content)
  }

  /** `/optimize|complexity|efficient|performance|O\(n\)|O\(log n\)/i`. */
  predicate HasOptimization(content: string)
  {
    MatchesAnyCi(content, ["optimize", "complexity", "efficient", "performance", "o(n)", "o(log n)"])
  }

  // ---------------------------------------------------------------------
  // Canned strengths and improvements
  // ---------------------------------------------------------------------

  /** The strengths and improvements the analysis can push. */
  datatype Feedback =
    StarStrength
    | StarAdvice
    | DetailStrength
    | DetailAdvice
    | ExpandAdvice
    | ConciseAdvice
    | LengthStrength
    | TermsStrength
    | TermsAdvice
    | ExplanationStrength
    | ExplanationAdvice
    | SentenceAdvice
    | CommentStrength
    | CommentAdvice
    | ErrorStrength
    | ErrorAdvice
    | OptimizationStrength
    | OptimizationAdvice

  /** The text pushed for each feedback entry. */
  function FeedbackText(f: Feedback): string
  {
    match f
    case StarStrength => "Well-structured response using the STAR method"
    case StarAdvice => "Structure your answer using the STAR method (Situation, Task, Action, Result)"
    case DetailStrength => "Good use of specific details and metrics"
    case DetailAdvice => "Include specific numbers and metrics to quantify your impact"
    case ExpandAdvice => "Expand your answer with more details about the situation and your actions"
    case ConciseAdvice => "Consider making your response more concise while maintaining key details"
    case LengthStrength => "Good answer length - detailed but concise"
    case TermsStrength => "Good use of technical terminology"
    case TermsAdvice => "Include more technical terms relevant to the question"
    case ExplanationStrength => "Clear explanations of technical concepts"
    case ExplanationAdvice => "Explain why and how technical concepts work, not just what they are"
    case SentenceAdvice => "Break down complex sentences for better clarity"
    case CommentStrength => "Good code documentation with comments"
    case CommentAdvice => "Add comments to explain your approach and key parts of the code"
    case ErrorStrength => "Includes error handling for robustness"
    case ErrorAdvice => "Consider adding error handling for edge cases"
    case OptimizationStrength => "Shows awareness of code optimization and complexity"
    case OptimizationAdvice => "Discuss the time and space complexity of your solution"
  }

  /** `strengths` / `improvements` as the arrays of text the analysis returns. */
  function Texts(fs: seq<Feedback>): (r: seq<string>)
    ensures |r| == |fs|
    ensures forall i :: 0 <= i < |fs| ==> r[i] == FeedbackText(fs[i])
  {
    seq(|fs|, i requires 0 <= i < |fs| => FeedbackText(fs[i]))
  }

  // ---------------------------------------------------------------------
  // Scores per question type
  // ---------------------------------------------------------------------

  /** `wordCount / (sentenceCount || 1)`. */
  function AvgSentenceLength(wordCount: nat, sentenceCount: nat): (avg: real)
    ensures avg >= 0.0
    ensures sentenceCount <= 1 ==> avg == wordCount as real
  {
    wordCount as real / Max(sentenceCount, 1) as real
  }

  /** What the behavioural branch assigns and pushes. */
  ghost predicate BehavioralAnalysis(content: string, wordCount: nat, structure: int, depth: int,
                                     strengths: seq<Feedback>, improvements: seq<Feedback>)
  {
    var c, a, r, d := HasContext(content), HasAction(content), HasResult(content), HasSpecificDetails(content);
    && structure == (if c && a && r then 85 else if (c && a) || (a && r) then 65 else if a then 45 else 30)
    && depth == (if d then 75 else 50)
    && strengths == (if c && a && r then [StarStrength] else []) + (if d then [DetailStrength] else [])
                    + (if 50 <= wordCount <= 300 then [LengthStrength] else [])
    && improvements == (if c && a && r then [] else [StarAdvice]) + (if d then [] else [DetailAdvice])
                       + (if wordCount < 50 then [ExpandAdvice] else if wordCount > 300 then [ConciseAdvice] else [])
  }

  /** What the technical branch assigns and pushes (the branch's clarity is overwritten later). */
  ghost predicate TechnicalAnalysis(content: string, avg: real, depth: int,
                                    strengths: seq<Feedback>, improvements: seq<Feedback>)
  {
    var t, e := HasTechnicalTerms(content), HasExplanation(content);
    && depth == (if t && e then 80 else if t then 60 else if e then 50 else 30)
    && strengths == (if t then [TermsStrength] else []) + (if e then [ExplanationStrength] else [])
    && improvements == (if t then [] else [TermsAdvice]) + (if e then [] else [ExplanationAdvice])
                       + (if avg > 30.0 then [SentenceAdvice] else [])
  }

  /** What the coding branch assigns and pushes. */
  ghost predicate CodingAnalysis(content: string, depth: int, strengths: seq<Feedback>, improvements: seq<Feedback>)
  {
    var cm, er, op := HasComments(content), HasErrorHandling(content), HasOptimization(content);
    && depth == (if cm then 25 else 0) + (if er then 25 else 0) + (if op then 30 else 0) + 20
    && strengths == (if cm then [CommentStrength] else []) + (if er then [ErrorStrength] else [])
                    + (if op then [OptimizationStrength] else [])
    && improvements == (if cm then [] else [CommentAdvice]) + (if er then [] else [ErrorAdvice])
                       + (if op then [] else [OptimizationAdvice])
  }

  /** The behavioural branch: STAR structure, specificity, and the length rule. */
  method AnalyzeBehavioral(content: string, wordCount: nat)
    returns (structure: int, depth: int, strengths: seq<Feedback>, improvements: seq<Feedback>)
    ensures BehavioralAnalysis(content, wordCount, structure, depth, strengths, improvements)
  {
    var hasContext := HasContext(content);
    var hasAction := HasAction(content);
    var hasResult := HasResult(content);
    structure :=
      if hasContext && hasAction && hasResult then 85
      else if (hasContext && hasAction) || (hasAction && hasResult) then 65
      else if hasAction then 45
      else 30;
    var hasSpecificDetails := HasSpecificDetails(content);
    depth := if hasSpecificDetails then 75 else 50;
    strengths, improvements := [], [];
    if hasContext && hasAction && hasResult {
      strengths := strengths + [StarStrength];
    } else {
      improvements := improvements + [StarAdvice];
    }
    if hasSpecificDetails {
      strengths := strengths + [DetailStrength];
    } else {
      improvements := improvements + [DetailAdvice];
    }
    if wordCount < 50 {
      improvements := improvements + [ExpandAdvice];
    } else if wordCount > 300 {
      improvements := improvements + [ConciseAdvice];
    } else {
      strengths := strengths + [LengthStrength];
    }
  }

  /**
   * The technical branch: depth from terms and explanations, a clarity
   * from the average sentence length, and the long-sentence advice.
   */
  method AnalyzeTechnical(content: string, avgSentenceLength: real)
    returns (depth: int, clarity: int, strengths: seq<Feedback>, improvements: seq<Feedback>)
    ensures TechnicalAnalysis(content, avgSentenceLength, depth, strengths, improvements)
    ensures clarity == 75 <==> avgSentenceLength < 25.0
    ensures clarity == 40 <==> avgSentenceLength >= 35.0
  {
    var hasTechnicalTerms := HasTechnicalTerms(content);
    var hasExplanation := HasExplanation(content);
    depth :=
      if hasTechnicalTerms && hasExplanation then 80
      else if hasTechnicalTerms then 60
      else if hasExplanation then 50
      else 30;
    clarity := if avgSentenceLength < 25.0 then 75 else if avgSentenceLength < 35.0 then 60 else 40;
    strengths, improvements := [], [];
    if hasTechnicalTerms {
      strengths := strengths + [TermsStrength];
    } else {
      improvements := improvements + [TermsAdvice];
    }
    if hasExplanation {
      strengths := strengths + [ExplanationStrength];
    } else {
      improvements := improvements + [ExplanationAdvice];
    }
    if avgSentenceLength > 30.0 {
      improvements := improvements + [SentenceAdvice];
    }
  }

  /** The coding branch: comments, error handling and optimisation each add to depth. */
  method AnalyzeCoding(content: string) returns (depth: int, strengths: seq<Feedback>, improvements: seq<Feedback>)
    ensures CodingAnalysis(content, depth, strengths, improvements)
  {
    var hasComments := HasComments(content);
    var hasErrorHandling := HasErrorHandling(content);
    var hasOptimization := HasOptimization(content);
    depth := (if hasComments then 25 else 0) + (if hasErrorHandling then 25 else 0)
           + (if hasOptimization then 30 else 0) + 20;
    strengths, improvements := [], [];
    if hasComments {
      strengths := strengths + [CommentStrength];
    } else {
      improvements := improvements + [CommentAdvice];
    }
    if hasErrorHandling {
      strengths := strengths + [ErrorStrength];
    } else {
      improvements := improvements + [ErrorAdvice];
    }
    if hasOptimization {
      strengths := strengths + [OptimizationStrength];
    } else {
      improvements := improvements + [OptimizationAdvice];
    }
  }

  /**
   * The STAR structure score: 85 with context, action and result; 65 with
   * action and exactly one of the others; 45 with action alone; 30 without action.
   */
  lemma BehavioralStructureTable(content: string, wordCount: nat, structure: int, depth: int,
                                 strengths: seq<Feedback>, improvements: seq<Feedback>)
    requires BehavioralAnalysis(content, wordCount, structure, depth, strengths, improvements)
    ensures structure == 85 <==> HasContext(content) && HasAction(content) && HasResult(content)
    ensures structure == 65 <==> HasAction(content) && HasContext(content) != HasResult(content)
    ensures structure == 45 <==> HasAction(content) && !HasContext(content) && !HasResult(content)
    ensures structure == 30 <==> !HasAction(content)
    ensures depth == 75 <==> HasSpecificDetails(content)
    ensures depth == 50 <==> !HasSpecificDetails(content)
  {
  }

  /**
   * A behavioural answer gets exactly three entries, and exactly one of
   * them is about its length: expand below 50 words, be concise above 300,
   * a length strength otherwise.
   */
  lemma BehavioralEntries(content: string, wordCount: nat, structure: int, depth: int,
                          strengths: seq<Feedback>, improvements: seq<Feedback>)
    requires BehavioralAnalysis(content, wordCount, structure, depth, strengths, improvements)
    ensures |strengths| + |improvements| == 3
    ensures ExpandAdvice in improvements <==> wordCount < 50
    ensures ConciseAdvice in improvements <==> wordCount > 300
    ensures LengthStrength in strengths <==> 50 <= wordCount <= 300
    ensures StarStrength in strengths <==> StarAdvice !in improvements
  {
  }

  /** Technical depth is 80, 60, 50 or 30 by (terms, explanation); two entries, three with long sentences. */
  lemma TechnicalEntries(content: string, avg: real, depth: int, strengths: seq<Feedback>, improvements: seq<Feedback>)
    requires TechnicalAnalysis(content, avg, depth, strengths, improvements)
    ensures depth == 80 <==> HasTechnicalTerms(content) && HasExplanation(content)
    ensures depth == 60 <==> HasTechnicalTerms(content) && !HasExplanation(content)
    ensures depth == 50 <==> !HasTechnicalTerms(content) && HasExplanation(content)
    ensures depth == 30 <==> !HasTechnicalTerms(content) && !HasExplanation(content)
    ensures |strengths| + |improvements| == if avg > 30.0 then 3 else 2
  {
  }

  /** Coding depth lies in [20, 100]: 100 exactly when all three signals are present, 20 when none is. */
  lemma CodingEntries(content: string, depth: int, strengths: seq<Feedback>, improvements: seq<Feedback>)
    requires CodingAnalysis(content, depth, strengths, improvements)
    ensures 20 <= depth <= 100
    ensures depth == 100 <==> HasComments(content) && HasErrorHandling(content) && HasOptimization(content)
    ensures depth == 20 <==> !HasComments(content) && !HasErrorHandling(content) && !HasOptimization(content)
    ensures |strengths| + |improvements| == 3
    ensures |strengths| == (if HasComments(content) then 1 else 0) + (if HasErrorHandling(content) then 1 else 0)
                         + (if HasOptimization(content) then 1 else 0)
  {
  }

  // ---------------------------------------------------------------------
  // Words, relevance and clarity
  // ---------------------------------------------------------------------

  /** Separators of `split(/\W+/)`. */
  predicate NonWordChar(c: char)
  {
    !IsWordChar(c)
  }

  /** `s.toLowerCase().split(/\W+/)`. */
  function WordsOf(s: string): (ws: seq<string>)
    ensures |ws| >= 1
    ensures forall i, j :: 0 <= i < |ws| && 0 <= j < |ws[i]| ==> IsWordChar(ws[i][j])
  {
    SplitRuns(ToLowerCase(s), NonWordChar)
  }

  /** The words of ws longer than n characters, in order. */
  function LongerThan(ws: seq<string>, n: nat): (r: seq<string>)
    ensures |r| <= |ws|
    ensures forall w :: w in r <==> w in ws && |w| > n
  {
    if ws == [] then []
    else (if |ws[0]| > n then [ws[0]] else []) + LongerThan(ws[1..], n)
  }

  /** The words of qw that occur in aw, in order and with repeats: `qw.filter((w) => aw.includes(w))`. */
  function Matching(qw: seq<string>, aw: seq<string>): (r: seq<string>)
    ensures |r| <= |qw|
    ensures forall w :: w in r <==> w in qw && w in aw
  {
    if qw == [] then []
    else (if qw[0] in aw then [qw[0]] else []) + Matching(qw[1..], aw)
  }

  lemma {:induction false} MatchingAll(qw: seq<string>, aw: seq<string>)
    requires forall w :: w in qw ==> w in aw
    ensures Matching(qw, aw) == qw
  {
    if qw != [] {
      MatchingAll(qw[1..], aw);
    }
  }

  /** The question's words longer than three characters. */
  function QuestionWords(question: string): seq<string>
  {
    LongerThan(WordsOf(question), 3)
  }

  /** A number that may be NaN, as `0 / 0` gives when the question has no long words. */
  datatype Num = Finite(value: int) | NaN

  /** `Math.min(100, Math.round(matched / total * 100) + 20)`, NaN for `0 / 0`. */
  function RelevanceScore(matched: nat, total: nat): (r: Num)
    requires matched <= total
    ensures r.NaN? <==> total == 0
    ensures r.Finite? ==> 20 <= r.value <= 100
  {
    if total == 0 then NaN
    else
      RoundDivBounds(100 * matched, total, 0, 100);
      Finite(Min(100, RoundDiv(100 * matched, total) + 20))
  }

  /** No match scores 20, a full match 100, and more matches never score less. */
  lemma RelevanceScoreRange(matched: nat, more: nat, total: nat)
    requires matched <= more <= total && total > 0
    ensures matched == 0 ==> RelevanceScore(matched, total) == Finite(20)
    ensures RelevanceScore(total, total) == Finite(100)
    ensures RelevanceScore(matched, total).value <= RelevanceScore(more, total).value
  {
    RoundDivUnique(0, total, 0);
    assert 2 * total * 100 <= 2 * (100 * total) + total < 2 * total * 101;
    RoundDivUnique(100 * total, total, 100);
    var p, q := RoundDiv(100 * matched, total), RoundDiv(100 * more, total);
    assert 100 * matched <= 100 * more;
    CancelFactor(2 * total, p, q + 1);
  }

  /** The relevance of an answer to its question. */
  function Relevance(question: string, content: string): (r: Num)
    ensures r.NaN? <==> QuestionWords(question) == []
    ensures r.Finite? ==> 20 <= r.value <= 100
  {
    var qw := QuestionWords(question);
    RelevanceScore(|Matching(qw, WordsOf(content))|, |qw|)
  }

  lemma {:induction false} MatchingNone(qw: seq<string>, aw: seq<string>)
    requires forall w :: w in qw ==> w !in aw
    ensures Matching(qw, aw) == []
  {
    if qw != [] {
      MatchingNone(qw[1..], aw);
    }
  }

  /**
   * The extremes of relevance: an answer with none of the question's long
   * words scores 20, one holding all of them scores 100.
   */
  lemma RelevanceExtremes(question: string, content: string)
    requires QuestionWords(question) != []
    ensures (forall w :: w in QuestionWords(question) ==> w !in WordsOf(content)) ==> Relevance(question, content) == Finite(20)
    ensures (forall w :: w in QuestionWords(question) ==> w in WordsOf(content)) ==> Relevance(question, content) == Finite(100)
  {
    var qw, aw := QuestionWords(question), WordsOf(content);
    RelevanceScoreRange(0, 0, |qw|);
    if forall w :: w in qw ==> w !in aw {
      MatchingNone(qw, aw);
    }
    if forall w :: w in qw ==> w in aw {
      MatchingAll(qw, aw);
    }
  }

  /** `Math.round((structure + depth + relevance) / 3)`: NaN when relevance is. */
  function Clarity(structure: int, depth: int, relevance: Num): (c: Num)
    ensures c.NaN? <==> relevance.NaN?
    ensures relevance.Finite? ==> 2 * 3 * c.value <= 2 * (structure + depth + relevance.value) + 3 < 2 * 3 * (c.value + 1)
  {
    match relevance
    case NaN => NaN
    case Finite(rel) => Finite(RoundDiv(structure + depth + rel, 3))
  }

  /** Clarity lies between the smallest and the largest of the three scores. */
  lemma ClarityBetween(structure: int, depth: int, relevance: int, lo: int, hi: int)
    requires lo <= structure <= hi && lo <= depth <= hi && lo <= relevance <= hi
    ensures Clarity(structure, depth, Finite(relevance)).Finite?
    ensures lo <= Clarity(structure, depth, Finite(relevance)).value <= hi
  {
    RoundDivBounds(structure + depth + relevance, 3, lo, hi);
  }

  // ---------------------------------------------------------------------
  // Keywords
  // ---------------------------------------------------------------------

  /** The `commonWords` stop set. */
  const CommonWords: set<string> := {"the", "and", "that", "this", "with", "for", "was", "were",
                                     "have", "had", "not", "are", "from"}

  /**
   * Every stop word has at most four characters, so the stop-set test never
   * removes a word the length test kept.
   */
  lemma CommonWordsAreShort()
    ensures forall w :: w in CommonWords ==> |w| <= 4
  {
  }

  /** `answerWords.filter((word) => word.length > 4 && !commonWords.has(word))`. */
  function PotentialKeywords(content: string): (r: seq<string>)
    ensures forall w :: w in r <==> w in WordsOf(content) && |w| > 4 && w !in CommonWords
  {
    KeepKeywords(WordsOf(content))
  }

  function KeepKeywords(ws: seq<string>): (r: seq<string>)
    ensures forall w :: w in r <==> w in ws && |w| > 4 && w !in CommonWords
  {
    if ws == [] then []
    else (if |ws[0]| > 4 && ws[0] !in CommonWords then [ws[0]] else []) + KeepKeywords(ws[1..])
  }

  /** The stop set changes nothing: the candidates are the answer words longer than four characters. */
  lemma PotentialKeywordsAreLongWords(content: string)
    ensures PotentialKeywords(content) == LongerThan(WordsOf(content), 4)
  {
    CommonWordsAreShort();
    KeepLong(WordsOf(content));
  }

  lemma {:induction false} KeepLong(ws: seq<string>)
    requires forall w :: w in CommonWords ==> |w| <= 4
    ensures KeepKeywords(ws) == LongerThan(ws, 4)
  {
    if ws != [] {
      KeepLong(ws[1..]);
    }
  }

  /** How many times w occurs in ws. */
  function CountOf(ws: seq<string>, w: string): (n: nat)
    ensures n <= |ws|
    ensures n > 0 <==> w in ws
  {
    multiset(ws)[w]
  }

  /** The distinct words of ws in order of first occurrence: the key order of `wordFrequency`. */
  function Distinct(ws: seq<string>): (r: seq<string>)
    ensures NoRepeats(r)
    ensures forall w :: w in r <==> w in ws
    ensures |r| <= |ws|
  {
    if ws == [] then []
    else
      var d := Distinct(ws[..|ws| - 1]);
      assert forall w :: w in ws <==> w in ws[..|ws| - 1] || w == ws[|ws| - 1];
      if ws[|ws| - 1] in d then d else d + [ws[|ws| - 1]]
  }

  /**
   * `potentialKeywords.forEach((word) => wordFrequency[word] = (wordFrequency[word] || 0) + 1)`.
   * The object is its values and its keys in insertion order.
   */
  method CountFrequencies(words: seq<string>)
    returns (wordFrequency: map<string, nat>, order: seq<string>)
    ensures order == Distinct(words)
    ensures forall w :: w in wordFrequency <==> w in words
    ensures forall w :: w in wordFrequency ==> wordFrequency[w] == CountOf(words, w)
  {
    wordFrequency, order := map[], [];
    for i := 0 to |words|
      invariant Tallied(wordFrequency, order, words[..i])
    {
      assert words[..i + 1] == words[..i] + [words[i]];
      wordFrequency, order := CountWord(wordFrequency, order, words[..i], words[i]);
    }
    assert words[..|words|] == words;
  }

  /** freq and order are the counts and the first-occurrence order of the words seen. */
  ghost predicate Tallied(freq: map<string, nat>, order: seq<string>, seen: seq<string>)
  {
    && order == Distinct(seen)
    && (forall w :: w in freq <==> w in seen)
    && (forall w :: w in freq ==> freq[w] == CountOf(seen, w))
  }

  /** `wordFrequency[word] = (wordFrequency[word] || 0) + 1`, a new key going last. */
  method CountWord(freq: map<string, nat>, order: seq<string>, ghost seen: seq<string>, word: string)
    returns (freq': map<string, nat>, order': seq<string>)
    requires Tallied(freq, order, seen)
    ensures Tallied(freq', order', seen + [word])
  {
    FrequencyStep(seen, word, freq);
    DistinctStep(seen, word);
    if word in freq {
      freq', order' := freq[word := freq[word] + 1], order;
    } else {
      freq', order' := freq[word := 1], order + [word];
    }
  }

  /** Counting one more word: its count goes up by one, every other count stays. */
  lemma {:induction false} FrequencyStep(seen: seq<string>, word: string, freq: map<string, nat>)
    requires forall w :: w in freq <==> w in seen
    requires forall w :: w in freq ==> freq[w] == CountOf(seen, w)
    ensures word !in freq ==> CountOf(seen, word) == 0
    ensures forall w :: w in freq[word := CountOf(seen, word) + 1] <==> w in seen + [word]
    ensures forall w :: w in freq[word := CountOf(seen, word) + 1] ==>
      freq[word := CountOf(seen, word) + 1][w] == CountOf(seen + [word], w)
  {
    assert multiset(seen + [word]) == multiset(seen) + multiset{word};
  }

  /** A word joins the distinct words at the end exactly when it is new. */
  lemma {:induction false} DistinctStep(seen: seq<string>, word: string)
    ensures Distinct(seen + [word]) == if word in Distinct(seen) then Distinct(seen) else Distinct(seen) + [word]
  {
    assert (seen + [word])[..|seen|] == seen;
  }

  /** One `[word, count]` of `Object.entries(wordFrequency)`. */
  datatype Entry = Entry(word: string, count: int)

  function EntryCount(e: Entry): int
  {
    e.count
  }

  /** `Object.entries(wordFrequency)` for the words ws. */
  function Entries(ws: seq<string>): (es: seq<Entry>)
    ensures |es| == |Distinct(ws)|
  {
    var d := Distinct(ws);
    seq(|d|, i requires 0 <= i < |d| => Entry(d[i], CountOf(ws, d[i])))
  }

  function Names(es: seq<Entry>): (r: seq<string>)
    ensures |r| == |es|
    ensures forall i :: 0 <= i < |es| ==> r[i] == es[i].word
  {
    seq(|es|, i requires 0 <= i < |es| => es[i].word)
  }

  /** `.sort((a, b) => b[1] - a[1]).slice(0, 5).map(([word]) => word)`. */
  function TopKeywords(ws: seq<string>): seq<string>
  {
    Names(Take(SortDesc(Entries(ws), EntryCount), 5))
  }

  /** Extracting the keywords of an answer: count, rank, keep five. */
  method ExtractKeywords(content: string) returns (keywords: seq<string>)
    ensures keywords == TopKeywords(PotentialKeywords(content))
  {
    var potentialKeywords := PotentialKeywords(content);
    var wordFrequency, order := CountFrequencies(potentialKeywords);
    var entries := seq(|order|, i requires 0 <= i < |order| => Entry(order[i], wordFrequency[order[i]]));
    assert entries == Entries(potentialKeywords);
    keywords := Names(Take(SortDesc(entries, EntryCount), 5));
  }

  /** A sequence without repeats holds each of its elements once. */
  lemma {:induction false} NoRepeatsMultiplicity<T>(xs: seq<T>, x: T)
    requires NoRepeats(xs)
    ensures multiset(xs)[x] == if x in xs then 1 else 0
  {
    if xs != [] {
      assert xs == [xs[0]] + xs[1..];
      forall i, j | 0 <= i < j < |xs[1..]| ensures xs[1..][i] != xs[1..][j] {
        assert xs[1..][i] == xs[i + 1] && xs[1..][j] == xs[j + 1];
      }
      NoRepeatsMultiplicity(xs[1..], x);
      forall k | 0 <= k < |xs[1..]| ensures xs[1..][k] != xs[0] {
        assert xs[1..][k] == xs[k + 1];
      }
    }
  }

  /** Two positions holding the same value make it occur at least twice. */
  lemma TwoPositions<T>(ys: seq<T>, i: nat, j: nat)
    requires i < j < |ys|
    ensures multiset(ys)[ys[i]] >= if ys[j] == ys[i] then 2 else 1
  {
    assert ys == ys[..i] + [ys[i]] + ys[i + 1..j] + [ys[j]] + ys[j + 1..];
  }

  /** A permutation of a sequence without repeats has none either. */
  lemma PermutationNoRepeats<T>(xs: seq<T>, ys: seq<T>)
    requires NoRepeats(xs) && multiset(ys) == multiset(xs)
    ensures NoRepeats(ys)
  {
    forall i, j | 0 <= i < j < |ys| ensures ys[i] != ys[j] {
      TwoPositions(ys, i, j);
      NoRepeatsMultiplicity(xs, ys[i]);
    }
  }

  /** The entries are one per distinct word, each with its count. */
  lemma EntriesFacts(ws: seq<string>)
    ensures NoRepeats(Entries(ws))
    ensures forall e :: e in Entries(ws) ==> e.word in ws && e.count == CountOf(ws, e.word)
    ensures forall w :: w in ws ==> Entry(w, CountOf(ws, w)) in Entries(ws)
  {
    var d := Distinct(ws);
    var es := Entries(ws);
    forall w | w in ws ensures Entry(w, CountOf(ws, w)) in es {
      var k :| 0 <= k < |d| && d[k] == w;
      assert es[k] == Entry(w, CountOf(ws, w));
    }
  }

  /** The ranked entries: a sorted permutation of the entries. */
  lemma RankedEntries(ws: seq<string>)
    ensures |SortDesc(Entries(ws), EntryCount)| == |Distinct(ws)|
    ensures NoRepeats(SortDesc(Entries(ws), EntryCount))
    ensures NonIncreasing(SortDesc(Entries(ws), EntryCount), EntryCount)
    ensures forall e :: e in SortDesc(Entries(ws), EntryCount) ==> e.word in ws && e.count == CountOf(ws, e.word)
    ensures forall w :: w in ws ==> Entry(w, CountOf(ws, w)) in SortDesc(Entries(ws), EntryCount)
  {
    var es := Entries(ws);
    var s := SortDesc(es, EntryCount);
    EntriesFacts(ws);
    SortDescSorted(es, EntryCount);
    PermutationNoRepeats(es, s);
    forall e ensures e in s <==> e in es {
      assert e in s <==> e in multiset(s);
      assert e in es <==> e in multiset(es);
    }
  }

  /** The keywords are as many distinct words of ws as it has, up to five. */
  lemma TopKeywordsDistinct(ws: seq<string>)
    ensures |TopKeywords(ws)| == Min(5, |Distinct(ws)|)
    ensures NoRepeats(TopKeywords(ws))
    ensures forall w :: w in TopKeywords(ws) ==> w in ws
  {
    var s := SortDesc(Entries(ws), EntryCount);
    var kw := TopKeywords(ws);
    RankedEntries(ws);
    forall i | 0 <= i < |kw| ensures kw[i] == s[i].word && kw[i] in ws {
      assert s[i] in s;
    }
    forall i, j | 0 <= i < j < |kw| ensures kw[i] != kw[j] {
      assert s[i] in s && s[j] in s;
    }
  }

  /**
   * The keywords are ranked by non-increasing count, and a word left out
   * occurs no more often than each keyword, and only when five were kept.
   */
  lemma TopKeywordsRanked(ws: seq<string>)
    ensures forall i, j :: 0 <= i < j < |TopKeywords(ws)| ==>
      CountOf(ws, TopKeywords(ws)[i]) >= CountOf(ws, TopKeywords(ws)[j])
    ensures forall w :: w in ws && w !in TopKeywords(ws) ==>
      |TopKeywords(ws)| == 5 && forall i :: 0 <= i < 5 ==> CountOf(ws, w) <= CountOf(ws, TopKeywords(ws)[i])
  {
    var s := SortDesc(Entries(ws), EntryCount);
    var kw := TopKeywords(ws);
    RankedEntries(ws);
    forall i | 0 <= i < |kw| ensures kw[i] == s[i].word && CountOf(ws, kw[i]) == s[i].count {
      assert s[i] in s;
    }
    forall w | w in ws && w !in kw
      ensures |kw| == 5 && forall i :: 0 <= i < 5 ==> CountOf(ws, w) <= CountOf(ws, kw[i])
    {
      var e := Entry(w, CountOf(ws, w));
      var p :| 0 <= p < |s| && s[p] == e;
      assert forall i :: 0 <= i < |kw| ==> kw[i] != w;
      assert p >= |kw|;
      forall i | 0 <= i < 5 ensures CountOf(ws, w) <= CountOf(ws, kw[i]) {
        assert EntryCount(s[i]) >= EntryCount(s[p]);
      }
    }
  }

  /** Among words of equal count, the keywords keep the order in which the words were first seen. */
  lemma TopKeywordsStable(ws: seq<string>)
    ensures Stable(SortDesc(Entries(ws), EntryCount), Entries(ws), EntryCount)
  {
    SortDescStable(Entries(ws), EntryCount);
  }

  // ---------------------------------------------------------------------
  // analyzeAnswer
  // ---------------------------------------------------------------------

  datatype Metrics = Metrics(wordCount: nat, sentenceCount: nat, avgSentenceLength: real,
                             clarity: Num, relevance: Num, structure: int, depth: int)

  datatype Analysis = Analysis(question: string, questionType: string, metrics: Metrics,
                               strengths: seq<string>, improvements: seq<string>, keywords: seq<string>)

  /**
   * The branch on the question type: structure, depth, strengths and
   * improvements as the behavioural, technical or coding rules give them,
   * and none for another type.
   */
  ghost predicate TypeAnalysis(content: string, questionType: string, wordCount: nat, avg: real,
                               structure: int, depth: int, strengths: seq<Feedback>, improvements: seq<Feedback>)
  {
    && (questionType == "behavioral" ==> BehavioralAnalysis(content, wordCount, structure, depth, strengths, improvements))
    && (questionType == "technical" ==> structure == 0 && TechnicalAnalysis(content, avg, depth, strengths, improvements))
    && (questionType == "coding" ==> structure == 0 && CodingAnalysis(content, depth, strengths, improvements))
    && (questionType != "behavioral" && questionType != "technical" && questionType != "coding" ==>
          structure == 0 && depth == 0 && strengths == [] && improvements == [])
  }

  /** The `if (type === ...)` chain of the analysis; every score it sets lies in [0, 100]. */
  method AnalyzeByType(content: string, questionType: string, wordCount: nat, avg: real)
    returns (structure: int, depth: int, strengths: seq<Feedback>, improvements: seq<Feedback>)
    ensures TypeAnalysis(content, questionType, wordCount, avg, structure, depth, strengths, improvements)
    ensures 0 <= structure <= 100 && 0 <= depth <= 100
  {
    structure, depth := 0, 0;
    strengths, improvements := [], [];
    if questionType == "behavioral" {
      structure, depth, strengths, improvements := AnalyzeBehavioral(content, wordCount);
    } else if questionType == "technical" {
      // The branch's clarity from the sentence length is overwritten before the result is built.
      var sentenceClarity;
      depth, sentenceClarity, strengths, improvements := AnalyzeTechnical(content, avg);
    } else if questionType == "coding" {
      depth, strengths, improvements := AnalyzeCoding(content);
      CodingEntries(content, depth, strengths, improvements);
    }
  }

  /**
   * The `metrics` of the analysis. The counts come from the answer;
   * structure, depth, strengths and improvements from the branch of the
   * question type; relevance from the question words; clarity is
   * recomputed from structure, depth and relevance last, and lies in [0, 100].
   */
  method MeasureAnswer(content: string, questionType: string, question: string)
    returns (m: Metrics, strengths: seq<Feedback>, improvements: seq<Feedback>)
    ensures m.wordCount == WordCount(content) && m.sentenceCount == |Sentences(content)|
    ensures m.avgSentenceLength == AvgSentenceLength(m.wordCount, m.sentenceCount)
    ensures TypeAnalysis(content, questionType, m.wordCount, m.avgSentenceLength,
                         m.structure, m.depth, strengths, improvements)
    ensures m.relevance == Relevance(question, content)
    ensures m.clarity == Clarity(m.structure, m.depth, m.relevance)
    ensures m.clarity.Finite? ==> 0 <= m.clarity.value <= 100
  {
    var wordCount := WordCount(content);
    var sentenceCount := |Sentences(content)|;
    var avgSentenceLength := AvgSentenceLength(wordCount, sentenceCount);
    var structure, depth;
    structure, depth, strengths, improvements := AnalyzeByType(content, questionType, wordCount, avgSentenceLength);
    var relevance := Relevance(question, content);
    var clarity := Clarity(structure, depth, relevance);
    if relevance.Finite? {
      ClarityBetween(structure, depth, relevance.value, 0, 100);
    }
    m := Metrics(wordCount, sentenceCount, avgSentenceLength, clarity, relevance, structure, depth);
  }

  /**
   * `analyzeAnswer(content, type, question)`: the metrics, the texts of the
   * strengths and improvements, and the keywords of the answer.
   */
  method AnalyzeAnswer(content: string, questionType: string, question: string)
    returns (a: Analysis, strengths: seq<Feedback>, improvements: seq<Feedback>)
    ensures a.question == question && a.questionType == questionType
    ensures a.strengths == Texts(strengths) && a.improvements == Texts(improvements)
    ensures TypeAnalysis(content, questionType, a.metrics.wordCount, a.metrics.avgSentenceLength,
                         a.metrics.structure, a.metrics.depth, strengths, improvements)
    ensures a.metrics.wordCount == WordCount(content) && a.metrics.sentenceCount == |Sentences(content)|
    ensures a.metrics.relevance == Relevance(question, content)
    ensures a.metrics.clarity == Clarity(a.metrics.structure, a.metrics.depth, a.metrics.relevance)
    ensures a.keywords == TopKeywords(PotentialKeywords(content))
  {
    var metrics;
    metrics, strengths, improvements := MeasureAnswer(content, questionType, question);
    var keywords := ExtractKeywords(content);
    a := Analysis(question, questionType, metrics, Texts(strengths), Texts(improvements), keywords);
  }

  /** An empty answer still counts one (empty) word and no sentence. */
  lemma EmptyAnswerCounts()
    ensures WordCount("") == 1
    ensures |Sentences("")| == 0
    ensures AvgSentenceLength(WordCount(""), |Sentences("")|) == 1.0
  {
    assert HasNonSpace("") == false;
  }
}
