/**
 * The personality analyser `analyzePersonality(answers)`: ten trait scores
 * start at 50 and gain a capped bonus from whole-word keyword matches in
 * the combined lower-cased answers; communication and confidence may gain
 * a further 10 from sentence length and first-person pronouns; the scores
 * are clamped to [0, 100]. The traits, in their fixed definition order,
 * are then ranked by a stable descending sort to name the three dominant
 * and the two lowest traits, from which a summary and five interview tips
 * are templated.
 *
 * The score dictionary is indexed by the definition order of its ten keys,
 * which is also the order of the keyword table.
 */
module Personality {
  import opened Common
  import opened Text
  import opened StableSort

  // ---------------------------------------------------------------------
  // Input text
  // ---------------------------------------------------------------------

  /** `xs.join(sep)`. */
  function Join(xs: seq<string>, sep: string): (r: string)
    ensures xs == [] ==> r == []
    ensures |xs| == 1 ==> r == xs[0]
  {
    if xs == [] then [] else if |xs| == 1 then xs[0] else xs[0] + sep + Join(xs[1..], sep)
  }

  /** `answers.join(" ").toLowerCase()`. */
  function CombinedText(answers: seq<string>): string
  {
    ToLowerCase(Join(answers, " "))
  }

  // ---------------------------------------------------------------------
  // Scoring
  // ---------------------------------------------------------------------

  /** Positions of the two traits with extra bonuses in the score dictionary. */
  const CommunicationIndex: nat := 5
  const ConfidenceIndex: nat := 8

  /** `matchCount` of one trait: the global matches of `\bkw\b` summed over its keywords. */
  function MatchCount(text: string, keywords: seq<string>): (n: nat)
  {
    if keywords == [] then 0
    else
      var k := keywords[|keywords| - 1];
      MatchCount(text, keywords[..|keywords| - 1]) + CountWordMatchesCi(text, [k])
  }

  /** A trait's match count is at least the matches of any one of its keywords. */
  lemma {:induction false} MatchCountAtLeast(text: string, keywords: seq<string>, j: nat)
    requires j < |keywords|
    ensures MatchCount(text, keywords) >= CountWordMatchesCi(text, [keywords[j]])
    decreases |keywords|
  {
    var n := |keywords| - 1;
    if j < n {
      assert keywords[..n][j] == keywords[j];
      MatchCountAtLeast(text, keywords[..n], j);
    }
  }

  /** A text without any letter matches no keyword. */
  lemma {:induction false} MatchCountEmpty(keywords: seq<string>)
    ensures MatchCount("", keywords) == 0
    decreases |keywords|
  {
    if keywords != [] {
      MatchCountEmpty(keywords[..|keywords| - 1]);
    }
  }

  /** `if (matchCount > 0) traitScores[trait] += Math.min(matchCount * 5, 40)`. */
  function KeywordBonus(matchCount: nat): (b: nat)
    ensures b <= 40
    ensures b == 0 <==> matchCount == 0
    ensures matchCount <= 8 ==> b == 5 * matchCount
  {
    if matchCount > 0 then Min(matchCount * 5, 40) else 0
  }

  /**
   * `a / b > r` on JavaScript numbers, where `0 / 0` is NaN and NaN is
   * above nothing.
   */
  ghost predicate RatioAbove(a: nat, b: nat, r: real)
  {
    b > 0 && a as real / b as real > r
  }

  /** For b > 0 and q > 0, a / b exceeds p / q exactly when q * a exceeds p * b. */
  lemma QuotientAbove(a: nat, b: nat, p: nat, q: nat)
    requires b > 0 && q > 0
    ensures RatioAbove(a, b, p as real / q as real) <==> q * a > p * b
  {
    var x, y := a as real / b as real, p as real / q as real;
    assert x * b as real == a as real;
    assert y * q as real == p as real;
    assert (q * a) as real == x * (b * q) as real;
    assert (p * b) as real == y * (b * q) as real;
  }

  /**
   * +10 for communication when the average trimmed sentence length exceeds
   * 20 characters; with no sentence the average is `0 / 0`, which is not.
   */
  function CommunicationBonus(text: string): (b: nat)
    ensures b == 10 <==> RatioAbove(SumTrimmed(Sentences(text)), |Sentences(text)|, 20.0)
    ensures b == 0 || b == 10
  {
    var sum, count := SumTrimmed(Sentences(text)), |Sentences(text)|;
    if count > 0 then
      QuotientAbove(sum, count, 20, 1);
      assert 20 as real / 1 as real == 20.0;
      if sum > 20 * count then 10 else 0
    else 0
  }

  /** The global pattern `\bi\b|\bme\b|\bmy\b|\bmyself\b`. */
  const FirstPerson: seq<string> := ["i", "me", "my", "myself"]

  /** +10 for confidence when the first-person pronouns exceed 5% of the words. */
  function ConfidenceBonus(text: string): (b: nat)
    ensures b == 10 <==> RatioAbove(CountWordMatchesCi(text, FirstPerson), WordCount(text), 0.05)
    ensures b == 0 || b == 10
  {
    var firstPersonCount, wordCount := CountWordMatchesCi(text, FirstPerson), WordCount(text);
    QuotientAbove(firstPersonCount, wordCount, 1, 20);
    assert 1 as real / 20 as real == 0.05;
    if 20 * firstPersonCount > wordCount then 10 else 0
  }

  /** `Math.max(0, Math.min(100, score))`. */
  function Clamp(score: int): (c: int)
    ensures 0 <= c <= 100
    ensures 0 <= score <= 100 ==> c == score
  {
    Max(0, Min(100, score))
  }

  /** The score of trait t before the clamp. */
  function RawScore(text: string, patterns: seq<seq<string>>, t: nat): int
    requires t < |patterns|
  {
    50 + KeywordBonus(MatchCount(text, patterns[t]))
    + (if t == CommunicationIndex then CommunicationBonus(text) else 0)
    + (if t == ConfidenceIndex then ConfidenceBonus(text) else 0)
  }

  /** The final `traitScores`, in the definition order of the traits. */
  function TraitScores(text: string, patterns: seq<seq<string>>): (scores: seq<int>)
    ensures |scores| == |patterns|
  {
    seq(|patterns|, t requires 0 <= t < |patterns| => Clamp(RawScore(text, patterns, t)))
  }

  /** The inner `keywords.forEach`: one trait's `matchCount`. */
  method CountTraitMatches(text: string, keywords: seq<string>) returns (matchCount: nat)
    ensures matchCount == MatchCount(text, keywords)
  {
    matchCount := 0;
    for k := 0 to |keywords|
      invariant matchCount == MatchCount(text, keywords[..k])
    {
      assert keywords[..k + 1][..k] == keywords[..k];
      var matches := CountWordMatchesCi(text, [keywords[k]]);
      if matches > 0 {
        matchCount := matchCount + matches;
      }
    }
    assert keywords[..|keywords|] == keywords;
  }

  /** The outer `Object.entries(keywordPatterns).forEach`: every trait from 50 plus its keyword bonus. */
  method AddKeywordBonuses(text: string, patterns: seq<seq<string>>) returns (traitScores: seq<int>)
    ensures |traitScores| == |patterns|
    ensures forall t :: 0 <= t < |patterns| ==> traitScores[t] == 50 + KeywordBonus(MatchCount(text, patterns[t]))
  {
    traitScores := seq(|patterns|, _ => 50);
    for t := 0 to |patterns|
      invariant |traitScores| == |patterns|
      invariant forall u :: 0 <= u < t ==> traitScores[u] == 50 + KeywordBonus(MatchCount(text, patterns[u]))
      invariant forall u :: t <= u < |patterns| ==> traitScores[u] == 50
    {
      var matchCount := CountTraitMatches(text, patterns[t]);
      if matchCount > 0 {
        traitScores := traitScores[t := traitScores[t] + Min(matchCount * 5, 40)];
      }
    }
  }

  /** The `Object.keys(traitScores).forEach` clamp. */
  method ClampAll(scores: seq<int>) returns (clamped: seq<int>)
    ensures |clamped| == |scores|
    ensures forall t :: 0 <= t < |scores| ==> clamped[t] == Clamp(scores[t])
  {
    clamped := scores;
    for t := 0 to |scores|
      invariant |clamped| == |scores|
      invariant forall u :: 0 <= u < t ==> clamped[u] == Clamp(scores[u])
      invariant forall u :: t <= u < |scores| ==> clamped[u] == scores[u]
    {
      clamped := clamped[t := Max(0, Min(100, clamped[t]))];
    }
  }

  /**
   * The scoring of `analyzePersonality`: start every trait at 50, add each
   * trait's keyword bonus, the communication and confidence bonuses, and
   * clamp.
   */
  method ScoreTraits(text: string, patterns: seq<seq<string>>) returns (traitScores: seq<int>)
    requires |patterns| == 10
    ensures traitScores == TraitScores(text, patterns)
  {
    traitScores := AddKeywordBonuses(text, patterns);
    var sentences := Sentences(text);
    var totalLength := SumTrimmed(sentences);
    if |sentences| > 0 && totalLength > 20 * |sentences| {
      traitScores := traitScores[CommunicationIndex := traitScores[CommunicationIndex] + 10];
    }
    var firstPersonCount := CountWordMatchesCi(text, FirstPerson);
    var wordCount := WordCount(text);
    if 20 * firstPersonCount > wordCount {
      traitScores := traitScores[ConfidenceIndex := traitScores[ConfidenceIndex] + 10];
    }
    assert forall u :: 0 <= u < |patterns| ==> traitScores[u] == RawScore(text, patterns, u);
    traitScores := ClampAll(traitScores);
  }

  /** Every score lies in [50, 100], so the clamp never changes one. */
  lemma ScoresInRange(text: string, patterns: seq<seq<string>>)
    ensures forall t :: 0 <= t < |patterns| ==> 50 <= RawScore(text, patterns, t) <= 100
    ensures forall t :: 0 <= t < |patterns| ==> TraitScores(text, patterns)[t] == RawScore(text, patterns, t)
    ensures forall t :: 0 <= t < |patterns| ==> 50 <= TraitScores(text, patterns)[t] <= 100
  {
  }

  /** Empty answers leave every trait at 50. */
  lemma EmptyAnswersScoreFifty(patterns: seq<seq<string>>)
    ensures CombinedText([]) == ""
    ensures forall t :: 0 <= t < |patterns| ==> TraitScores(CombinedText([]), patterns)[t] == 50
  {
    assert SplitRuns("", IsTerminator) == [""];
    assert Sentences("") == [];
    assert CountWordMatchesCi("", FirstPerson) == 0;
    forall t | 0 <= t < |patterns| ensures MatchCount("", patterns[t]) == 0 {
      MatchCountEmpty(patterns[t]);
    }
  }

  /**
   * Traits are scored independently: a keyword that two traits share and
   * that occurs in the text raises the score of both.
   */
  lemma {:induction false} SharedKeywordCountsForBoth(text: string, patterns: seq<seq<string>>, t: nat, u: nat, i: nat, j: nat)
    requires t < |patterns| && u < |patterns|
    requires i < |patterns[t]| && j < |patterns[u]| && patterns[t][i] == patterns[u][j]
    requires CountWordMatchesCi(text, [patterns[t][i]]) > 0
    ensures TraitScores(text, patterns)[t] > 50 && TraitScores(text, patterns)[u] > 50
  {
    MatchCountAtLeast(text, patterns[t], i);
    MatchCountAtLeast(text, patterns[u], j);
  }

  // ---------------------------------------------------------------------
  // The profile
  // ---------------------------------------------------------------------

  /** The fixed text of one trait definition. */
  datatype TraitText = TraitText(name: string, description: string,
                                 strengths: seq<string>, improvements: seq<string>)

  /** A `PersonalityTrait`. */
  datatype Trait = Trait(name: string, score: int, description: string,
                         strengths: seq<string>, improvements: seq<string>)

  datatype PersonalityProfile = PersonalityProfile(dominantTraits: seq<string>, traits: seq<Trait>,
                                                   summary: string, interviewTips: seq<string>)

  function TraitScore(t: Trait): int
  {
    t.score
  }

  /** The `traits` array: each definition with its score, in definition order. */
  function BuildTraits(scores: seq<int>, texts: seq<TraitText>): (traits: seq<Trait>)
    requires |scores| == |texts|
    ensures |traits| == |texts|
    ensures forall i :: 0 <= i < |texts| ==>
      traits[i].name == texts[i].name && traits[i].score == scores[i] && traits[i].description == texts[i].description
      && traits[i].strengths == texts[i].strengths && traits[i].improvements == texts[i].improvements
  {
    seq(|texts|, i requires 0 <= i < |texts| =>
      Trait(texts[i].name, scores[i], texts[i].description, texts[i].strengths, texts[i].improvements))
  }

  function TraitNames(ts: seq<Trait>): (r: seq<string>)
    ensures |r| == |ts|
    ensures forall i :: 0 <= i < |ts| ==> r[i] == ts[i].name
  {
    seq(|ts|, i requires 0 <= i < |ts| => ts[i].name)
  }

  /** `[...traits].sort((a, b) => b.score - a.score)`. */
  function SortedTraits(traits: seq<Trait>): seq<Trait>
  {
    SortDesc(traits, TraitScore)
  }

  /** `sortedTraits.slice(0, 3).map((t) => t.name)`. */
  function DominantTraits(traits: seq<Trait>): seq<string>
  {
    TraitNames(Take(SortedTraits(traits), 3))
  }

  /** `sortedTraits.slice(-2)`. */
  function LowestTraits(traits: seq<Trait>): (r: seq<Trait>)
    requires |traits| >= 2
    ensures |r| == 2
  {
    var sorted := SortedTraits(traits);
    sorted[|sorted| - 2..]
  }

  /** A sentence with one name in it. */
  datatype OneSlot = OneSlot(before: string, after: string)

  /** A sentence with two names in it. */
  datatype TwoSlots = TwoSlots(before: string, between: string, after: string)

  function FillOne(t: OneSlot, x: string): string
  {
    t.before + x + t.after
  }

  function FillTwo(t: TwoSlots, x: string, y: string): string
  {
    t.before + x + t.between + y + t.after
  }

  /** The fixed wording: the summary sentences and the interview tips. */
  datatype Wording = Wording(summary: Sentence -> TwoSlots, tip: Tip -> OneSlot)

  /** The summary as three sentences, each naming two traits. */
  function Summary(w: Wording, sorted: seq<Trait>, dominant: seq<string>): (s: string)
    requires |sorted| >= 2 && |dominant| >= 2
  {
    var lowest := sorted[|sorted| - 2..];
    FillTwo(w.summary(Strongest), dominant[0], dominant[1])
    + FillTwo(w.summary(Style), ToLowerCase(sorted[0].name), ToLowerCase(sorted[1].name))
    + FillTwo(w.summary(Growth), ToLowerCase(lowest[0].name), ToLowerCase(lowest[1].name))
  }

  /** The five interview tips, from the first two dominant names and the first lowest name. */
  function InterviewTips(w: Wording, dominant: seq<string>, lowest: seq<Trait>): (tips: seq<string>)
    requires |dominant| >= 2 && |lowest| >= 1
    ensures |tips| == 5
  {
    var low := ToLowerCase(lowest[0].name);
    [FillOne(w.tip(Leverage), dominant[0]), FillOne(w.tip(Probe), low),
     FillOne(w.tip(Examples), dominant[1]), FillOne(w.tip(Perception), dominant[0]),
     FillOne(w.tip(Improve), low)]
  }

  /** The profile built from the traits in definition order. */
  function ProfileOf(traits: seq<Trait>, w: Wording): (p: PersonalityProfile)
    requires |traits| >= 3
    ensures p.traits == traits
    ensures |p.dominantTraits| == 3
    ensures |p.interviewTips| == 5
  {
    var sorted := SortedTraits(traits);
    var dominant := DominantTraits(traits);
    var lowest := LowestTraits(traits);
    PersonalityProfile(dominant, traits, Summary(w, sorted, dominant), InterviewTips(w, dominant, lowest))
  }

  /**
   * The ranking: a stable, non-increasing permutation of the traits. The
   * three dominant traits are its first three and score at least as much
   * as every other trait; the two lowest are its last two and score no more
   * than any other; among equal scores definition order is kept.
   */
  lemma {:induction false} RankingFacts(traits: seq<Trait>)
    requires |traits| >= 3
    ensures multiset(SortedTraits(traits)) == multiset(traits)
    ensures NonIncreasing(SortedTraits(traits), TraitScore)
    ensures Stable(SortedTraits(traits), traits, TraitScore)
    ensures DominantTraits(traits) == TraitNames(SortedTraits(traits)[..3])
    ensures forall i, j :: 0 <= i < 3 <= j < |traits| ==> SortedTraits(traits)[i].score >= SortedTraits(traits)[j].score
    ensures LowestTraits(traits) == SortedTraits(traits)[|traits| - 2..]
    ensures forall i, j :: 0 <= i < |traits| - 2 <= j < |traits| ==> SortedTraits(traits)[i].score >= SortedTraits(traits)[j].score
  {
    SortDescSorted(traits, TraitScore);
    SortDescStable(traits, TraitScore);
  }

  /** The summary holds the first dominant name and the last ranked name lower-cased. */
  lemma {:induction false} SummaryMentions(w: Wording, sorted: seq<Trait>, dominant: seq<string>)
    requires |sorted| >= 2 && |dominant| >= 2
    ensures Contains(Summary(w, sorted, dominant), dominant[0])
    ensures Contains(Summary(w, sorted, dominant), ToLowerCase(sorted[|sorted| - 1].name))
  {
    var lowest := sorted[|sorted| - 2..];
    var s1, s3 := w.summary(Strongest), w.summary(Growth);
    var first := FillTwo(s1, dominant[0], dominant[1]);
    var rest := FillTwo(w.summary(Style), ToLowerCase(sorted[0].name), ToLowerCase(sorted[1].name))
      + FillTwo(s3, ToLowerCase(lowest[0].name), ToLowerCase(lowest[1].name));
    assert Summary(w, sorted, dominant) == [] + first + rest;
    SentenceMentions(s1, dominant[0], dominant[1], [], rest);
    var front := first + FillTwo(w.summary(Style), ToLowerCase(sorted[0].name), ToLowerCase(sorted[1].name));
    assert Summary(w, sorted, dominant) == front + FillTwo(s3, ToLowerCase(lowest[0].name), ToLowerCase(lowest[1].name)) + [];
    SentenceMentions(s3, ToLowerCase(lowest[0].name), ToLowerCase(lowest[1].name), front, []);
  }

  /** A filled sentence, with text on either side, contains both names. */
  lemma {:induction false} SentenceMentions(t: TwoSlots, x: string, y: string, pre: string, post: string)
    ensures Contains(pre + FillTwo(t, x, y) + post, x)
    ensures Contains(pre + FillTwo(t, x, y) + post, y)
  {
    var s := pre + FillTwo(t, x, y) + post;
    var i, j := |pre| + |t.before|, |pre| + |t.before| + |x| + |t.between|;
    assert s[i..i + |x|] == x;
    assert s[j..j + |y|] == y;
    assert OccursAt(s, x, i) && OccursAt(s, y, j);
  }

  /**
   * The profile names the ranked traits: the dominant names are the first
   * two of the ranking, the summary holds the top trait's name and the
   * lowest trait's lower-cased name, and the first two tips name the top
   * trait and, lower-cased, the lowest-but-one.
   */
  lemma {:induction false} ProfileNamesRankedTraits(traits: seq<Trait>, w: Wording)
    requires |traits| >= 3
    ensures ProfileOf(traits, w).dominantTraits[0] == SortedTraits(traits)[0].name
    ensures ProfileOf(traits, w).dominantTraits[1] == SortedTraits(traits)[1].name
    ensures Contains(ProfileOf(traits, w).summary, SortedTraits(traits)[0].name)
    ensures Contains(ProfileOf(traits, w).summary, ToLowerCase(LowestTraits(traits)[1].name))
    ensures ProfileOf(traits, w).interviewTips[0] == FillOne(w.tip(Leverage), SortedTraits(traits)[0].name)
    ensures ProfileOf(traits, w).interviewTips[1] == FillOne(w.tip(Probe), ToLowerCase(LowestTraits(traits)[0].name))
  {
    var sorted := SortedTraits(traits);
    var dominant := DominantTraits(traits);
    assert dominant[0] == sorted[0].name && dominant[1] == sorted[1].name;
    SummaryMentions(w, sorted, dominant);
  }

  /** When every trait scores the same, the dominant traits are the first three in definition order. */
  lemma {:induction false} EqualScoresKeepDefinitionOrder(traits: seq<Trait>, score: int)
    requires |traits| >= 3
    requires forall i :: 0 <= i < |traits| ==> traits[i].score == score
    ensures DominantTraits(traits) == [traits[0].name, traits[1].name, traits[2].name]
    ensures LowestTraits(traits) == traits[|traits| - 2..]
  {
    SortDescConstant(traits, TraitScore, score);
  }

  /** The profile of some answers, given the keyword table, the trait texts and the wording. */
  function ProfileFor(answers: seq<string>, patterns: seq<seq<string>>, texts: seq<TraitText>, w: Wording): (p: PersonalityProfile)
    requires |patterns| == 10 && |texts| == |patterns|
    ensures |p.traits| == |texts|
    ensures forall t :: 0 <= t < |texts| ==> p.traits[t].name == texts[t].name && 50 <= p.traits[t].score <= 100
  {
    ScoresInRange(CombinedText(answers), patterns);
    ProfileOf(BuildTraits(TraitScores(CombinedText(answers), patterns), texts), w)
  }

  /**
   * `analyzePersonality` with the keyword table, the trait texts and the
   * wording as parameters.
   */
  method AnalyzeWith(answers: seq<string>, patterns: seq<seq<string>>, texts: seq<TraitText>, w: Wording)
    returns (profile: PersonalityProfile)
    requires |patterns| == 10 && |texts| == |patterns|
    ensures profile == ProfileFor(answers, patterns, texts, w)
  {
    var combinedText := ToLowerCase(Join(answers, " "));
    var traitScores := ScoreTraits(combinedText, patterns);
    var traits := BuildTraits(traitScores, texts);
    profile := ProfileOf(traits, w);
  }

  /** `analyzePersonality(answers)`. */
  method AnalyzePersonality(answers: seq<string>) returns (profile: PersonalityProfile)
    ensures profile == ProfileFor(answers, KeywordPatterns(), TraitTexts(), ProfileWording())
  {
    profile := AnalyzeWith(answers, KeywordPatterns(), TraitTexts(), ProfileWording());
  }

  // ---------------------------------------------------------------------
  // Tables
  // ---------------------------------------------------------------------

  /** The keys of the score dictionary, in definition order. */
  datatype TraitKey = Analytical | Creative | DetailOriented | Leadership | Teamwork
                    | Communication | Adaptability | ProblemSolving | Confidence | Empathy

  const TraitKeys: seq<TraitKey> :=
    [Analytical, Creative, DetailOriented, Leadership, Teamwork,
     Communication, Adaptability, ProblemSolving, Confidence, Empathy]

  /** `keywordPatterns`, in the order of the trait keys. */
  function KeywordPatterns(): (patterns: seq<seq<string>>)
    ensures |patterns| == |TraitKeys|
    ensures forall t :: 0 <= t < |patterns| ==> patterns[t] == Keywords(TraitKeys[t])
  {
    seq(|TraitKeys|, t requires 0 <= t < |TraitKeys| => Keywords(TraitKeys[t]))
  }

  /** The trait definitions, in the order of the trait keys. */
  function TraitTexts(): (texts: seq<TraitText>)
    ensures |texts| == |TraitKeys|
    ensures forall t :: 0 <= t < |texts| ==> texts[t] == Definition(TraitKeys[t])
  {
    seq(|TraitKeys|, t requires 0 <= t < |TraitKeys| => Definition(TraitKeys[t]))
  }

  function Keywords(k: TraitKey): seq<string>
  {
    match k
    case Analytical =>
      ["analyze", "data", "logical", "research", "evaluate", "assessment", "metrics", "systematic", "objective", "rational"]
    case Creative =>
      ["creative", "innovative", "design", "new ideas", "imagination", "artistic", "unique", "original", "brainstorm", "vision"]
    case DetailOriented =>
      ["detail", "thorough", "precise", "accurate", "meticulous", "organized", "careful", "methodical", "exact", "specific"]
    case Leadership =>
      ["lead", "manage", "direct", "guide", "influence", "motivate", "inspire", "vision", "strategy", "decision"]
    case Teamwork =>
      ["team", "collaborate", "together", "cooperation", "collective", "partnership", "joint", "group", "support", "assist"]
    case Communication =>
      ["communicate", "explain", "articulate", "present", "discuss", "convey", "express", "clarify", "dialogue", "conversation"]
    case Adaptability =>
      ["adapt", "flexible", "adjust", "change", "versatile", "resilient", "agile", "pivot", "responsive", "dynamic"]
    case ProblemSolving =>
      ["solve", "solution", "resolve", "address", "fix", "troubleshoot", "overcome", "tackle", "approach", "strategy"]
    case Confidence =>
      ["confident", "certain", "assured", "self-assured", "conviction", "decisive", "assertive", "bold", "strong", "sure"]
    case Empathy =>
      ["understand", "perspective", "feelings", "compassion", "empathize", "listen", "care", "sensitive", "considerate", "supportive"]
  }

  function Definition(k: TraitKey): TraitText
  {
    match k
    case Analytical =>
      TraitText("Analytical Thinking",
          "Your ability to examine information or situations methodically, breaking them down into components, and evaluating them logically.",
          ["Strong data-driven decision making", "Ability to identify patterns and insights", "Logical approach to problem-solving"],
          ["Balance analysis with intuition when appropriate", "Communicate analytical findings in accessible ways",
           "Don't get lost in details at the expense of the big picture"])
    case Creative =>
      TraitText("Creativity",
          "Your ability to generate original ideas, think outside conventional frameworks, and develop innovative solutions.",
          ["Innovative approach to challenges", "Ability to envision new possibilities", "Thinking beyond conventional solutions"],
          ["Balance creativity with practicality", "Structure your creative process for better outcomes",
           "Communicate the value of creative solutions to stakeholders"])
    case DetailOriented =>
      TraitText("Detail Orientation",
          "Your capacity to pay close attention to small elements and ensure accuracy and thoroughness in your work.",
          ["Thorough and precise work output", "Ability to catch errors and inconsistencies", "Methodical approach to tasks"],
          ["Balance attention to detail with efficiency", "Don't lose sight of the bigger picture",
           "Develop systems to manage details without becoming overwhelmed"])
    case Leadership =>
      TraitText("Leadership",
          "Your ability to guide, influence, and inspire others toward achieving goals and objectives.",
          ["Ability to motivate and inspire teams", "Strategic vision and direction-setting", "Decision-making capabilities"],
          ["Develop a more inclusive leadership style", "Balance directing with empowering others", "Improve delegation skills"])
    case Teamwork =>
      TraitText("Teamwork",
          "Your ability to collaborate effectively with others, contribute to group efforts, and support collective goals.",
          ["Collaborative approach to projects", "Supportive of team members", "Ability to leverage diverse perspectives"],
          ["Balance team consensus with timely decision-making", "Improve conflict resolution within teams",
           "Develop strategies for working with different personality types"])
    case Communication =>
      TraitText("Communication",
          "Your ability to convey information clearly, listen effectively, and adapt your communication style to different audiences.",
          ["Clear and articulate expression of ideas", "Ability to tailor communication to the audience", "Active listening skills"],
          ["Practice more concise communication", "Improve non-verbal communication awareness",
           "Develop storytelling techniques for more engaging communication"])
    case Adaptability =>
      TraitText("Adaptability",
          "Your ability to adjust to new conditions, handle change effectively, and remain flexible in various situations.",
          ["Flexibility in changing circumstances", "Openness to new approaches and ideas", "Resilience in the face of challenges"],
          ["Develop strategies for managing stress during change", "Balance adaptability with consistency where needed",
           "Improve anticipation of potential changes"])
    case ProblemSolving =>
      TraitText("Problem Solving",
          "Your ability to identify issues, develop solutions, and implement effective resolutions to challenges.",
          ["Methodical approach to addressing challenges", "Creative solution development", "Persistence in resolving complex issues"],
          ["Consider a wider range of potential solutions", "Improve root cause analysis techniques",
           "Balance quick fixes with sustainable solutions"])
    case Confidence =>
      TraitText("Confidence",
          "Your self-assurance, conviction in your abilities, and comfort in expressing your views and taking action.",
          ["Self-assured presentation style", "Willingness to take on challenges", "Ability to make decisions with conviction"],
          ["Balance confidence with openness to feedback", "Develop strategies for situations that challenge your confidence",
           "Practice authentic confidence rather than overcompensation"])
    case Empathy =>
      TraitText("Empathy",
          "Your ability to understand others' perspectives, recognize their feelings, and respond appropriately to their needs.",
          ["Strong understanding of others' perspectives", "Ability to build rapport and trust",
           "Sensitivity to team dynamics and individual needs"],
          ["Balance empathy with necessary directness", "Develop boundaries to prevent emotional exhaustion",
           "Translate empathetic understanding into effective action"])
  }

  datatype Sentence = Strongest | Style | Growth

  /** The fixed wording of the summary sentences. */
  function SummaryTemplate(s: Sentence): TwoSlots
  {
    match s
    case Strongest => TwoSlots("Your responses indicate that you have particularly strong ", " and ", " traits. ")
    case Style => TwoSlots("You communicate in a way that demonstrates ", " and ", ". ")
    case Growth => TwoSlots("You might benefit from developing your ", " and ", " skills further.")
  }

  datatype Tip = Leverage | Probe | Examples | Perception | Improve

  function ProfileWording(): Wording
  {
    Wording(SummaryTemplate, TipTemplate)
  }

  /** The fixed wording of the interview tips. */
  function TipTemplate(t: Tip): OneSlot
  {
    match t
    case Leverage => OneSlot("Leverage your strong ", " when answering questions about your work style and achievements.")
    case Probe => OneSlot("Be prepared to discuss situations that required ", ", as interviewers may probe this area.")
    case Examples => OneSlot("Use specific examples that highlight your ", " when discussing past experiences.")
    case Perception => OneSlot("Consider how your ", " might be perceived - ensure you're presenting it as a balanced strength.")
    case Improve => OneSlot("Prepare stories that demonstrate how you've worked to improve your ", " in professional settings.")
  }
}
