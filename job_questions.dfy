/**
 * The job-specific interview question selector: a fixed table of job
 * profiles, each a list of weighted question categories; the lookup of a
 * job title in that table; and the loop that picks questions by a
 * weighted roulette-wheel choice of category followed by a uniform choice
 * of a question not yet asked.
 *
 * `Math.random()` is replaced by a finite sequence of draws. The source's
 * loop may retry without end (when the selected categories hold fewer
 * distinct questions than requested), so the model stops when fewer than
 * the two draws an iteration may need remain, and says so in its contract.
 */
module JobQuestions {
  import opened Common
  import opened Text

  datatype Category = Category(name: string, weight: int, questions: seq<string>)

  datatype Profile = Profile(
    categories: seq<Category>,
    technicalTopics: Option<seq<string>>,
    codingChallenges: Option<seq<string>>)

  // ---------------------------------------------------------------------
  // The profile table is well formed
  // ---------------------------------------------------------------------

  /** Every category has a positive weight and at least one question. */
  predicate CategoriesWellFormed(cats: seq<Category>)
  {
    forall i :: 0 <= i < |cats| ==> cats[i].weight > 0 && |cats[i].questions| > 0
  }

  predicate ProfileWellFormed(p: Profile)
  {
    |p.categories| > 0 && CategoriesWellFormed(p.categories)
  }

  /** Every key has a profile, and every profile has well-formed, non-empty categories. */
  lemma TableWellFormed()
    ensures |JobProfiles| == |JobKeys|
    ensures forall i :: 0 <= i < |JobProfiles| ==> ProfileWellFormed(JobProfiles[i])
  {
    forall i | 0 <= i < |JobProfiles| ensures ProfileWellFormed(JobProfiles[i]) {
      EntryWellFormed(i);
    }
  }

  lemma EntryWellFormed(i: nat)
    requires i < |JobProfiles|
    ensures ProfileWellFormed(JobProfiles[i])
  {
  }

  /** The table's keys are distinct. */
  lemma KeysDistinct()
    ensures forall i, j :: 0 <= i < j < |JobKeys| ==> JobKeys[i] != JobKeys[j]
  {
  }

  // ---------------------------------------------------------------------
  // Title normalisation and profile lookup
  // ---------------------------------------------------------------------

  /** `title.toLowerCase().trim()`. */
  function NormalizeJobTitle(title: string): (r: string)
    ensures r != [] ==> !IsSpace(r[0]) && !IsSpace(r[|r| - 1])
    ensures r == [] <==> !HasNonSpace(ToLowerCase(title))
  {
    Trim(ToLowerCase(title))
  }

  /** Surrounding white space does not change the normalised title. */
  lemma NormalizeIgnoresPadding(pre: string, title: string, post: string)
    requires forall j :: 0 <= j < |pre| ==> IsSpace(pre[j])
    requires forall j :: 0 <= j < |post| ==> IsSpace(post[j])
    ensures NormalizeJobTitle(pre + title + post) == NormalizeJobTitle(title)
  {
    ToLowerCaseAppend(pre + title, post);
    ToLowerCaseAppend(pre, title);
    ToLowerCaseSpaces(pre);
    ToLowerCaseSpaces(post);
    TrimPadded(pre, ToLowerCase(title), post);
  }

  /** ASCII letter case does not change the normalised title. */
  lemma NormalizeIgnoresCase(title: string)
    ensures NormalizeJobTitle(Fold(title)) == NormalizeJobTitle(title)
  {
    ToLowerCaseFold(title);
  }

  predicate IsPartialMatch(t: string, key: string)
  {
    Contains(t, key) || Contains(key, t)
  }

  /** The index of the key equal to t, if any (`jobProfiles[t]`). */
  function ExactIndex(t: string, i: nat): (r: Option<nat>)
    requires i <= |JobKeys|
    ensures r.Some? ==> i <= r.value < |JobKeys| && JobKeys[r.value] == t
    ensures r.None? ==> forall j :: i <= j < |JobKeys| ==> JobKeys[j] != t
    decreases |JobKeys| - i
  {
    if i == |JobKeys| then None
    else if JobKeys[i] == t then Some(i)
    else ExactIndex(t, i + 1)
  }

  /** The first index, in table order, whose key contains t or is contained in t. */
  function PartialIndex(t: string, i: nat): (r: Option<nat>)
    requires i <= |JobKeys|
    ensures r.Some? ==> i <= r.value < |JobKeys| && IsPartialMatch(t, JobKeys[r.value])
    ensures r.Some? ==> forall j :: i <= j < r.value ==> !IsPartialMatch(t, JobKeys[j])
    ensures r.None? ==> forall j :: i <= j < |JobKeys| ==> !IsPartialMatch(t, JobKeys[j])
    decreases |JobKeys| - i
  {
    if i == |JobKeys| then None
    else if IsPartialMatch(t, JobKeys[i]) then Some(i)
    else PartialIndex(t, i + 1)
  }

  /**
   * The table entry `findMatchingJobProfile` chooses for a normalised title
   * t: the key equal to t; otherwise the first key in table order that
   * contains t or that t contains; otherwise "software engineer" (entry 0).
   */
  function ProfileIndex(t: string): (k: nat)
    ensures k < |JobKeys|
    ensures (exists i | 0 <= i < |JobKeys| :: JobKeys[i] == t) ==> JobKeys[k] == t
    ensures (forall i | 0 <= i < |JobKeys| :: JobKeys[i] != t) ==>
      if exists i | 0 <= i < |JobKeys| :: IsPartialMatch(t, JobKeys[i])
      then IsPartialMatch(t, JobKeys[k])
        && forall j :: 0 <= j < k ==> !IsPartialMatch(t, JobKeys[j])
      else k == 0
  {
    match ExactIndex(t, 0)
    case Some(k) => k
    case None =>
      match PartialIndex(t, 0)
      case Some(k) => k
      case None => 0
  }

  function MatchingProfile(jobTitle: string): Profile
  {
    JobProfiles[ProfileIndex(NormalizeJobTitle(jobTitle))]
  }

  /** Entry 0 of the table is the default profile. */
  lemma DefaultIsSoftwareEngineer()
    ensures JobKeys[0] == "software engineer"
  {
  }

  /** A title that is a table key in any case and with any surrounding white space finds that key's profile. */
  lemma LookupKeyWithPadding(pre: string, title: string, post: string, i: nat)
    requires forall j :: 0 <= j < |pre| ==> IsSpace(pre[j])
    requires forall j :: 0 <= j < |post| ==> IsSpace(post[j])
    requires i < |JobKeys| && NormalizeJobTitle(title) == JobKeys[i]
    ensures ProfileIndex(NormalizeJobTitle(pre + Fold(title) + post)) == i
  {
    NormalizeIgnoresPadding(pre, Fold(title), post);
    NormalizeIgnoresCase(title);
    KeysDistinct();
  }

  /**
   * `findMatchingJobProfile`: the direct lookup, then a scan of the table
   * in order that returns at the first partial match, then the default.
   */
  method FindMatchingJobProfile(jobTitle: string) returns (profile: Profile)
    ensures profile == MatchingProfile(jobTitle)
    ensures ProfileWellFormed(profile)
  {
    var t := NormalizeJobTitle(jobTitle);
    var index := 0;
    var exact := ExactIndex(t, 0);
    if exact.Some? {
      index := exact.value;
    } else {
      var i := 0;
      var found := false;
      while i < |JobKeys| && !found
        invariant 0 <= i <= |JobKeys|
        invariant found ==> i < |JobKeys| && index == i && IsPartialMatch(t, JobKeys[i])
        invariant !found ==> index == 0
        invariant forall j :: 0 <= j < i ==> !IsPartialMatch(t, JobKeys[j])
        decreases |JobKeys| - i, !found
      {
        if Contains(t, JobKeys[i]) || Contains(JobKeys[i], t) {
          found := true;
          index := i;
        } else {
          i := i + 1;
        }
      }
    }
    assert index == ProfileIndex(t);
    EntryWellFormed(index);
    profile := JobProfiles[index];
  }

  /** `jobProfile?.technicalTopics || []`. */
  function GetJobTechnicalTopics(jobTitle: string): (r: seq<string>)
    ensures MatchingProfile(jobTitle).technicalTopics.Some? ==> r == MatchingProfile(jobTitle).technicalTopics.value
    ensures MatchingProfile(jobTitle).technicalTopics.None? ==> r == []
  {
    match MatchingProfile(jobTitle).technicalTopics
    case Some(ts) => ts
    case None => []
  }

  /** `jobProfile?.codingChallenges || []`. */
  function GetJobCodingChallenges(jobTitle: string): (r: seq<string>)
    ensures MatchingProfile(jobTitle).codingChallenges.Some? ==> r == MatchingProfile(jobTitle).codingChallenges.value
    ensures MatchingProfile(jobTitle).codingChallenges.None? ==> r == []
  {
    match MatchingProfile(jobTitle).codingChallenges
    case Some(cs) => cs
    case None => []
  }

  /** Only the software engineer profile lists technical topics and coding challenges. */
  lemma TopicsOnlyForSoftwareEngineer(jobTitle: string)
    ensures GetJobTechnicalTopics(jobTitle) != [] <==> ProfileIndex(NormalizeJobTitle(jobTitle)) == 0
    ensures GetJobCodingChallenges(jobTitle) != [] <==> ProfileIndex(NormalizeJobTitle(jobTitle)) == 0
    ensures ProfileIndex(NormalizeJobTitle(jobTitle)) == 0 ==>
      |GetJobTechnicalTopics(jobTitle)| == 10 && |GetJobCodingChallenges(jobTitle)| == 8
  {
  }

  // ---------------------------------------------------------------------
  // Category filtering
  // ---------------------------------------------------------------------

  /** `categories.filter((c) => preferred.includes(c.name))`. */
  function Preferred(cats: seq<Category>, preferred: seq<string>): (r: seq<Category>)
    ensures |r| <= |cats|
    ensures forall c :: c in r <==> c in cats && c.name in preferred
    ensures CategoriesWellFormed(cats) ==> CategoriesWellFormed(r)
  {
    if cats == [] then []
    else (if cats[0].name in preferred then [cats[0]] else []) + Preferred(cats[1..], preferred)
  }

  /**
   * The categories questions are drawn from: those whose name is preferred,
   * in profile order, or all of them when nothing is preferred or no
   * category name matches.
   */
  function AvailableCategories(cats: seq<Category>, preferred: seq<string>): (r: seq<Category>)
    ensures preferred == [] || Preferred(cats, preferred) == [] ==> r == cats
    ensures preferred != [] && Preferred(cats, preferred) != [] ==> r == Preferred(cats, preferred)
    ensures forall c :: c in r ==> c in cats
    ensures cats != [] ==> r != []
    ensures CategoriesWellFormed(cats) ==> CategoriesWellFormed(r)
  {
    if |preferred| > 0 then
      var filtered := Preferred(cats, preferred);
      if |filtered| == 0 then cats else filtered
    else cats
  }

  /** Filtering keeps the profile's order: the chosen categories appear in cats in the same order. */
  lemma {:induction false} PreferredKeepsOrder(cats: seq<Category>, preferred: seq<string>)
    ensures Preferred(cats, preferred) == Subsequence(cats, seq(|cats|, i requires 0 <= i < |cats| => cats[i].name in preferred))
  {
    if cats != [] {
      PreferredKeepsOrder(cats[1..], preferred);
      var keep := seq(|cats|, i requires 0 <= i < |cats| => cats[i].name in preferred);
      assert keep[1..] == seq(|cats[1..]|, i requires 0 <= i < |cats[1..]| => cats[1..][i].name in preferred);
    }
  }

  /** The elements of xs whose flag is set, in order. */
  function Subsequence<T>(xs: seq<T>, keep: seq<bool>): seq<T>
    requires |keep| == |xs|
  {
    if xs == [] then [] else (if keep[0] then [xs[0]] else []) + Subsequence(xs[1..], keep[1..])
  }

  // ---------------------------------------------------------------------
  // Weighted roulette-wheel choice
  // ---------------------------------------------------------------------

  /** The weight of the first k categories. */
  function Prefix(cats: seq<Category>, k: nat): int
    requires k <= |cats|
  {
    if k == 0 then 0 else Prefix(cats, k - 1) + cats[k - 1].weight
  }

  /** `categories.reduce((sum, c) => sum + c.weight, 0)`. */
  function TotalWeight(cats: seq<Category>): int
  {
    Prefix(cats, |cats|)
  }

  lemma {:induction false} PrefixMonotone(cats: seq<Category>, j: nat, k: nat)
    requires j <= k <= |cats| && CategoriesWellFormed(cats)
    ensures Prefix(cats, j) <= Prefix(cats, k)
    ensures j < k ==> Prefix(cats, j) < Prefix(cats, k)
    decreases k
  {
    if j < k {
      PrefixMonotone(cats, j, k - 1);
    }
  }

  /** The running weight after subtracting category j: the weight of categories 0..j. */
  function Running(cats: seq<Category>, j: nat): int
    requires j < |cats|
  {
    Prefix(cats, j + 1)
  }

  /** The first index k at or after i whose running weight reaches x. */
  function FirstReaching(cats: seq<Category>, x: real, i: nat): (r: Option<nat>)
    requires i <= |cats|
    ensures r.Some? ==> i <= r.value < |cats| && Prefix(cats, r.value + 1) as real >= x
    ensures r.Some? ==> forall j :: i <= j < r.value ==> (Running(cats, j) as real) < x
    ensures r.None? ==> forall j :: i <= j < |cats| ==> (Running(cats, j) as real) < x
    decreases |cats| - i
  {
    if i == |cats| then None
    else if Prefix(cats, i + 1) as real >= x then Some(i)
    else FirstReaching(cats, x, i + 1)
  }

  /**
   * The category the roulette walk selects for the value x = r * total:
   * the first whose running weight reaches x, or category 0 if none does.
   */
  function RouletteIndex(cats: seq<Category>, x: real): (k: nat)
    requires cats != []
    ensures k < |cats|
  {
    match FirstReaching(cats, x, 0)
    case Some(k) => k
    case None => 0
  }

  /**
   * For a draw in [0, 1) and non-negative weights some category is always
   * reached, so the fall-back to category 0 never decides the outcome.
   */
  lemma RouletteAlwaysReaches(cats: seq<Category>, r: Draw)
    requires cats != [] && CategoriesWellFormed(cats)
    ensures FirstReaching(cats, r * TotalWeight(cats) as real, 0).Some?
  {
    PrefixMonotone(cats, 0, |cats|);
    var n := TotalWeight(cats);
    assert n > 0;
    var x := r * n as real;
    ScaledBelow(r, n);
    assert x < n as real;
    ReachesFrom(cats, x, 0);
  }

  /** A value no larger than the total weight is reached at or after any index. */
  lemma {:induction false} ReachesFrom(cats: seq<Category>, x: real, i: nat)
    requires i < |cats| && x <= Prefix(cats, |cats|) as real
    ensures FirstReaching(cats, x, i).Some?
    decreases |cats| - i
  {
    if Prefix(cats, i + 1) as real < x {
      ReachesFrom(cats, x, i + 1);
    }
  }

  /** Category k is selected exactly when x lies in its slice (Prefix(k), Prefix(k + 1)] of the wheel. */
  lemma RouletteSlice(cats: seq<Category>, x: real, k: nat)
    requires CategoriesWellFormed(cats) && k < |cats|
    requires Prefix(cats, k) as real < x <= Prefix(cats, k + 1) as real
    ensures RouletteIndex(cats, x) == k
  {
    var r := FirstReaching(cats, x, 0);
    assert Running(cats, k) as real >= x;
    assert r.Some?;
    if r.value < k {
      PrefixMonotone(cats, r.value + 1, k);
    }
  }

  /** The category the draw r selects: the wheel position r * TotalWeight(cats). */
  function DrawCategory(cats: seq<Category>, r: Draw): (k: nat)
    requires cats != []
    ensures k < |cats|
  {
    RouletteIndex(cats, r * TotalWeight(cats) as real)
  }

  /**
   * The inner `for` loop: subtract each weight from `r * total` and stop at
   * the first category where the remainder is no longer positive.
   */
  method SelectCategory(cats: seq<Category>, r: Draw) returns (k: nat)
    requires cats != []
    ensures k == RouletteIndex(cats, r * TotalWeight(cats) as real) == DrawCategory(cats, r)
  {
    var x := r * TotalWeight(cats) as real;
    var randomWeight := x;
    k := 0;
    var i := 0;
    while i < |cats|
      invariant 0 <= i <= |cats|
      invariant randomWeight == x - Prefix(cats, i) as real
      invariant forall j :: 0 <= j < i ==> (Running(cats, j) as real) < x
    {
      randomWeight := randomWeight - cats[i].weight as real;
      if randomWeight <= 0.0 {
        k := i;
        assert FirstReaching(cats, x, 0) == FirstReaching(cats, x, i) by {
          FirstReachingSkip(cats, x, 0, i);
        }
        return;
      }
      i := i + 1;
    }
    assert FirstReaching(cats, x, 0).None? by {
      FirstReachingSkip(cats, x, 0, |cats|);
    }
  }

  /** Indices that do not reach x can be skipped. */
  lemma {:induction false} FirstReachingSkip(cats: seq<Category>, x: real, i: nat, j: nat)
    requires i <= j <= |cats|
    requires forall m :: i <= m < j ==> (Running(cats, m) as real) < x
    ensures FirstReaching(cats, x, i) == FirstReaching(cats, x, j)
    decreases j - i
  {
    if i < j {
      assert (Running(cats, i) as real) < x;
      FirstReachingSkip(cats, x, i + 1, j);
    }
  }

  // ---------------------------------------------------------------------
  // Question selection
  // ---------------------------------------------------------------------

  /** `questions.filter((q) => !used.includes(q))`. */
  function Unused(questions: seq<string>, used: seq<string>): (r: seq<string>)
    ensures forall q :: q in r <==> q in questions && q !in used
  {
    if questions == [] then []
    else (if questions[0] in used then [] else [questions[0]]) + Unused(questions[1..], used)
  }

  /** Question q of type name comes from an available category of that name. */
  predicate DrawnFrom(cats: seq<Category>, q: string, name: string)
  {
    exists c :: c in cats && c.name == name && q in c.questions
  }

  /** The categories `generateJobSpecificQuestions` draws from for these arguments. */
  function Available(jobTitle: string, preferred: seq<string>): seq<Category>
  {
    AvailableCategories(MatchingProfile(jobTitle).categories, preferred)
  }

  /**
   * The rounds of `generateJobSpecificQuestions` from the draws
   * draws[used..], with questions and types already chosen: while fewer
   * than count questions are chosen and two draws remain, draw a category
   * with draws[used]; when it still has unasked questions, draw one of them
   * with draws[used + 1] and append it, otherwise try again with the next
   * draw. (A category without any questions is retried as well; no
   * category of the table is empty, so the source's branch for that case
   * is never taken.)
   */
  function JobRounds(cats: seq<Category>, count: int, draws: seq<Draw>,
                     questions: seq<string>, types: seq<string>, used: nat): (seq<string>, seq<string>, nat)
    requires cats != [] && used <= |draws|
    decreases |draws| - used
  {
    if |questions| >= count || used + 2 > |draws| then (questions, types, used)
    else
      var k := DrawCategory(cats, draws[used]);
      var unused := Unused(cats[k].questions, questions);
      if |unused| > 0 then
        var q := unused[ScaledIndex(draws[used + 1], |unused|)];
        JobRounds(cats, count, draws, questions + [q], types + [cats[k].name], used + 2)
      else
        JobRounds(cats, count, draws, questions, types, used + 1)
  }

  /**
   * What the chosen questions satisfy: one type per question, at most
   * count of them, each drawn from an available category of its type, and
   * no question twice.
   */
  ghost predicate JobDrawn(cats: seq<Category>, count: int, questions: seq<string>, types: seq<string>)
  {
    && |questions| == |types|
    && |questions| <= Max(count, 0)
    && (forall i :: 0 <= i < |questions| ==> DrawnFrom(cats, questions[i], types[i]))
    && (forall i, j :: 0 <= i < j < |questions| ==> questions[i] != questions[j])
  }

  /**
   * The rounds keep JobDrawn and only append; they stop short of count
   * questions only when fewer than two draws remain.
   */
  lemma {:induction false} JobRoundsKeep(cats: seq<Category>, count: int, draws: seq<Draw>,
                                         questions: seq<string>, types: seq<string>, used: nat)
    requires cats != [] && used <= |draws|
    requires JobDrawn(cats, count, questions, types)
    ensures var r := JobRounds(cats, count, draws, questions, types, used);
      && JobDrawn(cats, count, r.0, r.1)
      && questions <= r.0 && types <= r.1
      && used <= r.2 <= |draws|
      && (|r.0| < count ==> r.2 + 2 > |draws|)
    decreases |draws| - used
  {
    if |questions| < count && used + 2 <= |draws| {
      var k := DrawCategory(cats, draws[used]);
      var unused := Unused(cats[k].questions, questions);
      if |unused| > 0 {
        var q := unused[ScaledIndex(draws[used + 1], |unused|)];
        assert q in unused;
        assert q in cats[k].questions && q !in questions;
        var questions', types' := questions + [q], types + [cats[k].name];
        assert DrawnFrom(cats, q, cats[k].name);
        assert JobDrawn(cats, count, questions', types') by {
          forall i | 0 <= i < |questions'|
            ensures DrawnFrom(cats, questions'[i], types'[i])
          {
            if i < |questions| {
              assert questions'[i] == questions[i] && types'[i] == types[i];
            }
          }
        }
        JobRoundsKeep(cats, count, draws, questions', types', used + 2);
      } else {
        JobRoundsKeep(cats, count, draws, questions, types, used + 1);
      }
    }
  }

  /**
   * The loop of `generateJobSpecificQuestions` over the available
   * categories, the `Math.random()` results taken from draws; `used` is
   * how many were consumed. Each iteration draws a category (one draw)
   * and, when it still has an unasked question, a question from those (a
   * second draw) and appends it; otherwise it tries again. The result is
   * JobRounds from no questions and the first draw.
   */
  method DrawQuestions(available: seq<Category>, count: int, draws: seq<Draw>)
    returns (questions: seq<string>, types: seq<string>, used: nat)
    requires available != [] && CategoriesWellFormed(available)
    ensures (questions, types, used) == JobRounds(available, count, draws, [], [], 0)
  {
    questions, types, used := [], [], 0;
    while |questions| < count && used + 2 <= |draws|
      invariant used <= |draws|
      invariant JobRounds(available, count, draws, questions, types, used) == JobRounds(available, count, draws, [], [], 0)
      decreases |draws| - used
    {
      ghost var before, typed, at := questions, types, used;
      var k := SelectCategory(available, draws[used]);
      used := used + 1;
      var selected := available[k];
      var unused := Unused(selected.questions, questions);
      assert selected.questions[0] in selected.questions;
      if |unused| > 0 {
        var q := unused[ScaledIndex(draws[used], |unused|)];
        JobRoundsTake(available, count, draws, before, typed, at, k, unused, q);
        used := used + 1;
        questions := questions + [q];
        types := types + [selected.name];
      } else if |questions| == 0 {
        // Every category has questions, so with nothing asked yet all of them are unused.
        assert false;
      } else {
        JobRoundsRetry(available, count, draws, before, typed, at, k, unused);
      }
    }
    JobRoundsStop(available, count, draws, questions, types, used);
  }

  /**
   * `generateJobSpecificQuestions(jobTitle, count, preferredCategories)`
   * with the `Math.random()` results taken from draws: the matching
   * profile's available categories, then DrawQuestions over them.
   */
  method GenerateJobSpecificQuestions(jobTitle: string, count: int, preferred: seq<string>, draws: seq<Draw>)
    returns (questions: seq<string>, types: seq<string>, used: nat)
    ensures |questions| == |types|
    ensures |questions| <= Max(count, 0)
    ensures used <= |draws|
    ensures |questions| < count ==> used + 2 > |draws|
    ensures forall i :: 0 <= i < |questions| ==> DrawnFrom(Available(jobTitle, preferred), questions[i], types[i])
    ensures forall i, j :: 0 <= i < j < |questions| ==> questions[i] != questions[j]
    ensures (questions, types, used) == JobRounds(Available(jobTitle, preferred), count, draws, [], [], 0)
  {
    var profile := FindMatchingJobProfile(jobTitle);
    var available := AvailableCategories(profile.categories, preferred);
    questions, types, used := DrawQuestions(available, count, draws);
    JobRoundsKeep(available, count, draws, [], [], 0);
  }

  /** A round that finds an unasked question appends it and uses two draws. */
  lemma JobRoundsTake(cats: seq<Category>, count: int, draws: seq<Draw>, questions: seq<string>, types: seq<string>,
                      used: nat, k: nat, unused: seq<string>, q: string)
    requires cats != [] && used + 2 <= |draws| && |questions| < count
    requires k == DrawCategory(cats, draws[used])
    requires unused == Unused(cats[k].questions, questions) && |unused| > 0
    requires q == unused[ScaledIndex(draws[used + 1], |unused|)]
    ensures JobRounds(cats, count, draws, questions + [q], types + [cats[k].name], used + 2)
         == JobRounds(cats, count, draws, questions, types, used)
  {
  }

  /** A round whose category has nothing unasked left uses one draw and changes nothing else. */
  lemma JobRoundsRetry(cats: seq<Category>, count: int, draws: seq<Draw>, questions: seq<string>, types: seq<string>,
                       used: nat, k: nat, unused: seq<string>)
    requires cats != [] && used + 2 <= |draws| && |questions| < count
    requires k == DrawCategory(cats, draws[used])
    requires unused == Unused(cats[k].questions, questions) && |unused| == 0
    ensures JobRounds(cats, count, draws, questions, types, used + 1) == JobRounds(cats, count, draws, questions, types, used)
  {
  }

  /** Once count questions are chosen or fewer than two draws remain, the rounds stop. */
  lemma JobRoundsStop(cats: seq<Category>, count: int, draws: seq<Draw>,
                      questions: seq<string>, types: seq<string>, used: nat)
    requires cats != [] && used <= |draws|
    requires |questions| >= count || used + 2 > |draws|
    ensures JobRounds(cats, count, draws, questions, types, used) == (questions, types, used)
  {
  }

  /**
   * The keys of the job profile table, in the order `Object.entries` lists
   * them; JobProfiles[i] is the profile stored under JobKeys[i].
   */
  const JobKeys: seq<string> := ["software engineer", "product manager", "data scientist", "ux designer", "marketing manager"]

  /** The question banks and weights of each job profile. */
  const JobProfiles: seq<Profile> := [
    // software engineer
    Profile(
      [
        Category("technical", 8, [
          "Explain the difference between a stack and a queue. When would you use one over the other?",
          "What is the time complexity of searching in a binary search tree? How does it compare to a linked list?",
          "Explain the concept of RESTful APIs and their key principles.",
          "What are the SOLID principles in object-oriented programming?",
          "Describe the difference between process and thread in operating systems.",
          "What is dependency injection and why is it useful?",
          "Explain the concept of database normalization and its benefits.",
          "What is the difference between HTTP and HTTPS?",
          "Describe the MVC architecture pattern and its components.",
          "What is the difference between synchronous and asynchronous programming?"
        ]),
        Category("coding", 7, [
          "Implement a function to reverse a linked list.",
          "Write a function to check if a string is a palindrome.",
          "Implement a binary search algorithm.",
          "Write a function to find the maximum subarray sum in an array of integers.",
          "Implement a function to detect a cycle in a linked list.",
          "Write a function to validate a binary search tree.",
          "Implement a function to perform level-order traversal of a binary tree.",
          "Write a function to merge two sorted arrays into one sorted array.",
          "Implement a function to find the longest common subsequence of two strings.",
          "Write a function to implement a basic calculator that can perform addition, subtraction, multiplication, and division."
        ]),
        Category("behavioral", 5, [
          "Tell me about a time when you had to debug a complex issue. What was your approach?",
          "Describe a situation where you had to learn a new technology quickly for a project.",
          "Tell me about a time when you had to make a difficult technical decision. How did you approach it?",
          "Describe a project where you had to work with a difficult team member. How did you handle it?",
          "Tell me about a time when you had to optimize code for performance. What techniques did you use?",
          "Describe a situation where you had to explain a complex technical concept to a non-technical stakeholder.",
          "Tell me about a time when you received critical feedback on your code. How did you respond?",
          "Describe a project where you had to meet a tight deadline. How did you ensure quality while working under pressure?"
        ]),
        Category("systemdesign", 6, [
          "How would you design a URL shortening service like bit.ly?",
          "Design a distributed cache system.",
          "How would you design a news feed system like Facebook or Twitter?",
          "Design a scalable web crawler.",
          "How would you design a ride-sharing service like Uber or Lyft?",
          "Design a key-value store with high availability and eventual consistency.",
          "How would you design a notification system that can handle millions of users?",
          "Design a system that can process and analyze large amounts of data in real-time."
        ])
      ],
      Some([
        "Data Structures",
        "Algorithms",
        "System Design",
        "Database Design",
        "Web Technologies",
        "Object-Oriented Programming",
        "Design Patterns",
        "Networking",
        "Operating Systems",
        "Concurrency"
      ]),
      Some([
        "Implement a function to find all duplicate elements in an array.",
        "Write a function to determine if a string is a palindrome, considering only alphanumeric characters and ignoring case.",
        "Implement a function that merges two sorted arrays into a single sorted array.",
        "Create a function that returns the nth number in the Fibonacci sequence using an efficient approach.",
        "Write a function to find the longest substring without repeating characters.",
        "Implement a basic calculator that can perform addition, subtraction, multiplication, and division.",
        "Create a function that determines if a binary tree is balanced.",
        "Implement a function that performs a deep clone of a JavaScript object."
      ])),
    // product manager
    Profile(
      [
        Category("behavioral", 7, [
          "Tell me about a time when you had to make a difficult product decision with limited data.",
          "Describe a situation where you had to prioritize features for a product. What was your approach?",
          "Tell me about a product you launched. What was your role and what challenges did you face?",
          "Describe a time when you had to say no to a feature request from an important stakeholder.",
          "Tell me about a time when you had to pivot a product strategy based on user feedback.",
          "Describe a situation where you had to work with a difficult team member. How did you handle it?",
          "Tell me about a time when you had to communicate a product vision to different teams.",
          "Describe a product failure you experienced. What did you learn from it?"
        ]),
        Category("technical", 5, [
          "How do you measure the success of a product?",
          "Explain the difference between user stories, epics, and themes.",
          "What metrics would you use to evaluate the health of a subscription-based product?",
          "How do you approach A/B testing for a new feature?",
          "Explain the concept of MVP (Minimum Viable Product) and how you would determine what features to include.",
          "How do you prioritize technical debt versus new features?",
          "What tools and methodologies do you use for product roadmapping?",
          "How do you approach user research and incorporate findings into product development?"
        ]),
        Category("productdesign", 6, [
          "How would you design a new feature for a ride-sharing app to improve driver retention?",
          "Design a solution to help users find and book fitness classes in their area.",
          "How would you redesign the checkout process for an e-commerce website to reduce cart abandonment?",
          "Design a new feature for a social media platform to increase user engagement.",
          "How would you design a product to help people manage their personal finances?",
          "Design a solution to help remote teams collaborate more effectively.",
          "How would you design a product to help people learn a new language?",
          "Design a solution to help people find and book appointments with healthcare providers."
        ]),
        Category("leadership", 5, [
          "Tell me about a time when you had to lead a cross-functional team to deliver a product.",
          "Describe a situation where you had to influence without authority.",
          "Tell me about a time when you had to resolve a conflict between team members.",
          "Describe a situation where you had to make a strategic decision that affected multiple teams.",
          "Tell me about a time when you had to motivate a team during a challenging project.",
          "Describe a situation where you had to provide difficult feedback to a team member.",
          "Tell me about a time when you had to advocate for user needs against business pressures.",
          "Describe a situation where you had to build consensus among stakeholders with different priorities."
        ])
      ],
      None,
      None),
    // data scientist
    Profile(
      [
        Category("technical", 8, [
          "Explain the difference between supervised and unsupervised learning with examples.",
          "What is the curse of dimensionality and how does it affect machine learning models?",
          "Explain the bias-variance tradeoff in machine learning.",
          "What is the difference between L1 and L2 regularization?",
          "Explain the concept of cross-validation and why it's important.",
          "What is the difference between bagging and boosting in ensemble methods?",
          "Explain how a random forest algorithm works.",
          "What is the difference between precision and recall? When would you prioritize one over the other?",
          "Explain the concept of feature engineering and why it's important in machine learning.",
          "What is the difference between a parametric and non-parametric model?"
        ]),
        Category("coding", 6, [
          "Write a function to clean and preprocess a dataset with missing values and outliers.",
          "Implement a simple linear regression algorithm from scratch.",
          "Write a function to perform k-means clustering on a dataset.",
          "Implement a function to calculate the precision, recall, and F1 score for a classification model.",
          "Write a function to perform feature selection using correlation analysis.",
          "Implement a simple neural network with one hidden layer using a deep learning framework.",
          "Write a function to perform time series forecasting using ARIMA.",
          "Implement a function to perform cross-validation for a machine learning model."
        ]),
        Category("behavioral", 5, [
          "Tell me about a data science project you worked on. What was your approach and what were the results?",
          "Describe a situation where you had to explain complex data findings to non-technical stakeholders.",
          "Tell me about a time when you had to work with incomplete or messy data. How did you handle it?",
          "Describe a situation where your data analysis led to a significant business decision.",
          "Tell me about a time when you had to optimize a model for performance or scalability.",
          "Describe a situation where you had to collaborate with engineers to deploy a model to production.",
          "Tell me about a time when your data analysis disproved a commonly held assumption.",
          "Describe a situation where you had to balance model complexity with interpretability."
        ]),
        Category("casestudy", 7, [
          "How would you design a recommendation system for an e-commerce website?",
          "Design a fraud detection system for a financial institution.",
          "How would you approach building a churn prediction model for a subscription service?",
          "Design a system to predict demand for a ride-sharing service.",
          "How would you build a sentiment analysis model for customer reviews?",
          "Design a system to optimize pricing for a hotel booking platform.",
          "How would you approach building a model to predict housing prices?",
          "Design a system to detect anomalies in network traffic for a cybersecurity company."
        ])
      ],
      None,
      None),
    // ux designer
    Profile(
      [
        Category("behavioral", 6, [
          "Tell me about a UX project you're most proud of. What was your role and what challenges did you face?",
          "Describe a situation where you had to advocate for the user against business or technical constraints.",
          "Tell me about a time when you had to incorporate user feedback to improve a design.",
          "Describe a situation where you had to work with a difficult stakeholder. How did you handle it?",
          "Tell me about a time when you had to make design decisions with limited data.",
          "Describe a situation where you had to balance user needs with business goals.",
          "Tell me about a time when you had to simplify a complex user flow.",
          "Describe a situation where you had to collaborate with developers to implement a design."
        ]),
        Category("technical", 7, [
          "Explain your design process from research to implementation.",
          "How do you approach user research for a new product or feature?",
          "What methods do you use to test and validate your designs?",
          "How do you create and use personas in your design process?",
          "Explain the concept of information architecture and how you approach it.",
          "How do you ensure your designs are accessible to all users?",
          "What tools and methodologies do you use for prototyping?",
          "How do you approach responsive design for different screen sizes?",
          "Explain the concept of design systems and their benefits.",
          "How do you measure the success of a design?"
        ]),
        Category("portfolio", 8, [
          "Walk me through a case study from your portfolio.",
          "Explain the problem you were trying to solve in this project.",
          "What research methods did you use and what insights did you gain?",
          "How did you iterate on your designs based on feedback?",
          "What were the key challenges in this project and how did you overcome them?",
          "How did you collaborate with other team members on this project?",
          "What metrics did you use to measure the success of this design?",
          "If you could go back, what would you do differently in this project?"
        ]),
        Category("designchallenge", 7, [
          "Design a mobile app to help people track and reduce their carbon footprint.",
          "Redesign the checkout process for an e-commerce website to improve conversion rates.",
          "Design a dashboard for a healthcare provider to monitor patient data.",
          "Create a new feature for a social media platform to encourage meaningful connections.",
          "Design a solution to help elderly users navigate a complex government website.",
          "Create a user onboarding experience for a new financial app.",
          "Design a system to help users find and book appointments with service providers.",
          "Create a new interface for a smart home device that controls multiple appliances."
        ])
      ],
      None,
      None),
    // marketing manager
    Profile(
      [
        Category("behavioral", 6, [
          "Tell me about a successful marketing campaign you led. What made it successful?",
          "Describe a situation where you had to pivot a marketing strategy based on data or feedback.",
          "Tell me about a time when you had to work with a limited budget. How did you maximize impact?",
          "Describe a situation where you had to target a new audience or enter a new market.",
          "Tell me about a time when you had to collaborate with other departments to achieve marketing goals.",
          "Describe a marketing failure you experienced. What did you learn from it?",
          "Tell me about a time when you had to balance short-term goals with long-term brand building.",
          "Describe a situation where you had to use data to inform a marketing decision."
        ]),
        Category("technical", 7, [
          "How do you approach market segmentation and targeting?",
          "What metrics do you use to measure the success of a marketing campaign?",
          "How do you calculate and optimize customer acquisition cost (CAC)?",
          "Explain your approach to A/B testing in marketing.",
          "How do you develop and maintain a content calendar?",
          "What tools and methodologies do you use for SEO?",
          "How do you approach marketing attribution in a multi-channel environment?",
          "Explain your process for developing a marketing budget and allocating resources.",
          "How do you approach competitive analysis?",
          "What is your methodology for pricing strategy?"
        ]),
        Category("casestudy", 8, [
          "How would you launch a new product in a competitive market?",
          "Develop a marketing strategy to increase user engagement for a mobile app.",
          "How would you approach rebranding a company with a negative public perception?",
          "Design a customer retention strategy for a subscription-based service.",
          "How would you develop a marketing strategy for a B2B SaaS product?",
          "Create a social media strategy for a luxury fashion brand.",
          "How would you approach marketing a product to a global audience?",
          "Design a marketing campaign to increase brand awareness among millennials."
        ]),
        Category("leadership", 5, [
          "Tell me about a time when you had to lead a cross-functional team to achieve a marketing goal.",
          "Describe a situation where you had to mentor or develop a team member.",
          "Tell me about a time when you had to make a difficult decision that affected your team.",
          "Describe a situation where you had to resolve a conflict within your team.",
          "Tell me about a time when you had to influence without authority.",
          "Describe a situation where you had to motivate your team during a challenging project.",
          "Tell me about a time when you had to provide difficult feedback to a team member.",
          "Describe a situation where you had to build consensus among stakeholders with different priorities."
        ])
      ],
      None,
      None)
  ]
}
