/**
 * The learning-plan aggregator of the learning-plan panel: from the
 * interview history and the scheduled interviews it computes the days
 * active, the overall progress, one focus area per question type ranked
 * weakest first, three days of practice tasks and the achievements; and
 * the calendar's day filter over the scheduled interviews.
 *
 * Clock readings are parameters: `now` is `new Date().getTime()` in
 * milliseconds, `weekday` is `today.getDay()`, and each calendar event
 * carries the local year, month and day its date falls on.
 */
module LearningPlan {
  import opened Common
  import opened Text
  import opened StableSort

  /** Milliseconds in a day, `1000 * 60 * 60 * 24`. */
  const DayMs: nat := 86400000

  // ---------------------------------------------------------------------
  // Input records
  // ---------------------------------------------------------------------

  /** One entry of `detailed_analysis`: its `type` and its `metrics.clarity`, either possibly missing. */
  datatype Analysis = Analysis(kind: Option<string>, clarity: Option<int>)

  /** One row of the interview history. */
  datatype Interview = Interview(completedAt: int, overallScore: Option<int>, detailedAnalysis: Option<seq<Analysis>>)

  /** One scheduled interview. */
  datatype Scheduled = Scheduled(title: string, scheduledAt: int)

  /** `analysis.type || "general"`: a missing or empty type counts as "general". */
  function TypeName(a: Analysis): (t: string)
    ensures t != []
  {
    if a.kind.Some? && a.kind.value != [] then a.kind.value else "general"
  }

  /** `analysis.metrics?.clarity || 0`. */
  function ClarityOf(a: Analysis): int
  {
    match a.clarity
    case Some(c) => c
    case None => 0
  }

  /** `item.overall_score || 0`. */
  function ScoreOf(h: Interview): int
  {
    match h.overallScore
    case Some(s) => s
    case None => 0
  }

  /** The analyses of one interview; an interview without them contributes none. */
  function Details(h: Interview): seq<Analysis>
  {
    match h.detailedAnalysis
    case Some(d) => d
    case None => []
  }

  /** The analyses of all interviews, in history order: what the nested `forEach` visits. */
  function AllAnalyses(history: seq<Interview>): seq<Analysis>
  {
    if history == [] then []
    else AllAnalyses(history[..|history| - 1]) + Details(history[|history| - 1])
  }

  // ---------------------------------------------------------------------
  // Days active, average score, progress
  // ---------------------------------------------------------------------

  function NegCompletedAt(h: Interview): int
  {
    -h.completedAt
  }

  /** `sortedHistory[0].completed_at` after the ascending sort by completion time, or `now`. */
  function FirstCompleted(history: seq<Interview>, now: int): (first: int)
  {
    if history == [] then now else SortDesc(history, NegCompletedAt)[0].completedAt
  }

  /** The first entry of the sorted history is the earliest interview of the history. */
  lemma FirstCompletedIsEarliest(history: seq<Interview>, now: int)
    requires history != []
    ensures exists i :: 0 <= i < |history| && history[i].completedAt == FirstCompleted(history, now)
    ensures forall i :: 0 <= i < |history| ==> FirstCompleted(history, now) <= history[i].completedAt
  {
    var sorted := SortDesc(history, NegCompletedAt);
    SortDescSorted(history, NegCompletedAt);
    assert sorted[0] in multiset(history);
    forall i | 0 <= i < |history| ensures sorted[0].completedAt <= history[i].completedAt {
      assert history[i] in multiset(sorted);
      var j :| 0 <= j < |sorted| && sorted[j] == history[i];
      if j > 0 {
        assert NegCompletedAt(sorted[0]) >= NegCompletedAt(sorted[j]);
      }
    }
  }

  /** `Math.max(1, Math.floor((now - first) / day))`. */
  function DaysActive(history: seq<Interview>, now: int): (d: int)
    ensures d >= 1
    ensures d > 1 ==> (d * DayMs <= now - FirstCompleted(history, now) < (d + 1) * DayMs)
    ensures now - FirstCompleted(history, now) < 2 * DayMs ==> d == 1
  {
    Max(1, (now - FirstCompleted(history, now)) / DayMs)
  }

  /** With no history the plan has been active for one day. */
  lemma NoHistoryOneDay(now: int)
    ensures DaysActive([], now) == 1
  {
  }

  function ScoreSum(history: seq<Interview>): int
  {
    if history == [] then 0 else ScoreSum(history[..|history| - 1]) + ScoreOf(history[|history| - 1])
  }

  /** `Math.round(sum / totalInterviews)`, or 0 without history. */
  function AverageScore(history: seq<Interview>): (avg: int)
    ensures history == [] ==> avg == 0
    ensures history != [] ==> 2 * |history| * avg <= 2 * ScoreSum(history) + |history| < 2 * |history| * (avg + 1)
  {
    if |history| > 0 then RoundDiv(ScoreSum(history), |history|) else 0
  }

  /** The scores of the history lie in [lo, hi]. */
  ghost predicate ScoresWithin(history: seq<Interview>, lo: int, hi: int)
  {
    forall i :: 0 <= i < |history| ==> lo <= ScoreOf(history[i]) <= hi
  }

  lemma {:induction false} ScoreSumBounds(history: seq<Interview>, lo: int, hi: int)
    requires ScoresWithin(history, lo, hi)
    ensures lo * |history| <= ScoreSum(history) <= hi * |history|
  {
    if history != [] {
      var init := history[..|history| - 1];
      assert ScoresWithin(init, lo, hi) by {
        forall i | 0 <= i < |init| ensures lo <= ScoreOf(init[i]) <= hi {
          assert init[i] == history[i];
        }
      }
      ScoreSumBounds(init, lo, hi);
      assert ScoreSum(history) == ScoreSum(init) + ScoreOf(history[|history| - 1]);
      assert lo * |history| == lo * |init| + lo && hi * |history| == hi * |init| + hi;
    }
  }

  /** Scores between lo and hi average to a value between lo and hi. */
  lemma AverageScoreBounds(history: seq<Interview>, lo: int, hi: int)
    requires history != [] && ScoresWithin(history, lo, hi)
    ensures lo <= AverageScore(history) <= hi
  {
    ScoreSumBounds(history, lo, hi);
    RoundDivBounds(ScoreSum(history), |history|, lo, hi);
  }

  /** `Math.min(100, Math.round(totalInterviews * 5 + averageScore * 0.5))`. */
  function Progress(totalInterviews: nat, averageScore: int): (p: int)
    ensures p <= 100
    ensures p < 100 ==> 4 * p <= 2 * (10 * totalInterviews + averageScore) + 2 < 4 * (p + 1)
    ensures p == 100 <==> 4 * 100 <= 2 * (10 * totalInterviews + averageScore) + 2
  {
    Min(100, RoundDiv(10 * totalInterviews + averageScore, 2))
  }

  /** Twenty interviews with a non-negative average reach full progress. */
  lemma ProgressSaturates(totalInterviews: nat, averageScore: int)
    requires totalInterviews >= 20 && averageScore >= 0
    ensures Progress(totalInterviews, averageScore) == 100
  {
  }

  /** Progress never falls when another interview is added at the same average. */
  lemma ProgressMonotone(totalInterviews: nat, averageScore: int)
    ensures Progress(totalInterviews, averageScore) <= Progress(totalInterviews + 1, averageScore)
  {
  }

  // ---------------------------------------------------------------------
  // Per-type scores: `questionTypeScores`
  // ---------------------------------------------------------------------

  /** How many of the analyses have type t. */
  function CountType(seen: seq<Analysis>, t: string): nat
  {
    if seen == [] then 0
    else CountType(seen[..|seen| - 1], t) + (if TypeName(seen[|seen| - 1]) == t then 1 else 0)
  }

  /** The sum of the clarities of the analyses of type t. */
  function TotalClarity(seen: seq<Analysis>, t: string): int
  {
    if seen == [] then 0
    else TotalClarity(seen[..|seen| - 1], t) + (if TypeName(seen[|seen| - 1]) == t then ClarityOf(seen[|seen| - 1]) else 0)
  }

  /**
   * The types of the analyses, each once, in order of first occurrence.
   * This is the key order of `questionTypeScores` for types that do not
   * look like array indices and are not inherited object members.
   */
  function TypesInOrder(seen: seq<Analysis>): (r: seq<string>)
    ensures NoRepeats(r)
    ensures forall t :: t in r <==> CountType(seen, t) > 0
  {
    if seen == [] then []
    else
      var d := TypesInOrder(seen[..|seen| - 1]);
      var t := TypeName(seen[|seen| - 1]);
      if t in d then d else d + [t]
  }

  /** One value of `questionTypeScores`. */
  datatype TypeScore = TypeScore(count: nat, totalScore: int)

  /** scores and order are the per-type counts and clarity sums of seen, keyed in first-occurrence order. */
  ghost predicate Tallied(scores: map<string, TypeScore>, order: seq<string>, seen: seq<Analysis>)
  {
    && order == TypesInOrder(seen)
    && (forall t :: t in scores <==> t in order)
    && (forall t :: t in scores ==> scores[t] == TypeScore(CountType(seen, t), TotalClarity(seen, t)))
  }

  /** Counting one more analysis changes only the entry of its own type. */
  lemma {:induction false} TallyStep(seen: seq<Analysis>, a: Analysis)
    ensures CountType(seen + [a], TypeName(a)) == CountType(seen, TypeName(a)) + 1
    ensures TotalClarity(seen + [a], TypeName(a)) == TotalClarity(seen, TypeName(a)) + ClarityOf(a)
    ensures forall t :: t != TypeName(a) ==>
      CountType(seen + [a], t) == CountType(seen, t) && TotalClarity(seen + [a], t) == TotalClarity(seen, t)
    ensures TypesInOrder(seen + [a])
         == if TypeName(a) in TypesInOrder(seen) then TypesInOrder(seen) else TypesInOrder(seen) + [TypeName(a)]
  {
    assert (seen + [a])[..|seen|] == seen;
  }

  /** A type without analyses has clarity total 0. */
  lemma {:induction false} NoneOfType(seen: seq<Analysis>, t: string)
    requires CountType(seen, t) == 0
    ensures TotalClarity(seen, t) == 0
  {
    if seen != [] {
      NoneOfType(seen[..|seen| - 1], t);
    }
  }

  /**
   * The body of the inner `forEach`: create the entry of the analysis's
   * type at {0, 0} if it is missing, then add one to its count and the
   * clarity to its total.
   */
  method AddAnalysis(scores: map<string, TypeScore>, order: seq<string>, ghost seen: seq<Analysis>, a: Analysis)
    returns (scores': map<string, TypeScore>, order': seq<string>)
    requires Tallied(scores, order, seen)
    ensures Tallied(scores', order', seen + [a])
  {
    TallyStep(seen, a);
    var t := TypeName(a);
    if t !in scores {
      NoneOfType(seen, t);
    }
    var entry := TypeScore(0, 0);
    order' := order;
    if t in scores {
      entry := scores[t];
    } else {
      order' := order + [t];
    }
    scores' := scores[t := TypeScore(entry.count + 1, entry.totalScore + ClarityOf(a))];
  }

  /** The nested `forEach` over the history and each interview's analyses. */
  method TallyTypes(history: seq<Interview>) returns (scores: map<string, TypeScore>, order: seq<string>)
    ensures Tallied(scores, order, AllAnalyses(history))
  {
    scores, order := map[], [];
    for i := 0 to |history|
      invariant Tallied(scores, order, AllAnalyses(history[..i]))
    {
      assert history[..i + 1][..i] == history[..i];
      scores, order := AddDetails(scores, order, AllAnalyses(history[..i]), Details(history[i]));
    }
    assert history[..|history|] == history;
  }

  /** The inner `forEach` over one interview's analyses. */
  method AddDetails(scores: map<string, TypeScore>, order: seq<string>, ghost before: seq<Analysis>, details: seq<Analysis>)
    returns (scores': map<string, TypeScore>, order': seq<string>)
    requires Tallied(scores, order, before)
    ensures Tallied(scores', order', before + details)
  {
    scores', order' := scores, order;
    assert before + details[..0] == before;
    for j := 0 to |details|
      invariant Tallied(scores', order', before + details[..j])
    {
      assert before + details[..j + 1] == (before + details[..j]) + [details[j]];
      scores', order' := AddAnalysis(scores', order', before + details[..j], details[j]);
    }
    assert details[..|details|] == details;
  }

  /** One entry of `Object.entries(questionTypeScores)`. */
  datatype TypeEntry = TypeEntry(name: string, count: nat, totalScore: int)

  /** `Object.entries(questionTypeScores)` for the analyses seen. */
  function TypeEntries(seen: seq<Analysis>): (es: seq<TypeEntry>)
    ensures |es| == |TypesInOrder(seen)|
    ensures forall i :: 0 <= i < |es| ==> es[i].name == TypesInOrder(seen)[i] && es[i].count > 0
  {
    var ts := TypesInOrder(seen);
    seq(|ts|, i requires 0 <= i < |ts| => TypeEntry(ts[i], CountType(seen, ts[i]), TotalClarity(seen, ts[i])))
  }

  /** `data.count > 0 ? Math.round(data.totalScore / data.count) : 0`. */
  function EntryAverage(e: TypeEntry): (avg: int)
    ensures e.count > 0 ==> 2 * e.count * avg <= 2 * e.totalScore + e.count < 2 * e.count * (avg + 1)
    ensures e.count == 0 ==> avg == 0
  {
    if e.count > 0 then RoundDiv(e.totalScore, e.count) else 0
  }

  /** Every clarity lies in [0, 100]. */
  ghost predicate ClaritiesWithin(seen: seq<Analysis>)
  {
    forall i :: 0 <= i < |seen| ==> 0 <= ClarityOf(seen[i]) <= 100
  }

  lemma {:induction false} TotalClarityBounds(seen: seq<Analysis>, t: string)
    requires ClaritiesWithin(seen)
    ensures 0 <= TotalClarity(seen, t) <= 100 * CountType(seen, t)
  {
    if seen != [] {
      var init := seen[..|seen| - 1];
      assert ClaritiesWithin(init) by {
        forall i | 0 <= i < |init| ensures 0 <= ClarityOf(init[i]) <= 100 {
          assert init[i] == seen[i];
        }
      }
      TotalClarityBounds(init, t);
    }
  }

  // ---------------------------------------------------------------------
  // Focus areas
  // ---------------------------------------------------------------------

  datatype FocusArea = FocusArea(name: string, progress: int)

  /** The names of the focus areas pushed when the history has no analyses. */
  function DefaultAreaName(i: nat): string
  {
    if i == 0 then "Behavioral" else if i == 1 then "Technical" else if i == 2 then "System Design" else "Coding"
  }

  /** The four default focus areas, at progress 0. */
  function DefaultAreas(): (r: seq<FocusArea>)
    ensures |r| == 4 && forall i :: 0 <= i < 4 ==> r[i] == FocusArea(DefaultAreaName(i), 0)
  {
    seq(4, i requires 0 <= i < 4 => FocusArea(DefaultAreaName(i), 0))
  }

  /** `Object.entries(questionTypeScores).map(...)`: the capitalised type and its rounded average. */
  function AreasOf(entries: seq<TypeEntry>): (r: seq<FocusArea>)
    ensures |r| == |entries|
    ensures forall i :: 0 <= i < |r| ==> r[i] == FocusArea(Capitalize(entries[i].name), EntryAverage(entries[i]))
  {
    seq(|entries|, i requires 0 <= i < |entries| => FocusArea(Capitalize(entries[i].name), EntryAverage(entries[i])))
  }

  function NegProgress(a: FocusArea): int
  {
    -a.progress
  }

  /** The focus areas before the sort: one per entry, or the four defaults. */
  function UnsortedAreas(entries: seq<TypeEntry>): (r: seq<FocusArea>)
    ensures |r| >= 1
    ensures entries == [] ==> r == DefaultAreas()
    ensures entries != [] ==> r == AreasOf(entries)
  {
    if |AreasOf(entries)| == 0 then DefaultAreas() else AreasOf(entries)
  }

  predicate Ascending(r: seq<FocusArea>)
  {
    forall i, j :: 0 <= i < j < |r| ==> r[i].progress <= r[j].progress
  }

  /** `focusAreas.sort((a, b) => a.progress - b.progress)`: the stable ascending sort. */
  function FocusAreas(entries: seq<TypeEntry>): (r: seq<FocusArea>)
    ensures multiset(r) == multiset(UnsortedAreas(entries))
    ensures |r| == |UnsortedAreas(entries)|
    ensures Ascending(r)
  {
    var r := SortDesc(UnsortedAreas(entries), NegProgress);
    SortDescSorted(UnsortedAreas(entries), NegProgress);
    r
  }

  /** Areas of equal progress keep the order of their types' first analyses. */
  lemma FocusAreasStable(entries: seq<TypeEntry>)
    ensures Stable(FocusAreas(entries), UnsortedAreas(entries), NegProgress)
  {
    SortDescStable(UnsortedAreas(entries), NegProgress);
  }

  /** One focus area per distinct analysis type, or the four defaults when there is none. */
  lemma FocusAreasPerType(history: seq<Interview>)
    ensures var all := AllAnalyses(history);
      |FocusAreas(TypeEntries(all))| == if all == [] then 4 else |TypesInOrder(all)|
  {
    var all := AllAnalyses(history);
    if all != [] {
      var last := all[|all| - 1];
      assert all == all[..|all| - 1] + [last];
      assert CountType(all, TypeName(last)) > 0;
      assert TypesInOrder(all) != [];
    }
  }

  /** With clarities in [0, 100], every focus area's progress is in [0, 100]. */
  lemma FocusAreasInRange(history: seq<Interview>)
    requires ClaritiesWithin(AllAnalyses(history))
    ensures forall a :: a in FocusAreas(TypeEntries(AllAnalyses(history))) ==> 0 <= a.progress <= 100
  {
    var all := AllAnalyses(history);
    var es := TypeEntries(all);
    var unsorted := UnsortedAreas(es);
    forall i | 0 <= i < |unsorted| ensures 0 <= unsorted[i].progress <= 100 {
      if es != [] {
        EntryInRange(all, es[i].name);
      }
    }
    ProgressInRangeKept(unsorted, FocusAreas(es));
  }

  /** A rearrangement keeps every progress in [0, 100]. */
  lemma ProgressInRangeKept(xs: seq<FocusArea>, ys: seq<FocusArea>)
    requires multiset(ys) == multiset(xs)
    requires forall i :: 0 <= i < |xs| ==> 0 <= xs[i].progress <= 100
    ensures forall a :: a in ys ==> 0 <= a.progress <= 100
  {
    forall a | a in ys ensures 0 <= a.progress <= 100 {
      assert a in multiset(xs);
      var i :| 0 <= i < |xs| && xs[i] == a;
    }
  }

  /** The rounded average clarity of a type that occurs is in [0, 100]. */
  lemma EntryInRange(all: seq<Analysis>, t: string)
    requires ClaritiesWithin(all) && CountType(all, t) > 0
    ensures 0 <= EntryAverage(TypeEntry(t, CountType(all, t), TotalClarity(all, t))) <= 100
  {
    TotalClarityBounds(all, t);
    RoundDivBounds(TotalClarity(all, t), CountType(all, t), 0, 100);
  }

  // ---------------------------------------------------------------------
  // Practice plan
  // ---------------------------------------------------------------------

  datatype DayPlan = DayPlan(day: string, tasks: seq<string>)

  /** `dayNames[d]`. */
  function DayName(d: nat): string
    requires d < 7
  {
    if d == 0 then "Sunday" else if d == 1 then "Monday" else if d == 2 then "Tuesday"
    else if d == 3 then "Wednesday" else if d == 4 then "Thursday" else if d == 5 then "Friday"
    else "Saturday"
  }

  /** `focusAreas[k]?.name || fallback`. */
  function AreaName(areas: seq<FocusArea>, k: nat, fallback: string): (n: string)
    ensures k < |areas| && areas[k].name != [] ==> n == areas[k].name
    ensures k >= |areas| || areas[k].name == [] ==> n == fallback
  {
    if k < |areas| && areas[k].name != [] then areas[k].name else fallback
  }

  /** The two tasks each day starts with. */
  function BaseTasks(areas: seq<FocusArea>, scheduled: seq<Scheduled>, day: nat): (r: seq<string>)
    requires day < 3
    ensures |r| == 2
  {
    if day == 0 then
      ["Practice " + AreaName(areas, 0, "behavioral") + " questions",
       "Review " + AreaName(areas, 1, "technical") + " concepts"]
    else if day == 1 then
      ["Mock interview focusing on " + AreaName(areas, 0, "behavioral") + " questions",
       "Review feedback from previous interviews"]
    else
      [AreaName(areas, 2, "Coding") + " practice session",
       "Prepare for upcoming " + (if |scheduled| > 0 then scheduled[0].title else "interviews")]
  }

  /**
   * The bucket a scheduled interview goes into: none when it is in the
   * past, else its whole-day distance from now when that is 0, 1 or 2.
   */
  function Bucket(s: Scheduled, now: int): (b: Option<nat>)
    ensures b.Some? ==> b.value < 3
  {
    if s.scheduledAt >= now then
      var dayDiff := (s.scheduledAt - now) / DayMs;
      if dayDiff == 0 then Some(0) else if dayDiff == 1 then Some(1) else if dayDiff == 2 then Some(2) else None
    else None
  }

  /** An interview gets a bucket exactly when it is due within the next three days. */
  lemma BucketWindow(s: Scheduled, now: int)
    ensures Bucket(s, now).Some? <==> now <= s.scheduledAt < now + 3 * DayMs
    ensures Bucket(s, now).Some? ==>
      now + Bucket(s, now).value * DayMs <= s.scheduledAt < now + (Bucket(s, now).value + 1) * DayMs
  {
  }

  /** The `Scheduled: <title>` tasks of bucket day, in the order of the scheduled list. */
  function ScheduledTasks(scheduled: seq<Scheduled>, now: int, day: nat): seq<string>
  {
    if scheduled == [] then []
    else
      var s := scheduled[|scheduled| - 1];
      ScheduledTasks(scheduled[..|scheduled| - 1], now, day) + (if Bucket(s, now) == Some(day) then ["Scheduled: " + s.title] else [])
  }

  /** The interviews due within the next three days. */
  function DueSoon(scheduled: seq<Scheduled>, now: int): seq<Scheduled>
  {
    if scheduled == [] then []
    else
      var s := scheduled[|scheduled| - 1];
      DueSoon(scheduled[..|scheduled| - 1], now) + (if now <= s.scheduledAt < now + 3 * DayMs then [s] else [])
  }

  /** Each interview due within three days is listed once, in one bucket; the others in none. */
  lemma {:induction false} BucketsPartitionDueSoon(scheduled: seq<Scheduled>, now: int)
    ensures |ScheduledTasks(scheduled, now, 0)| + |ScheduledTasks(scheduled, now, 1)| + |ScheduledTasks(scheduled, now, 2)|
         == |DueSoon(scheduled, now)|
  {
    if scheduled != [] {
      BucketsPartitionDueSoon(scheduled[..|scheduled| - 1], now);
      BucketWindow(scheduled[|scheduled| - 1], now);
    }
  }

  /** The three buckets of `upcomingPractice`. */
  function Practice(areas: seq<FocusArea>, scheduled: seq<Scheduled>, now: int, weekday: nat): (r: seq<DayPlan>)
    requires weekday < 7
    ensures |r| == 3
    ensures forall k :: 0 <= k < 3 ==> r[k].tasks == BaseTasks(areas, scheduled, k) + ScheduledTasks(scheduled, now, k)
  {
    [DayPlan("Today", BaseTasks(areas, scheduled, 0) + ScheduledTasks(scheduled, now, 0)),
     DayPlan("Tomorrow", BaseTasks(areas, scheduled, 1) + ScheduledTasks(scheduled, now, 1)),
     DayPlan(DayName((weekday + 2) % 7), BaseTasks(areas, scheduled, 2) + ScheduledTasks(scheduled, now, 2))]
  }

  /** `scheduledInterviews.forEach(...)`: push each upcoming interview onto its bucket's tasks. */
  method AddScheduled(areas: seq<FocusArea>, scheduled: seq<Scheduled>, now: int, weekday: nat)
    returns (upcomingPractice: seq<DayPlan>)
    requires weekday < 7
    ensures upcomingPractice == Practice(areas, scheduled, now, weekday)
  {
    var today, tomorrow, third := BaseTasks(areas, scheduled, 0), BaseTasks(areas, scheduled, 1), BaseTasks(areas, scheduled, 2);
    for i := 0 to |scheduled|
      invariant today == BaseTasks(areas, scheduled, 0) + ScheduledTasks(scheduled[..i], now, 0)
      invariant tomorrow == BaseTasks(areas, scheduled, 1) + ScheduledTasks(scheduled[..i], now, 1)
      invariant third == BaseTasks(areas, scheduled, 2) + ScheduledTasks(scheduled[..i], now, 2)
    {
      assert scheduled[..i + 1][..i] == scheduled[..i];
      var interview := scheduled[i];
      if interview.scheduledAt >= now {
        var dayDiff := (interview.scheduledAt - now) / DayMs;
        if dayDiff == 0 {
          today := today + ["Scheduled: " + interview.title];
        } else if dayDiff == 1 {
          tomorrow := tomorrow + ["Scheduled: " + interview.title];
        } else if dayDiff == 2 {
          third := third + ["Scheduled: " + interview.title];
        }
      }
    }
    assert scheduled[..|scheduled|] == scheduled;
    upcomingPractice := [DayPlan("Today", today), DayPlan("Tomorrow", tomorrow), DayPlan(DayName((weekday + 2) % 7), third)];
  }

  // ---------------------------------------------------------------------
  // Achievements
  // ---------------------------------------------------------------------

  /** `Completed ${n} interview${n > 1 ? "s" : ""}`. */
  function CompletedLine(n: nat): string
  {
    "Completed " + NatToString(n) + " interview" + (if n > 1 then "s" else "")
  }

  /** `Achieved ${averageScore}% average score`. */
  function AverageLine(averageScore: nat): string
  {
    "Achieved " + NatToString(averageScore) + "% average score"
  }

  /** `Mastered ${type} questions with ${avgScore}% average`. */
  function MasteredLine(t: string, avgScore: nat): string
  {
    "Mastered " + t + " questions with " + NatToString(avgScore) + "% average"
  }

  /** A type whose rounded average is above 80 over at least three analyses. */
  predicate Mastered(e: TypeEntry)
  {
    EntryAverage(e) > 80 && e.count >= 3
  }

  /** The per-type achievement lines, in entry order. */
  function MasteredLines(entries: seq<TypeEntry>): (r: seq<string>)
    ensures |r| <= |entries|
  {
    if entries == [] then []
    else
      var e := entries[|entries| - 1];
      MasteredLines(entries[..|entries| - 1]) + (if Mastered(e) then [MasteredLine(e.name, EntryAverage(e))] else [])
  }

  /** How many entries earn a per-type line. */
  function MasteredCount(entries: seq<TypeEntry>): nat
  {
    if entries == [] then 0
    else MasteredCount(entries[..|entries| - 1]) + (if Mastered(entries[|entries| - 1]) then 1 else 0)
  }

  lemma {:induction false} MasteredLinesCount(entries: seq<TypeEntry>)
    ensures |MasteredLines(entries)| == MasteredCount(entries)
  {
    if entries != [] {
      MasteredLinesCount(entries[..|entries| - 1]);
    }
  }

  /** The lines pushed before the defaults are considered. */
  function EarnedLines(totalInterviews: nat, averageScore: int, entries: seq<TypeEntry>): seq<string>
  {
    (if totalInterviews > 0 then [CompletedLine(totalInterviews)] else [])
    + (if averageScore > 70 then [AverageLine(averageScore)] else [])
    + MasteredLines(entries)
  }

  function DefaultAchievements(): (r: seq<string>)
    ensures |r| == 3
  {
    ["Started interview practice journey", "Set up your learning plan", "Ready to improve interview skills"]
  }

  /** The `achievements` list: the earned lines, or the three defaults when none is earned. */
  function Achievements(totalInterviews: nat, averageScore: int, entries: seq<TypeEntry>): (r: seq<string>)
    ensures r != []
    ensures EarnedLines(totalInterviews, averageScore, entries) != [] ==> r == EarnedLines(totalInterviews, averageScore, entries)
    ensures EarnedLines(totalInterviews, averageScore, entries) == [] ==> r == DefaultAchievements()
  {
    var earned := EarnedLines(totalInterviews, averageScore, entries);
    if earned == [] then DefaultAchievements() else earned
  }

  /**
   * The achievement count: one line for any history, one for an average above
   * 70, one per mastered type, and the three defaults when that makes none.
   */
  lemma AchievementsCount(totalInterviews: nat, averageScore: int, entries: seq<TypeEntry>)
    ensures var k := (if totalInterviews > 0 then 1 else 0) + (if averageScore > 70 then 1 else 0) + MasteredCount(entries);
      |Achievements(totalInterviews, averageScore, entries)| == if k == 0 then 3 else k
    ensures totalInterviews > 0 ==> Achievements(totalInterviews, averageScore, entries)[0] == CompletedLine(totalInterviews)
  {
    MasteredLinesCount(entries);
  }

  /** The pushes of the achievements block, the per-type ones in a loop over the entries. */
  method BuildAchievements(totalInterviews: nat, averageScore: int, entries: seq<TypeEntry>)
    returns (achievements: seq<string>)
    ensures achievements == Achievements(totalInterviews, averageScore, entries)
  {
    achievements := [];
    if totalInterviews > 0 {
      achievements := achievements + [CompletedLine(totalInterviews)];
    }
    if averageScore > 70 {
      achievements := achievements + [AverageLine(averageScore)];
    }
    achievements := PushMastered(achievements, entries);
    if |achievements| == 0 {
      achievements := achievements + DefaultAchievements();
    }
  }

  /** `Object.entries(questionTypeScores).forEach(...)`: push a line for each mastered type. */
  method PushMastered(achievements: seq<string>, entries: seq<TypeEntry>) returns (achievements': seq<string>)
    ensures achievements' == achievements + MasteredLines(entries)
  {
    achievements' := achievements;
    for i := 0 to |entries|
      invariant achievements' == achievements + MasteredLines(entries[..i])
    {
      MasteredLinesStep(entries, i);
      var e := entries[i];
      var avgScore := if e.count > 0 then RoundDiv(e.totalScore, e.count) else 0;
      assert avgScore == EntryAverage(e);
      if avgScore > 80 && e.count >= 3 {
        var line := MasteredLine(e.name, avgScore);
        assert MasteredLines(entries[..i + 1]) == MasteredLines(entries[..i]) + [line];
        AppendAssoc(achievements, MasteredLines(entries[..i]), [line]);
        achievements' := achievements' + [line];
      } else {
        assert MasteredLines(entries[..i + 1]) == MasteredLines(entries[..i]);
      }
    }
    assert entries[..|entries|] == entries;
  }

  lemma AppendAssoc<T>(a: seq<T>, b: seq<T>, c: seq<T>)
    ensures (a + b) + c == a + (b + c)
  {
  }

  lemma MasteredLinesStep(entries: seq<TypeEntry>, i: nat)
    requires i < |entries|
    ensures MasteredLines(entries[..i + 1]) == MasteredLines(entries[..i])
      + (if Mastered(entries[i]) then [MasteredLine(entries[i].name, EntryAverage(entries[i]))] else [])
  {
    assert entries[..i + 1][..i] == entries[..i];
  }

  // ---------------------------------------------------------------------
  // The whole plan
  // ---------------------------------------------------------------------

  datatype Plan = Plan(progress: int, daysActive: int, totalInterviews: nat, focusAreas: seq<FocusArea>,
                       upcomingPractice: seq<DayPlan>, achievements: seq<string>)

  /** The learning plan of a history and a schedule, at time now on weekday. */
  function PlanOf(history: seq<Interview>, scheduled: seq<Scheduled>, now: int, weekday: nat): (p: Plan)
    requires weekday < 7
    ensures p.daysActive >= 1 && p.progress <= 100 && p.totalInterviews == |history|
    ensures |p.upcomingPractice| == 3 && p.achievements != [] && p.focusAreas != []
    ensures Ascending(p.focusAreas)
  {
    var entries := TypeEntries(AllAnalyses(history));
    var areas := FocusAreas(entries);
    Plan(Progress(|history|, AverageScore(history)), DaysActive(history, now), |history|, areas,
         Practice(areas, scheduled, now, weekday),
         Achievements(|history|, AverageScore(history), entries))
  }

  /** Without analyses the focus areas are the four defaults, in their listed order. */
  lemma NoAnalysesDefaultAreas()
    ensures FocusAreas([]) == DefaultAreas()
  {
    SortDescConstant(DefaultAreas(), NegProgress, 0);
  }

  /** An empty history gives one active day, no progress and no interviews. */
  lemma EmptyHistoryPlan(history: seq<Interview>, scheduled: seq<Scheduled>, now: int, weekday: nat)
    requires history == [] && weekday < 7
    ensures var p := PlanOf(history, scheduled, now, weekday);
      p.daysActive == 1 && p.progress == 0 && p.totalInterviews == 0
  {
    assert AverageScore(history) == 0;
  }

  /** An empty history gives the default focus areas, in their listed order, and the default achievements. */
  lemma EmptyHistoryDefaults(history: seq<Interview>, scheduled: seq<Scheduled>, now: int, weekday: nat)
    requires history == [] && weekday < 7
    ensures var p := PlanOf(history, scheduled, now, weekday);
      p.focusAreas == DefaultAreas() && p.achievements == DefaultAchievements()
  {
    var entries := TypeEntries(AllAnalyses(history));
    assert entries == [];
    NoAnalysesDefaultAreas();
    assert AverageScore(history) == 0;
    assert MasteredLines(entries) == [];
  }

  /** `generateLearningPlan(historyData, scheduledInterviews)`. */
  method GenerateLearningPlan(history: seq<Interview>, scheduled: seq<Scheduled>, now: int, weekday: nat)
    returns (plan: Plan)
    requires weekday < 7
    ensures plan == PlanOf(history, scheduled, now, weekday)
  {
    var daysActive := Max(1, (now - FirstCompleted(history, now)) / DayMs);
    var totalInterviews := |history|;
    var averageScore := AverageScore(history);
    var progress := Progress(totalInterviews, averageScore);
    var scores, order := TallyTypes(history);
    var entries := seq(|order|, i requires 0 <= i < |order| => TypeEntry(order[i], scores[order[i]].count, scores[order[i]].totalScore));
    assert entries == TypeEntries(AllAnalyses(history));
    var focusAreas := FocusAreas(entries);
    var upcomingPractice := AddScheduled(focusAreas, scheduled, now, weekday);
    var achievements := BuildAchievements(totalInterviews, averageScore, entries);
    plan := Plan(progress, daysActive, totalInterviews, focusAreas, upcomingPractice, achievements);
  }

  // ---------------------------------------------------------------------
  // Calendar day filter
  // ---------------------------------------------------------------------

  /** A local calendar day: `getFullYear()`, `getMonth()`, `getDate()`. */
  datatype Day = Day(year: int, month: int, date: int)

  /** One of `calendarEvents`: the day its date falls on, its title and its id. */
  datatype Event = Event(day: Day, title: string, id: string)

  /** `getEventsForDate(d)`: the events on day d, in list order. */
  function EventsForDate(events: seq<Event>, d: Day): (r: seq<Event>)
    ensures |r| <= |events|
    ensures forall e :: e in r <==> e in events && e.day == d
  {
    if events == [] then []
    else EventsForDate(events[..|events| - 1], d) + (if events[|events| - 1].day == d then [events[|events| - 1]] else [])
  }

  /** `hasEvent(d)`: some event is on day d. */
  predicate HasEvent(events: seq<Event>, d: Day)
  {
    exists i :: 0 <= i < |events| && events[i].day == d
  }

  /** The calendar marks a day exactly when the day's event list is non-empty. */
  lemma HasEventIffEvents(events: seq<Event>, d: Day)
    ensures HasEvent(events, d) <==> EventsForDate(events, d) != []
  {
    if HasEvent(events, d) {
      var i :| 0 <= i < |events| && events[i].day == d;
      assert events[i] in EventsForDate(events, d);
    }
  }

  /** The filter keeps order: when every event is on day d, the list is returned unchanged. */
  lemma {:induction false} AllOnDay(events: seq<Event>, d: Day)
    requires forall i :: 0 <= i < |events| ==> events[i].day == d
    ensures EventsForDate(events, d) == events
  {
    if events != [] {
      AllOnDay(events[..|events| - 1], d);
      assert events == events[..|events| - 1] + [events[|events| - 1]];
    }
  }
}
