# SoftSolvic interview coach — a verified Dafny model of its core logic

SoftSolvic is a browser application for interview practice. It generates
questions for a job title, records and transcribes the candidate's
answers, scores each answer, derives a personality profile, and builds a
learning plan from the interview history. This project models the logic
behind those features in Dafny and proves what that logic guarantees.

- **Job-specific questions** (`job_questions.dfy`, module `JobQuestions`).
  - The job title is normalised (lower case, trimmed) and looked up in the
    profile table: first an exact key, then the first partial match in
    either direction, and otherwise the software-engineer default.
  - A category is chosen by cumulative-weight roulette over the available
    (preferred, else all) categories.
  - An unused question is drawn from the chosen category.
  - Topics and coding challenges are looked up per title.
- **Fallback questions** (`fallback_questions.dfy`, module `FallbackQuestions`).
  These are used when the question service fails.
  - Each category's bank is shuffled with Fisher–Yates.
  - A first pass takes one question from each requested category.
  - A fill pass draws random categories into the free slots.
  - Behavioural questions pad the list up to five.
  - Also modelled:
    - the language-name table;
    - the offline feedback picker.
- **Answer scoring** (`answer_scorer.dfy`, module `AnswerScorer`).
  - Word and sentence counts, and the average sentence length.
  - Per question type: the structure and depth scores, strengths and
    improvements, decided by the content tests.
  - Relevance: the share of long question words found in the answer.
  - Clarity: the rounded mean of structure, depth and relevance.
  - The top five keywords by frequency.
- **Personality insights** (`personality.dfy`, module `Personality`).
  - Ten trait scores: 50, plus a keyword bonus, plus the communication and
    confidence bonuses, clamped to [0, 100].
  - The traits ranked by score with a stable sort.
  - The summary and the five interview tips built from the ranking.
- **Learning plan** (`learning_plan.dfy`, module `LearningPlan`).
  - Statistics: days active, average score and progress.
  - Focus areas per question type, weakest first.
  - Three days of practice tasks, including interviews scheduled within
    three days.
  - Achievements.
  - The calendar's events-per-day lookup.
- **Interview session** (`session.dfy`, module `Session`). This models the
  state of the interview page as a class:
  - the question index and the recording flag and timer;
  - the per-question answers, code, languages and notes;
  - the actions that update them;
  - the time format and the progress percentage.

Shared pieces:

| File | Module | Contents |
|---|---|---|
| `common.dfy` | `Common` | Option; one `Math.random()` draw as a real in [0, 1); `Math.floor(r * n)`; `Math.round(a / b)` |
| `text.dfy` | `Text` | The JavaScript string operations the core relies on (see below) |
| `stable_sort.dfy` | `StableSort` | A stable descending sort, standing for `Array.prototype.sort` with a numeric comparator |

`text.dfy` covers:
- `toLowerCase` and `trim`;
- the `\s` and `\w` character classes;
- `split` on runs of separators;
- substring search;
- counting case-insensitive whole-word regular-expression matches;
- decimal printing.

Stable sorting has been required of `Array.prototype.sort` since ECMAScript 2019.

Randomness, the clock and the weekday are inputs.
- A stream of draws is a function from call numbers to draws.
- The current time is an integer number of milliseconds.
- The weekday is a number 0–6.

## Model

| member | source | states |
|---|---|---|
| JobQuestions.TableWellFormed | src/lib/jobSpecificQuestions.ts:15-348 | every job profile in the table has non-empty categories, each with a positive weight and at least one question |
| JobQuestions.KeysDistinct | src/lib/jobSpecificQuestions.ts:15-348 | the job-profile keys are pairwise distinct, so a lookup by key is unambiguous |
| JobQuestions.NormalizeJobTitle | src/lib/jobSpecificQuestions.ts:351-353 | the normalised title neither starts nor ends with white space, and it is empty exactly when the title is blank |
| JobQuestions.NormalizeIgnoresPadding | src/lib/jobSpecificQuestions.ts:351-353 | white space around a title does not change its normal form |
| JobQuestions.NormalizeIgnoresCase | src/lib/jobSpecificQuestions.ts:351-353 | upper and lower case spellings of a title have the same normal form |
| JobQuestions.ProfileIndex | src/lib/jobSpecificQuestions.ts:356-373 | an exact key wins; otherwise the first key that contains the title or is contained in it; otherwise the default entry 0 |
| JobQuestions.DefaultIsSoftwareEngineer | src/lib/jobSpecificQuestions.ts:372 | the fallback profile is the software-engineer entry |
| JobQuestions.LookupKeyWithPadding | src/lib/jobSpecificQuestions.ts:356-373 | a title that normalises to a key finds that key's profile whatever its case and surrounding white space |
| JobQuestions.FindMatchingJobProfile | src/lib/jobSpecificQuestions.ts:356-373 | the method returns the profile the lookup selects, and that profile is well formed |
| JobQuestions.GetJobTechnicalTopics | src/lib/jobSpecificQuestions.ts:463-466 | the matched profile's technical topics, or the empty list when it has none |
| JobQuestions.GetJobCodingChallenges | src/lib/jobSpecificQuestions.ts:469-472 | the matched profile's coding challenges, or the empty list when it has none |
| JobQuestions.TopicsOnlyForSoftwareEngineer | src/lib/jobSpecificQuestions.ts:79-100 | topics and challenges are non-empty exactly when the title resolves to the software-engineer profile, the only one that defines them |
| JobQuestions.Preferred | src/lib/jobSpecificQuestions.ts:398-403 | a category is kept exactly when its name is among the preferred ones, and the kept categories stay well formed |
| JobQuestions.PreferredKeepsOrder | src/lib/jobSpecificQuestions.ts:398-403 | the filter keeps the table order: it is the subsequence of the categories whose names are preferred |
| JobQuestions.AvailableCategories | src/lib/jobSpecificQuestions.ts:398-408 | with no preference, or no preferred category present, all categories are available; otherwise exactly the preferred ones; never empty for a non-empty profile |
| JobQuestions.RouletteAlwaysReaches | src/lib/jobSpecificQuestions.ts:420-431 | some category's running weight always reaches the draw times the total weight, so the selection loop always picks one |
| JobQuestions.RouletteSlice | src/lib/jobSpecificQuestions.ts:420-431 | category k is chosen exactly when the scaled draw falls in its slice of the cumulative weights |
| JobQuestions.DrawCategory | src/lib/jobSpecificQuestions.ts:421-431 | the category a draw selects is an index of the available list |
| JobQuestions.SelectCategory | src/lib/jobSpecificQuestions.ts:421-431 | the loop returns the first category whose running weight reaches the scaled draw, falling back to the first category; this is the category the draw selects |
| JobQuestions.Unused | src/lib/jobSpecificQuestions.ts:434-436 | a question remains exactly when it is in the category and not yet used |
| JobQuestions.JobRoundsKeep | src/lib/jobSpecificQuestions.ts:419-457 | the rounds only append, keep at most `count` questions, one type each, each drawn from an available category of its type, with no repeats, and stop short of `count` only when fewer than two draws are left |
| JobQuestions.DrawQuestions | src/lib/jobSpecificQuestions.ts:416-457 | the loop's questions, types and draws used are those of the rounds function |
| JobQuestions.GenerateJobSpecificQuestions | src/lib/jobSpecificQuestions.ts:376-460 | the result is the rounds function over the available categories; so one type per question, at most `count` questions, each drawn from an available category of its stated name, no question repeated, and it stops short only when the draws run out |
| FallbackQuestions.FisherYatesPermutes | src/lib/deepseek.ts:149-156 | the shuffle is a permutation of the bank |
| FallbackQuestions.ShuffleShort | src/lib/deepseek.ts:149-156 | lists of length zero or one come back unchanged, since the loop body never runs |
| FallbackQuestions.ShuffleZeroDraws | src/lib/deepseek.ts:149-156 | with every draw 0, each position swaps with the front, rotating a three-element list left by one |
| FallbackQuestions.ShuffleInPlace | src/lib/deepseek.ts:149-156 | the in-place loop leaves the array holding the Fisher–Yates shuffle of its old contents and uses one draw per position above 0 |
| FallbackQuestions.Shuffle | src/lib/deepseek.ts:149-156 | the copy-and-shuffle returns a permutation of its input, equal to the Fisher–Yates function |
| FallbackQuestions.PoolsKeys | src/lib/deepseek.ts:158-199 | the question map has exactly the category keys |
| FallbackQuestions.PoolPermutesBank | src/lib/deepseek.ts:158-199 | each category's pool is a permutation of its bank |
| FallbackQuestions.BuildQuestionMap | src/lib/deepseek.ts:158-199 | the map equals the pools function and consumes the draws of all ten shuffles in order |
| FallbackQuestions.BankSizes | src/lib/deepseek.ts:104-198 | there is one bank per category key: the first four hold eight questions and the other six hold four |
| FallbackQuestions.ShuffleStartOfSizes | src/lib/deepseek.ts:158-199 | the shuffle of bank i begins after 7i draws for the first four banks and after 28 + 3(i-4) draws after them |
| FallbackQuestions.FirstPassTypes | src/lib/deepseek.ts:206-213 | the first pass yields one question per request while that category's pool lasts, so at most one per request, each of a requested, known category |
| FallbackQuestions.FirstPassWithoutRepeats | src/lib/deepseek.ts:206-213 | without repeated requests the first pass takes exactly one question from each requested category that exists |
| FallbackQuestions.TakePreserves | src/lib/deepseek.ts:209-212 | taking a pool's head keeps "questions drawn so far of a type, followed by the pool, is the original pool" |
| FallbackQuestions.Serve | src/lib/deepseek.ts:207-212 | a category with a non-empty pool moves that pool's front question to the questions, typed with the category, and drops it from the pool; any other category changes nothing |
| FallbackQuestions.ServeTakes | src/lib/deepseek.ts:207-212 | serving a category with questions left keeps the first-pass invariant for the longer request list: drawn questions plus pools are the original pools, the types are the first-pass types, and each category is served as often as requested up to its pool size |
| FallbackQuestions.ServeSkips | src/lib/deepseek.ts:207-212 | serving an unknown category or an empty pool keeps the same invariant |
| FallbackQuestions.FirstPassOfDone | src/lib/deepseek.ts:206-213 | after the first pass the drawn questions of each type followed by its remaining pool are its original pool, the types are the first-pass types, and each category is served min(requests, pool size) times |
| FallbackQuestions.FirstPassStep | src/lib/deepseek.ts:207-212 | one request of the loop computes Serve on the current questions, types and map |
| FallbackQuestions.FirstPass | src/lib/deepseek.ts:206-213 | the loop's questions, types and map are those of the first-pass function FirstPassOf |
| FallbackQuestions.WithQuestionsMembers | src/lib/deepseek.ts:218-220 | a category is listed exactly when it was requested and its pool is non-empty |
| FallbackQuestions.WithQuestionsNoRepeats | src/lib/deepseek.ts:218-220 | the filter keeps the request order, so requests without repeats give a list without repeats |
| FallbackQuestions.WithQuestionsTracks | src/lib/deepseek.ts:218-220 | without repeated requests the list holds, once each, exactly the requested categories whose pools are non-empty |
| FallbackQuestions.WithQuestionsWithin | src/lib/deepseek.ts:218-220 | every listed category is a requested one |
| FallbackQuestions.SpliceRemoves | src/lib/deepseek.ts:233-235 | removing an entry from a duplicate-free list removes exactly that category |
| FallbackQuestions.TakeTracks | src/lib/deepseek.ts:227-236 | a fill step keeps the available list equal to the requested categories with non-empty pools |
| FallbackQuestions.FillRound | src/lib/deepseek.ts:227-236 | a round serves the category at the drawn entry and never lengthens the list of categories |
| FallbackQuestions.FillStep | src/lib/deepseek.ts:222-236 | one iteration equals the fill round on entry floor(draw × list length): the front of that category's pool is taken if it has one, and the entry is spliced out once the pool is empty |
| FallbackQuestions.FillRoundsConserve | src/lib/deepseek.ts:222-237 | the rounds keep "drawn questions of each type followed by its pool is its original pool" |
| FallbackQuestions.FillRoundsTyped | src/lib/deepseek.ts:222-237 | rounds over requested categories add only questions of requested types |
| FallbackQuestions.FillRoundsExtend | src/lib/deepseek.ts:222-237 | the rounds keep the earlier questions and types, add at most one question per slot and use at most one draw per slot |
| FallbackQuestions.FillRoundsExhaust | src/lib/deepseek.ts:222-237 | while the list holds exactly the requested categories with questions left, the rounds add fewer questions than slots only when every requested pool is empty |
| FallbackQuestions.FillLoop | src/lib/deepseek.ts:222-237 | the loop's questions, types, map and next draw are those of the fill rounds over its slots, which stop at the slot count or when the list is empty |
| FallbackQuestions.FillPass | src/lib/deepseek.ts:216-238 | the fill phase equals FillOf: nothing with five or more questions, otherwise the fill rounds over the requested categories whose pools have questions, for the missing slots |
| FallbackQuestions.FillOfConserve | src/lib/deepseek.ts:216-238 | the fill phase keeps the pools conserved |
| FallbackQuestions.FillOfTyped | src/lib/deepseek.ts:216-238 | the fill phase adds only questions of requested types |
| FallbackQuestions.FillOfExtend | src/lib/deepseek.ts:216-238 | the earlier questions are kept; with five or more nothing is drawn; otherwise at most five questions result and at most one draw per missing question is used |
| FallbackQuestions.FillOfExhaust | src/lib/deepseek.ts:216-238 | without repeated requests, ending the fill phase with fewer than five questions means every requested pool is empty |
| FallbackQuestions.Padding | src/lib/deepseek.ts:242-252 | padding takes the unshuffled behavioural questions in order, then the experience question once the list is exhausted |
| FallbackQuestions.Pad | src/lib/deepseek.ts:242-252 | the loop appends exactly enough padding questions, all of type behavioural, to reach five |
| FallbackQuestions.AllDrawnFromBanks | src/lib/deepseek.ts:206-238 | every drawn question belongs to the bank of the category it is typed with |
| FallbackQuestions.DrawnArePrefixes | src/lib/deepseek.ts:206-238 | the questions drawn of each category form a prefix of that category's shuffled pool, so none is drawn twice |
| FallbackQuestions.ExhaustedPool | src/lib/deepseek.ts:206-238 | an empty pool means every question of that bank has been drawn |
| FallbackQuestions.PaddedFacts | src/lib/deepseek.ts:242-252 | padding keeps the drawn questions in front and appends the behavioural bank's first questions, typed behavioural, up to five in all |
| FallbackQuestions.FilledFacts | src/lib/deepseek.ts:206-238 | the questions both passes draw come off the front of the pools and have requested types, begin with the first pass's types, reach at most five with at most five draws, and stop short of five without repeated requests only once every requested pool is empty |
| FallbackQuestions.PaddedSelection | src/lib/deepseek.ts:206-252 | padding questions drawn that way gives a selection of max(5, first-pass count) questions, with the drawn part in front and the behavioural bank after it |
| FallbackQuestions.SelectionFacts | src/lib/deepseek.ts:206-252 | the selection function, first pass then fill then padding, has that shape |
| FallbackQuestions.SelectFromPools | src/lib/deepseek.ts:201-254 | the three passes over a question map compute the selection of its pools and the draws |
| FallbackQuestions.SelectFromBanks | src/lib/deepseek.ts:158-254 | shuffling the banks and then selecting equals the selection of the shuffled pools, the draws starting after the shuffles |
| FallbackQuestions.SelectionFromBanks | src/lib/deepseek.ts:158-254 | for shuffled banks the drawn questions of each type are a prefix of its shuffled pool, every question belongs to the bank of its type, and a used-up pool means its whole bank was drawn |
| FallbackQuestions.BankSelectionFacts | src/lib/deepseek.ts:158-254 | the selection from the shuffled banks has all of those properties |
| FallbackQuestions.DrawnSelection | src/lib/deepseek.ts:158-254 | the same properties written out for a result list, and with no categories the result is the first five behavioural questions |
| FallbackQuestions.SizedBankSelection | src/lib/deepseek.ts:104-254 | for banks of the application's sizes: the shuffles take 46 draws and the fill phase at most five more |
| FallbackQuestions.GenerateFallbackQuestions | src/lib/deepseek.ts:100-255 | the result is the selection of the role's banks shuffled from the first draw, with the fill draws starting after the 46 shuffle draws; so max(5, first-pass count) questions, the first-pass types first, drawn questions taken from the front of their shuffled pools and from the bank of their type, then the behavioural bank in order; without categories the first five behavioural questions; 46 to 51 draws used |
| FallbackQuestions.GetLanguageName | src/lib/deepseek.ts:257-271 | always one of the table's language names; English for a code outside the table that is not an inherited object member |
| FallbackQuestions.LanguageNameRoundTrip | src/lib/deepseek.ts:257-271 | a known code's language name maps back to that code |
| FallbackQuestions.EnglishIsTheDefault | src/lib/deepseek.ts:257-271 | the name is English exactly for "en" and for codes outside the table that are not inherited object members |
| FallbackQuestions.FallbackFeedback | src/lib/deepseek.ts:334-343 | the offline feedback is one of the five canned messages |
| FallbackQuestions.FallbackFeedbackReaches | src/lib/deepseek.ts:334-343 | each of the five messages is produced by some draw |
| AnswerScorer.AvgSentenceLength | src/components/interview/InterviewResults.tsx:175-179 | non-negative; with at most one sentence it is the word count, as the guard against division by zero demands |
| AnswerScorer.EmptyAnswerCounts | src/components/interview/InterviewResults.tsx:175-179 | an empty answer counts one word (a split yields one empty piece), no sentence, and has average length 1 |
| AnswerScorer.BehavioralStructureTable | src/components/interview/InterviewResults.tsx:199-251 | the structure score is 85, 65, 45 or 30 as context, action and result are present; depth is 75 with specific details and 50 without |
| AnswerScorer.BehavioralEntries | src/components/interview/InterviewResults.tsx:199-251 | three entries in all; expand below 50 words, concise above 300, length strength in between; STAR strength exactly when no STAR advice |
| AnswerScorer.TechnicalEntries | src/components/interview/InterviewResults.tsx:252-297 | depth 80, 60, 50 or 30 as technical terms and explanation are present; a third entry only for long sentences |
| AnswerScorer.AnalyzeTechnical | src/components/interview/InterviewResults.tsx:252-297 | the method meets the technical analysis; its clarity is 75 exactly below 25 words a sentence and 40 exactly from 35 words |
| AnswerScorer.CodingEntries | src/components/interview/InterviewResults.tsx:298-340 | depth between 20 and 100: 100 exactly with comments, error handling and optimisation, 20 with none; three entries; one strength per comment and error-handling feature |
| AnswerScorer.AnalyzeByType | src/components/interview/InterviewResults.tsx:198-340 | the analysis of the answer's type, with structure and depth in [0, 100] |
| AnswerScorer.WordsOf | src/components/interview/InterviewResults.tsx:343-347 | splitting on non-word characters gives pieces made only of word characters |
| AnswerScorer.Matching | src/components/interview/InterviewResults.tsx:348-350 | a question word is kept exactly when it occurs among the answer's words |
| AnswerScorer.RelevanceScore | src/components/interview/InterviewResults.tsx:351-354 | NaN exactly when there are no question words; otherwise from 20 to 100 |
| AnswerScorer.RelevanceScoreRange | src/components/interview/InterviewResults.tsx:351-354 | no match scores 20, all matched scores 100, and more matches never score less |
| AnswerScorer.Relevance | src/components/interview/InterviewResults.tsx:343-354 | NaN exactly when the question has no word longer than three letters; otherwise from 20 to 100 |
| AnswerScorer.RelevanceExtremes | src/components/interview/InterviewResults.tsx:343-354 | an answer missing every question word scores 20; one containing them all scores 100 |
| AnswerScorer.Clarity | src/components/interview/InterviewResults.tsx:389-394 | the integer nearest the mean of structure, depth and relevance, halves rounded up; NaN when relevance is NaN |
| AnswerScorer.ClarityBetween | src/components/interview/InterviewResults.tsx:389-394 | clarity lies between the least and greatest possible component scores |
| AnswerScorer.CommonWordsAreShort | src/components/interview/InterviewResults.tsx:357-371 | no common word is longer than four letters |
| AnswerScorer.PotentialKeywords | src/components/interview/InterviewResults.tsx:357-374 | a word is a candidate keyword exactly when it appears, is longer than four letters and is not a common word |
| AnswerScorer.PotentialKeywordsAreLongWords | src/components/interview/InterviewResults.tsx:357-374 | the common-word filter is redundant: the candidates are exactly the words longer than four letters |
| AnswerScorer.CountOf | src/components/interview/InterviewResults.tsx:376-380 | a word's count is at most the list length, and positive exactly when the word occurs |
| AnswerScorer.Distinct | src/components/interview/InterviewResults.tsx:376-380 | the distinct words in order of first appearance: no repeats, the same words |
| AnswerScorer.CountFrequencies | src/components/interview/InterviewResults.tsx:376-380 | the frequency map has exactly the words present, each with its number of occurrences; the key order is that of first appearance |
| AnswerScorer.ExtractKeywords | src/components/interview/InterviewResults.tsx:382-386 | the method returns the top keywords of the candidate words |
| AnswerScorer.RankedEntries | src/components/interview/InterviewResults.tsx:382-384 | the sorted table holds each distinct word once with its count, in non-increasing count order |
| AnswerScorer.TopKeywordsDistinct | src/components/interview/InterviewResults.tsx:382-386 | min(5, distinct words) keywords, no repeats, all taken from the words |
| AnswerScorer.TopKeywordsRanked | src/components/interview/InterviewResults.tsx:382-386 | keywords are in non-increasing frequency, and no omitted word is more frequent than a chosen one |
| AnswerScorer.TopKeywordsStable | src/components/interview/InterviewResults.tsx:383-384 | equally frequent words keep their order of first appearance |
| AnswerScorer.MeasureAnswer | src/components/interview/InterviewResults.tsx:173-397 | the metrics are the word and sentence counts, the average, the type analysis, the relevance and the clarity, and a finite clarity is in [0, 100] |
| AnswerScorer.AnalyzeAnswer | src/components/interview/InterviewResults.tsx:173-397 | the analysis carries the question, its type, the metrics, the strength and improvement texts and the top keywords |
| AnswerScorer.Texts | src/components/interview/InterviewResults.tsx:224-338 | each feedback entry becomes its message, in order |
| Personality.MatchCountAtLeast | src/lib/personalityInsights.ts:164-175 | a trait's match count is at least the number of matches of any one of its keywords |
| Personality.KeywordBonus | src/lib/personalityInsights.ts:177 | five points per match up to 40, and zero exactly without matches |
| Personality.AddKeywordBonuses | src/lib/personalityInsights.ts:164-179 | each trait starts at 50 and gains the keyword bonus of its match count |
| Personality.CountTraitMatches | src/lib/personalityInsights.ts:166-175 | the loop's total equals the trait's match count |
| Personality.QuotientAbove | src/lib/personalityInsights.ts:182-202 | a ratio test a/b > p/q is the cross-multiplied integer test |
| Personality.CommunicationBonus | src/lib/personalityInsights.ts:182-191 | ten points exactly when sentences average over 20 trimmed UTF-16 code units, otherwise zero |
| Personality.ConfidenceBonus | src/lib/personalityInsights.ts:193-202 | ten points exactly when first-person words exceed 5% of all words, otherwise zero |
| Personality.Clamp | src/lib/personalityInsights.ts:205-207 | a result in [0, 100] that equals any score already in range |
| Personality.ClampAll | src/lib/personalityInsights.ts:205-207 | the loop clamps every score |
| Personality.ScoreTraits | src/lib/personalityInsights.ts:22-207 | the method computes the trait-score function over the ten patterns |
| Personality.ScoresInRange | src/lib/personalityInsights.ts:177-207 | raw scores and final scores are all between 50 and 100, so clamping never changes a score |
| Personality.EmptyAnswersScoreFifty | src/lib/personalityInsights.ts:22-207 | with no answers every trait scores exactly 50 |
| Personality.SharedKeywordCountsForBoth | src/lib/personalityInsights.ts:40-177 | a keyword listed for two traits that occurs in the answers raises both above 50 |
| Personality.BuildTraits | src/lib/personalityInsights.ts:210-371 | one trait per definition, with its name and description and its computed score |
| Personality.LowestTraits | src/lib/personalityInsights.ts:382 | the two traits at the end of the ranking |
| Personality.RankingFacts | src/lib/personalityInsights.ts:374-382 | the ranking is a permutation in non-increasing score order that keeps ties stable; the dominant traits are its top three; the lowest traits are its bottom two |
| Personality.EqualScoresKeepDefinitionOrder | src/lib/personalityInsights.ts:374-382 | when every score is equal, dominant and lowest traits follow the definition order |
| Personality.SummaryMentions | src/lib/personalityInsights.ts:378-383 | the summary names the top trait and, in lower case, the lowest trait |
| Personality.InterviewTips | src/lib/personalityInsights.ts:386-392 | there are five tips |
| Personality.ProfileOf | src/lib/personalityInsights.ts:373-399 | the profile keeps the traits and has three dominant traits and five tips |
| Personality.ProfileNamesRankedTraits | src/lib/personalityInsights.ts:373-399 | the profile's dominant traits, summary and first two tips name the highest-ranked and lowest-ranked traits |
| Personality.ProfileFor | src/lib/personalityInsights.ts:20-400 | one trait per definition, each named after it and scored in [50, 100] |
| Personality.AnalyzeWith | src/lib/personalityInsights.ts:20-400 | the method computes the profile function |
| Personality.AnalyzePersonality | src/lib/personalityInsights.ts:20-400 | the method computes the profile for the application's keyword tables and wording |
| Personality.KeywordPatterns | src/lib/personalityInsights.ts:40-161 | one keyword list per trait, in trait order |
| Personality.TraitTexts | src/lib/personalityInsights.ts:210-371 | one definition per trait, in trait order |
| Personality.Join | src/lib/personalityInsights.ts:22 | joining no answers gives the empty text, and joining one gives that answer |
| LearningPlan.FirstCompletedIsEarliest | src/components/interview/LearningPlanPanel.tsx:61-69 | the first interview date is one of the history's dates and no later than any of them |
| LearningPlan.DaysActive | src/components/interview/LearningPlanPanel.tsx:71-77 | at least one; otherwise the whole days elapsed since the first interview |
| LearningPlan.NoHistoryOneDay | src/components/interview/LearningPlanPanel.tsx:61-77 | with no history the user has been active one day |
| LearningPlan.AverageScore | src/components/interview/LearningPlanPanel.tsx:80-89 | zero without history; otherwise the integer nearest the mean score, halves rounded up |
| LearningPlan.ScoreSumBounds | src/components/interview/LearningPlanPanel.tsx:80-89 | scores in [lo, hi] sum to between lo and hi times their number |
| LearningPlan.AverageScoreBounds | src/components/interview/LearningPlanPanel.tsx:80-89 | the average stays within the scores' bounds |
| LearningPlan.Progress | src/components/interview/LearningPlanPanel.tsx:92-95 | at most 100; below the cap, five points per interview plus half the average score, rounded |
| LearningPlan.ProgressSaturates | src/components/interview/LearningPlanPanel.tsx:92-95 | twenty interviews reach the 100% cap |
| LearningPlan.ProgressMonotone | src/components/interview/LearningPlanPanel.tsx:92-95 | another interview never lowers the progress |
| LearningPlan.TypesInOrder | src/components/interview/LearningPlanPanel.tsx:98-114 | each question type seen appears once, in order of first appearance |
| LearningPlan.TallyStep | src/components/interview/LearningPlanPanel.tsx:104-112 | adding one analysis adds one to its type's count and its clarity to its total, and leaves other types alone |
| LearningPlan.AddAnalysis | src/components/interview/LearningPlanPanel.tsx:104-112 | one map update keeps the map equal to the per-type counts and totals of all analyses seen |
| LearningPlan.AddDetails | src/components/interview/LearningPlanPanel.tsx:103-113 | the inner loop tallies one interview's analyses |
| LearningPlan.TallyTypes | src/components/interview/LearningPlanPanel.tsx:98-114 | the nested loops tally every analysis of every interview by type |
| LearningPlan.TypeEntries | src/components/interview/LearningPlanPanel.tsx:116-121 | one entry per type seen, in order, each with a positive count |
| LearningPlan.EntryAverage | src/components/interview/LearningPlanPanel.tsx:116-121 | the integer nearest the type's mean clarity, halves rounded up |
| LearningPlan.AreasOf | src/components/interview/LearningPlanPanel.tsx:116-121 | each area is the capitalised type name with its average |
| LearningPlan.DefaultAreas | src/components/interview/LearningPlanPanel.tsx:124-131 | four default areas, each at zero progress |
| LearningPlan.NoAnalysesDefaultAreas | src/components/interview/LearningPlanPanel.tsx:124-134 | without analyses the focus areas are the defaults |
| LearningPlan.FocusAreas | src/components/interview/LearningPlanPanel.tsx:116-134 | a permutation of the areas in ascending order of progress |
| LearningPlan.FocusAreasStable | src/components/interview/LearningPlanPanel.tsx:133-134 | areas with equal progress keep their order |
| LearningPlan.FocusAreasPerType | src/components/interview/LearningPlanPanel.tsx:116-134 | with analyses there is exactly one area per question type seen |
| LearningPlan.FocusAreasInRange | src/components/interview/LearningPlanPanel.tsx:116-134 | clarity scores in [0, 100] give area progress in [0, 100] |
| LearningPlan.AreaName | src/components/interview/LearningPlanPanel.tsx:156-178 | the k-th area name when present and non-empty, otherwise the fallback topic |
| LearningPlan.BaseTasks | src/components/interview/LearningPlanPanel.tsx:156-178 | two standing tasks each day |
| LearningPlan.BucketWindow | src/components/interview/LearningPlanPanel.tsx:181-203 | a scheduled interview is placed exactly when it lies within three days from the current time, in the day of its whole-day offset |
| LearningPlan.BucketsPartitionDueSoon | src/components/interview/LearningPlanPanel.tsx:181-203 | the three days together hold as many scheduled tasks as there are interviews due within three days, so each is listed once |
| LearningPlan.Practice | src/components/interview/LearningPlanPanel.tsx:156-203 | three days, each with its standing tasks followed by its scheduled interviews |
| LearningPlan.AddScheduled | src/components/interview/LearningPlanPanel.tsx:181-203 | the loop over scheduled interviews produces the practice plan |
| LearningPlan.MasteredLinesCount | src/components/interview/LearningPlanPanel.tsx:219-227 | one mastery line per type whose rounded average is above 80 over at least three analyses |
| LearningPlan.PushMastered | src/components/interview/LearningPlanPanel.tsx:219-227 | the loop appends the mastery lines in type order |
| LearningPlan.DefaultAchievements | src/components/interview/LearningPlanPanel.tsx:230-236 | three default achievements |
| LearningPlan.Achievements | src/components/interview/LearningPlanPanel.tsx:206-236 | never empty: the earned lines when there are any, else the defaults |
| LearningPlan.AchievementsCount | src/components/interview/LearningPlanPanel.tsx:206-236 | the number of earned lines is one for any history, one for an average above 70 and one per mastered type, with the completion line first |
| LearningPlan.BuildAchievements | src/components/interview/LearningPlanPanel.tsx:206-236 | the method computes the achievements function |
| LearningPlan.PlanOf | src/components/interview/LearningPlanPanel.tsx:56-246 | at least one day active, progress at most 100, three practice days, non-empty achievements and focus areas in ascending order |
| LearningPlan.EmptyHistoryPlan | src/components/interview/LearningPlanPanel.tsx:56-246 | an empty history gives zero interviews, zero average, zero progress and one day active |
| LearningPlan.EmptyHistoryDefaults | src/components/interview/LearningPlanPanel.tsx:124-236 | an empty history gives the default focus areas and the default achievements |
| LearningPlan.GenerateLearningPlan | src/components/interview/LearningPlanPanel.tsx:56-246 | the method computes the plan function |
| LearningPlan.EventsForDate | src/components/interview/LearningPlanPanel.tsx:412-419 | exactly the events on that day, never more than there are |
| LearningPlan.HasEventIffEvents | src/components/interview/LearningPlanPanel.tsx:402-419 | a day is marked in the calendar exactly when its event list is non-empty |
| LearningPlan.AllOnDay | src/components/interview/LearningPlanPanel.tsx:412-419 | when all events are on one day, that day's list is all of them in order |
| Session.BlankFeedback | src/components/interview/InterviewSession.tsx:205-214 | a blank-submission message exactly when the code (coding questions) or the answer (others) is blank after trimming |
| Session.FormatTime | src/components/interview/InterviewSession.tsx:306-310 | minutes in decimal, a colon, and two seconds digits below 60 |
| Session.ParseTime | src/components/interview/InterviewSession.tsx:306-310 | the inverse reading of the time format: a successful parse has the colon third from the end and two digits below 60 after it |
| Session.FormatTimeRoundTrip | src/components/interview/InterviewSession.tsx:306-310 | reading a formatted time gives back the seconds |
| Session.FormatTimeInjective | src/components/interview/InterviewSession.tsx:306-310 | different times are shown differently |
| Session.Progress | src/components/interview/InterviewSession.tsx:312 | positive and at most 100, and exactly 100 on the last question |
| Session.ShownPercent | src/components/interview/InterviewSession.tsx:344 | the displayed percent is at most 100, and 100 exactly when fewer than half a question's share remains |
| Session.ShownPercentRounds | src/components/interview/InterviewSession.tsx:312-344 | the displayed percent is within one half of the exact progress |
| Session.InterviewSession.constructor | src/components/interview/InterviewSession.tsx:57-77 | the session starts at question 0, not recording, with empty answers, code and notes and every language "javascript" |
| Session.InterviewSession.ToggleRecording | src/components/interview/InterviewSession.tsx:165-203 | stopping saves the answer in the current slot, and the code and language for a coding question, and sets the feedback; starting clears feedback, timer and transcript |
| Session.InterviewSession.NextQuestion | src/components/interview/InterviewSession.tsx:240-261 | before the last question it advances and clears the working state, keeping all saved answers and notes; on the last it completes with the saved answers |
| Session.InterviewSession.PreviousQuestion | src/components/interview/InterviewSession.tsx:301-304 | nothing changes |
| Session.InterviewSession.SaveNote | src/components/interview/InterviewSession.tsx:294-298 | exactly the indexed note is replaced; every other field is unchanged |
| Session.InterviewSession.Tick | src/components/interview/InterviewSession.tsx:118-132 | the timer advances by one second only while recording; every other field is unchanged |
| Session.InterviewSession.Transcribe | src/components/interview/InterviewSession.tsx:95-101 | the transcript becomes the current answer text; every other field is unchanged |
| Session.InterviewSession.EditCode | src/components/interview/InterviewSession.tsx:382 | the editor's text becomes the current code; every other field is unchanged |
| Session.InterviewSession.SelectLanguage | src/components/interview/InterviewSession.tsx:384 | the selected language becomes the current coding language; every other field is unchanged |
| Session.Walk | src/components/interview/InterviewSession.tsx:240-304 | over any sequence of actions the index never moves back and always names a question, and the answers of passed questions are never rewritten |
| StableSort.SortDescSorted | src/lib/personalityInsights.ts:374 | the sort yields non-increasing keys |
| StableSort.SortDesc | src/lib/personalityInsights.ts:374 | the sort is a permutation of its input |
| StableSort.SortDescStable | src/components/interview/InterviewResults.tsx:383-384 | elements with equal keys keep their relative order |
| StableSort.SortDescIsTheStableSort | src/lib/personalityInsights.ts:374 | any non-increasing, stable rearrangement is this sort, so the model fixes the result of every conforming engine |
| Text.ToLowerCaseFold | src/lib/jobSpecificQuestions.ts:352 | lower-casing after case folding equals lower-casing |
| Text.Trim | src/lib/jobSpecificQuestions.ts:352 | the trimmed text is empty exactly for blank input, and otherwise has no white space at either end |
| Text.TrimPadded | src/lib/jobSpecificQuestions.ts:352 | white space around a text does not change its trimmed form |
| Text.Utf16Length | src/lib/personalityInsights.ts:186 | the UTF-16 length lies between the number of characters and twice it, and equals it when no character is above U+FFFF |
| Text.Utf16LengthAstral | src/lib/personalityInsights.ts:186 | a text made only of characters above U+FFFF has twice as many UTF-16 units as characters |
| Text.TrimmedLength | src/lib/personalityInsights.ts:186 | `.trim().length` counts between one and two units per character of the trimmed text, and is zero exactly for blank text |
| Text.SplitRuns | src/components/interview/InterviewResults.tsx:175 | splitting gives at least one piece, and no piece contains a separator |
| Text.SplitRunsKeepsText | src/components/interview/InterviewResults.tsx:175 | the pieces put together are the text without its separators |
| Text.NatToStringRoundTrip | src/components/interview/LearningPlanPanel.tsx:210-224 | reading a printed number gives the number back |
| Common.ScaledIndex | src/lib/deepseek.ts:152 | `Math.floor(r * n)` is an index below n for a non-empty list |
| Common.ScaledIndexReaches | src/lib/deepseek.ts:224-226 | every index of a list is selected by some draw |
| Common.RoundDiv | src/components/interview/InterviewResults.tsx:389-394 | `Math.round(a / b)`: the integer nearest a/b, halves rounded up |
| Common.RoundDivUnique | src/components/interview/InterviewResults.tsx:389-394 | only one integer satisfies the rounding bounds |
| Common.RoundDivBounds | src/components/interview/LearningPlanPanel.tsx:80-89 | rounding a mean keeps it within the bounds of what was averaged |

## Left out

- Network and storage calls are not modelled. These are the question and
  feedback service requests, and the database reads and writes of
  interviews, notes and schedules. Their results, or their failure, are
  inputs.
- Speech recognition, audio, tab-visibility handling, timers and e-mail
  are events the model receives (`Transcribe`, `Tick`) or are not modelled.
- The current time, the weekday and calendar days are inputs. Time zones
  and `Date` parsing are not modelled.
- LearningPlan.Practice, LearningPlan.BucketWindow: one current time
  `now` serves every scheduled interview. The source reads a fresh
  `new Date()` for each one (src/components/interview/LearningPlanPanel.tsx:183-184).
  The difference is at most the milliseconds the loop takes, at the
  three-day boundary.
- Invalid dates, whose comparisons are NaN, are not modelled.
- Floating point is modelled as exact rational arithmetic. The only thing
  kept from IEEE is the NaN of relevance, for a question with no long
  word.
- Text.ToLowerCase: models ASCII and the two special letters the
  case-insensitive patterns can meet (U+212A and U+0130). It does not
  model the full Unicode case mapping.
- Text.Capitalize: upper-cases an ASCII first letter only. The source's
  `toUpperCase` maps every Unicode letter.
- Text.UpperChar: ASCII letters only, for the same reason.
- The fallback questions come from the fallback generator. It ignores
  the requested `count`, and that argument is not modelled.
- JobQuestions.GenerateJobSpecificQuestions: the source loop can spin
  forever when every available category is exhausted. The model takes a
  finite list of draws and stops when fewer than two remain.
- JobQuestions.JobRounds: a drawn category with no unasked question is
  always retried. The source re-asks a used question when nothing has
  been asked yet (src/lib/jobSpecificQuestions.ts:445-451). With nothing
  asked, every question of a category is unasked, and no table category
  is empty, so that branch is never taken.
- FallbackQuestions.FillOfExhaust: "stopping short of five only when
  every requested pool is empty" is proved only for requests without
  repeated categories. With a repeated category, the source's available
  list can keep a category whose pool is empty. The same condition
  appears in FillRoundsExhaust, FilledFacts and GenerateFallbackQuestions.
- AnswerScorer.CountFrequencies: the frequency table is a map whose
  keys are listed in order of first appearance. The source's plain object
  differs for three kinds of answer word:
  - "constructor" starts from the inherited `Object` function instead of
    0, so its count becomes a string. For "design constructor constructor
    constructor" the source's keywords are ["design", "constructor"].
  - "__proto__" is never stored as a key, so it is never a keyword.
  - Integer-like words such as "12345" and "99999" are listed first, in
    numeric order, whatever their order in the answer.
- AnswerScorer.ExtractKeywords: holds for the model's frequency table
  only. For the three kinds of word under CountFrequencies, the source's
  keywords can differ.
- AnswerScorer.RankedEntries: the ranking is proved for the model's
  frequency table, not for the source's object with "constructor",
  "__proto__" or integer-like words.
- AnswerScorer.TopKeywordsDistinct: the model's five keywords. With
  "__proto__" or "constructor" in the answer, the source's list can
  differ.
- AnswerScorer.TopKeywordsRanked: the frequency order is proved for the
  model's counts. The source's count of "constructor" is a string.
- AnswerScorer.TopKeywordsStable: ties keep first-appearance order in the
  model. In the source, integer-like words such as "12345" and "99999"
  come first, in numeric order.
- FallbackQuestions.SelectFromPools: the question map has only the ten
  category keys. A requested category named after an inherited
  `Object.prototype` member, such as "constructor", is not modelled. In
  the source it would pass the `questionMap[c]` test.
- JobQuestions.ProfileIndex, JobQuestions.FindMatchingJobProfile: title
  lookups that hit a key inherited from `Object.prototype`, such as
  "constructor", are not modelled. The model's table has only the
  profile keys.
- AnswerScorer.AnalyzeTechnical: the source computes a clarity value
  here, but the final clarity overwrites it. The model reports it only as
  an output.
- Personality.AnalyzeWith: the keyword tables, trait descriptions and
  sentence templates are parameters. The literal wording of the
  paragraphs is not restated.
- FallbackQuestions.GetLanguageName: `languages[langCode] || "English"`
  on a plain object. For a code naming an inherited `Object.prototype`
  member, such as "constructor", "toString" or "__proto__", the source
  returns that member, not "English". The model returns "English" for
  every code outside the table. The application offers only the ten
  listed codes.
- FallbackQuestions.EnglishIsTheDefault: "English exactly for codes not
  in the table" holds for the model's table. In the source it fails for
  the inherited keys named under GetLanguageName.
- LearningPlan.TypesInOrder: `questionTypeScores` is a plain object, but
  the model lists its keys in order of first appearance. The source
  differs for two kinds of question type:
  - Integer-like types such as "2" and "10" are listed first by
    `Object.entries`, in numeric order.
  - For "constructor", "toString" or "__proto__", `!questionTypeScores[type]`
    is false, because the inherited member is truthy. No own entry is
    created, and the counts are written onto the inherited object.
- LearningPlan.TallyTypes: the tally is proved for the model's map. For
  the inherited keys under TypesInOrder, the source keeps no entry.
- LearningPlan.TypeEntries: "one entry per type seen, in order" holds for
  the model's map. In the source, integer-like types come first and
  inherited-key types have no entry.
- LearningPlan.FocusAreasPerType: in the source, a type named
  "constructor", "toString" or "__proto__" gets no focus area.
  Integer-like types come first, which changes the order of areas with
  equal progress.
- LearningPlan.PushMastered: "in type order" is the model's
  first-appearance order. In the source, integer-like types come first
  and inherited-key types get no mastery line.
- Session.InterviewSession.constructor: requires at least one question.
  With none, the page divides by zero for its progress, and it writes
  slot 0 of empty arrays.
- Session.InterviewSession.SaveNote: requires an index that names a
  question. An out-of-range write would extend the JavaScript array.
- Session.InterviewSession.ToggleRecording: the text the feedback service
  returns is a parameter. The loading flag shown while it is awaited is
  not modelled. The model sets the feedback in the same step. In the
  source the reply arrives asynchronously, so it can land after a
  NextQuestion and show the previous answer's feedback on the next
  question.
- The rendering components are not modelled. These are the code editor,
  the calendar, the history panel, the dashboards, authentication and
  the profile pages. They hold no logic beyond the lookups modelled above.
