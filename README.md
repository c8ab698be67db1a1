# Tenaxes scoring core in Dafny

Tenaxes is a political-compass survey. A respondent answers Likert questions (-2 … 2). Each question is tied to one or more value axes, and the program turns the answers into four kinds of output:

- axis scores in [-1, 1] with pole labels;
- "flavor" archetype matches;
- ranked axis "collisions", where a question pits one axis against another;
- admin aggregates over stored results.

This project models the computational core of those features as Dafny functions, methods and classes, and proves what each one promises. Each source file has its own module:

- `CollisionAnalyzer` (`collision.dfy`): `analyzeCollisions`, `findCollisionQuestions` and `getCollisionQuestionDetails`.
  - The pair accumulator is an imperative loop nest over a keyed map plus its insertion order.
  - It is proved equal to a pure grouping of the "entries" (question × primary link × collision link).
  - It is then characterised: bounds, classification thresholds, ranking monotonicity, and pair-key injectivity.
- `Scorer` (`scorer.dfy`): the legacy `calculateScores`.
  - It groups items by axis, scores every axis, matches every archetype, sorts, and splits core/facet.
  - It is specified by the pure `Compass` function. `Compass` is then proved to partition the axes, sort and truncate the flavors, and keep every score in range.
- `ArchetypeCalculator` (`archetypes.dfy`): `calculateFlavorMatches` and `separateCoreAndFacets`.
- `AxisDrillDown` (`drilldown.dfy`): `analyzeQuestion` and the per-axis question selection the component renders.
- `FlavorDisplay` (`flavor_display.dfy`): `getDisplayFlavors` and `buildFlavorChartData`, including `trimEnd`, `Math.round` and the unit-test examples.
- `AnalyticsUtils` (`analytics.dfy`): `computeAxisAggregates` and `computeFlavorPopularity`.
  - Both are imperative tallies into a keyed record.
  - Each is proved equal to a pure per-key definition, then sorted (and truncated) as the source does.
- `Shuffle` (`shuffle.dfy`): `hashString`, the `seededRandom` closure and `seededShuffle`.
  - The closure is a class `Lcg` with the captured `state` as a field.
  - The shuffle works on a fresh array copy and is proved against a recursive Fisher–Yates definition.

The shared modules hold the records the core reads:

- `Seqs`: sums, filter, take, a stable insertion sort by a numeric key, and a sort by string key. These are the library calls `reduce`, `filter`, `slice`, `sort` and `localeCompare`.
- `Types`: the question and link records of `database.types.ts`.
- `Instrument`: the instrument catalog's record shapes: axes, items, archetypes and their components.
- `Survey`: the `AxisScore` and `FlavorMatch` records of `supabase.ts`.

Numbers are exact reals, except in `Shuffle`: its integer arithmetic is modelled exactly, including the 32-bit wrap-around of the string hash. A JavaScript object used as a dictionary is a Dafny `map` plus a `seq` of keys in insertion order.

## Model

| member | source | states |
|---|---|---|
| CollisionAnalyzer.LinksWithRole | src/lib/collision-analyzer.ts:45-46 | exactly the links of the given role, all drawn from the input |
| CollisionAnalyzer.Matching | src/lib/collision-analyzer.ts:50-52 | the entries whose pair key is `k`, all of them and only them |
| CollisionAnalyzer.DistinctKeysMatching | src/lib/collision-analyzer.ts:52-62 | a key is created in the map exactly when some entry has that key |
| CollisionAnalyzer.DistinctKeysUnique | src/lib/collision-analyzer.ts:39-62 | the map's keys in insertion order have no repeats |
| CollisionAnalyzer.GroupPush | src/lib/collision-analyzer.ts:52-74 | visiting an entry with key k appends it to k's group, creating the group on first sight |
| CollisionAnalyzer.GroupOther | src/lib/collision-analyzer.ts:64-74 | visiting an entry leaves every other key's group unchanged |
| CollisionAnalyzer.AccumulateStep | src/lib/collision-analyzer.ts:50-74 | one visit keeps keys and pairMap equal to the grouping of the entries seen so far |
| CollisionAnalyzer.AddCombination | src/lib/collision-analyzer.ts:50-74 | the innermost loop body extends the accumulated state by exactly one entry |
| CollisionAnalyzer.GroupMapIsGroup | src/lib/collision-analyzer.ts:50-74 | the map built one entry at a time (create on first sight, then push) holds, for each key seen, exactly the entries filed under it in visiting order, and no other key |
| CollisionAnalyzer.AccumulateRow | src/lib/collision-analyzer.ts:49-75 | one primary link against every collision link extends the accumulated state by that row of entries, in loop order |
| CollisionAnalyzer.AccumulateQuestion | src/lib/collision-analyzer.ts:48-76 | one answered question adds its primary × collision cross product of entries, in loop order |
| CollisionAnalyzer.AccumulatePairs | src/lib/collision-analyzer.ts:24-77 | after the loops the map is the grouping of all entries of answered multi-link questions |
| CollisionAnalyzer.EntriesCharacterization | src/lib/collision-analyzer.ts:41-49 | an entry is visited iff its question is answered and it pairs a primary and a collision link of that question |
| CollisionAnalyzer.CrossCharacterization | src/lib/collision-analyzer.ts:48-49 | the nested loops visit exactly the (primary, collision) combinations |
| CollisionAnalyzer.RowCharacterization | src/lib/collision-analyzer.ts:49 | the inner loop visits one entry per collision link |
| CollisionAnalyzer.CrossCount | src/lib/collision-analyzer.ts:48-49 | a question adds as many entries as its primary links times its collision links |
| CollisionAnalyzer.RowCount | src/lib/collision-analyzer.ts:49 | the inner loop adds one entry per collision link |
| CollisionAnalyzer.QuestionContributes | src/lib/collision-analyzer.ts:24-49 | an entry is counted iff its question has more than one link, is answered, and the entry pairs a primary with a collision link |
| CollisionAnalyzer.ContributionBounded | src/lib/collision-analyzer.ts:68-69 | a Likert answer times a unit key times a positive weight lies within twice the weight |
| CollisionAnalyzer.GroupInRange | src/lib/collision-analyzer.ts:65-74 | every contribution pushed to a group is within twice its pushed weight |
| CollisionAnalyzer.PairScore | src/lib/collision-analyzer.ts:90-95 | 0 without positive weight; within [-1, 1] when the sum is within twice the weight sum |
| CollisionAnalyzer.Direction | src/lib/collision-analyzer.ts:101-104 | balanced iff abs(index) < 0.15; otherwise collision iff the index is positive, primary iff index <= -0.15 |
| CollisionAnalyzer.Strength | src/lib/collision-analyzer.ts:106-109 | each strength label holds exactly on its band of abs(index) |
| CollisionAnalyzer.Confidence | src/lib/collision-analyzer.ts:112-114 | low below 3 questions, medium for 3-4, high from 5 |
| CollisionAnalyzer.FindAxis | src/lib/collision-analyzer.ts:123-124 | none iff no axis has the id; otherwise an axis with that id |
| CollisionAnalyzer.DisplayName | src/lib/collision-analyzer.ts:129-130 | the first axis's name with the id, or the id itself when missing or empty |
| CollisionAnalyzer.ScorePairBounded | src/lib/collision-analyzer.ts:85-98 | in-range contributions give both scores and the preference index in [-1, 1] |
| CollisionAnalyzer.AnalysisBounded | src/lib/collision-analyzer.ts:18-144 | for Likert answers and positive link weights every reported score and index lies in [-1, 1] |
| CollisionAnalyzer.ScoreClassification | src/lib/collision-analyzer.ts:98-137 | index is half the score difference; balanced iff weak iff abs(index) < 0.15; equal scores are balanced; count and confidence agree |
| CollisionAnalyzer.EmittedHaveTwoQuestions | src/lib/collision-analyzer.ts:83 | no pair with fewer than two questions is reported |
| CollisionAnalyzer.EmitCharacterization | src/lib/collision-analyzer.ts:82-140 | the reported scores are exactly the scored groups having at least two questions |
| CollisionAnalyzer.EmitPairs | src/lib/collision-analyzer.ts:82-140 | the scoring loop emits, in insertion order, the scored group of every key with at least two questions |
| CollisionAnalyzer.AnalyzeCollisions | src/lib/collision-analyzer.ts:18-144 | the result is the scored groups with at least two questions, sorted by non-increasing interestingness |
| CollisionAnalyzer.RankMonotoneInIndex | src/lib/collision-analyzer.ts:117-121 | for a fixed count, a larger abs(index) never ranks lower |
| CollisionAnalyzer.RankMonotoneInCount | src/lib/collision-analyzer.ts:117-121 | for a fixed index, more questions rank strictly higher |
| CollisionAnalyzer.BalancedRanksLower | src/lib/collision-analyzer.ts:117-121 | at the same count a balanced pair ranks strictly below a leaning one |
| CollisionAnalyzer.RankBounds | src/lib/collision-analyzer.ts:117-121 | interestingness lies in [5n - 10, 5n + 60] for abs(index) <= 1 |
| CollisionAnalyzer.BarPosition | src/lib/collision-analyzer.ts:50 | the key is p, a bar, then c, with the first bar right after p when p has none |
| CollisionAnalyzer.PairKeyInjective | src/lib/collision-analyzer.ts:50 | bar-free primary ids make the key determine both axis ids |
| CollisionAnalyzer.PairKeyOrdered | src/lib/collision-analyzer.ts:50 | (a, b) and (b, a) get different keys |
| CollisionAnalyzer.GroupAxesAgree | src/lib/collision-analyzer.ts:52-64 | every entry merged under a key has the group's primary and collision axis |
| CollisionAnalyzer.FindCollisionQuestions | src/lib/collision-analyzer.ts:149-166 | exactly the questions with at least two links, a primary link to the first axis and a collision link to the second, each as often as in the input |
| CollisionAnalyzer.FindLink | src/lib/collision-analyzer.ts:185-190 | none iff no link has the role and axis; otherwise the first such link |
| CollisionAnalyzer.Favored | src/lib/collision-analyzer.ts:198-207 | balanced iff the contributions differ by less than 0.3; otherwise the larger side |
| CollisionAnalyzer.DetailsSound | src/lib/collision-analyzer.ts:180-217 | each detail is of an answered listed question, carries its answer and its favored side |
| CollisionAnalyzer.DetailsKeepAnswered | src/lib/collision-analyzer.ts:180-217 | among collision questions, exactly the answered ones get a detail, in order |
| CollisionAnalyzer.DetailsMultiset | src/lib/collision-analyzer.ts:180-217 | among collision questions, each answered one gets as many details as it occurs and an unanswered one none |
| CollisionAnalyzer.QuestionsOfPermutation | src/lib/collision-analyzer.ts:219-223 | sorting the details keeps the multiset of their questions |
| CollisionAnalyzer.GetCollisionQuestionDetails | src/lib/collision-analyzer.ts:172-224 | sorted by non-increasing contribution gap; one detail per answered matching question (with its multiplicity) and none for any other; each carries its answer, the contributions response × key × weight of the first primary and first collision link, and the favored side |
| CollisionAnalyzer.PairKey | src/lib/collision-analyzer.ts:50 | computes the map key: the primary axis id, a bar, the collision axis id |
| CollisionAnalyzer.EntryKey | src/lib/collision-analyzer.ts:50 | the map key of one visited (question, primary link, collision link) combination |
| CollisionAnalyzer.Contribution | src/lib/collision-analyzer.ts:68-69 | computes response × axis_key × the raw weight of one link |
| CollisionAnalyzer.IsMultiLink | src/lib/collision-analyzer.ts:24-26 | holds when a question has more than one link |
| CollisionAnalyzer.Row | src/lib/collision-analyzer.ts:49-75 | the combinations the inner loop visits: one per collision link, in order |
| CollisionAnalyzer.Cross | src/lib/collision-analyzer.ts:48-76 | the combinations both inner loops visit: each primary link against every collision link, primary-major |
| CollisionAnalyzer.QuestionEntries | src/lib/collision-analyzer.ts:42-76 | the combinations of one question: none when unanswered, otherwise its primary × collision cross product |
| CollisionAnalyzer.Entries | src/lib/collision-analyzer.ts:41-77 | the combinations the outer loop visits, question by question |
| CollisionAnalyzer.AllEntries | src/lib/collision-analyzer.ts:24-77 | the combinations visited for the questions with more than one link |
| CollisionAnalyzer.DistinctKeys | src/lib/collision-analyzer.ts:39-62 | the map keys in insertion order: each key where it is first seen |
| CollisionAnalyzer.Group | src/lib/collision-analyzer.ts:52-74 | the accumulator of key `k` once all combinations have been visited |
| CollisionAnalyzer.GroupOf | src/lib/collision-analyzer.ts:52-74 | the accumulator built from the combinations filed under one key: the axes of the first, then one position per combination |
| CollisionAnalyzer.NewPair | src/lib/collision-analyzer.ts:53-61 | a fresh accumulator with the two axis ids and empty lists |
| CollisionAnalyzer.Push | src/lib/collision-analyzer.ts:64-74 | the five pushes the loop body makes for one combination |
| CollisionAnalyzer.GroupMap | src/lib/collision-analyzer.ts:39-77 | the map as the loop fills it, one combination at a time |
| CollisionAnalyzer.Accumulated | src/lib/collision-analyzer.ts:39-77 | the loop state: keys in insertion order, and the map equal to GroupMap of the combinations visited so far |
| CollisionAnalyzer.ConfidenceBonus | src/lib/collision-analyzer.ts:120 | computes 20, 10 or 0 for high, medium or low confidence |
| CollisionAnalyzer.Interestingness | src/lib/collision-analyzer.ts:117-121 | computes 40·abs(index) + 5·count + the confidence bonus, minus 10 when balanced |
| CollisionAnalyzer.Rank | src/lib/collision-analyzer.ts:101-121 | the interestingness of a pair with the given index and question count |
| CollisionAnalyzer.ScorePair | src/lib/collision-analyzer.ts:85-139 | the CollisionScore record pushed for one pair: both scores, the index, labels, display names and interestingness |
| CollisionAnalyzer.Emit | src/lib/collision-analyzer.ts:80-140 | the scores loop: one score per key whose pair has at least two questions, in key order |
| CollisionAnalyzer.InterestingnessOf | src/lib/collision-analyzer.ts:143 | the sort key: a score's interestingness |
| CollisionAnalyzer.AnalysisOf | src/lib/collision-analyzer.ts:18-144 | what analyzeCollisions returns: the emitted scores sorted by interestingness |
| CollisionAnalyzer.HasLink | src/lib/collision-analyzer.ts:157-162 | `some` link has the role and axis |
| CollisionAnalyzer.IsCollisionQuestion | src/lib/collision-analyzer.ts:154-165 | the filter predicate: at least two links, a primary link on the first axis and a collision link on the second |
| CollisionAnalyzer.DetailOf | src/lib/collision-analyzer.ts:181-215 | the map callback: none when unanswered or a link is missing, otherwise the detail from the first matching links |
| CollisionAnalyzer.Details | src/lib/collision-analyzer.ts:180-217 | the map followed by the filter of non-null details, in order |
| CollisionAnalyzer.Decisiveness | src/lib/collision-analyzer.ts:219-223 | the sort key: the absolute difference of the two contributions |
| CollisionAnalyzer.ContributionsOfFirstLinks | src/lib/collision-analyzer.ts:185-195 | holds when both links exist and the detail's contributions are those of the first primary and first collision link |
| CollisionAnalyzer.IsAnswered | src/lib/collision-analyzer.ts:182-183 | holds when the question has a response |
| Seqs.SortDesc | src/lib/scorer.ts:91 | a permutation of the input ordered by non-increasing key |
| Seqs.SortLex | src/lib/analytics-utils.ts:51 | a permutation of the input ordered by its string key |
| Seqs.Take | src/lib/scorer.ts:100 | the first min(n, length) elements |
| Seqs.Filter | src/lib/flavorDisplay.js:8 | at most as long as the input; exactly the elements passing the test |
| Scorer.Clamp | src/lib/scorer.ts:54 | the result is in [-1, 1], equal to x inside and to the nearer bound outside |
| Scorer.PoleLabel | src/lib/scorer.ts:13-19 | "Centrist / Mixed" iff score in [-0.2, 0.2]; "Strong" iff magnitude above 0.6 and "Moderate" iff in between; below -0.6 exactly "Strong " + negative pole, [-0.6, -0.2) "Moderate " + negative pole, (0.2, 0.6] "Moderate " + positive pole, above 0.6 "Strong " + positive pole |
| Scorer.PoleLabelSymmetric | src/lib/scorer.ts:13-19 | negating the score equals swapping the pole names |
| Scorer.MatchStrength | src/lib/scorer.ts:21-27 | one of the five labels, each an iff on its band: Minimal below 0.1, Weak [0.1, 0.3), Moderate [0.3, 0.5), Strong [0.5, 0.7), Very Strong from 0.7 |
| Scorer.MatchStrengthMonotone | src/lib/scorer.ts:21-27 | a larger affinity never gets a weaker label |
| Scorer.ItemsOf | src/lib/scorer.ts:31-35 | exactly the items of the axis |
| Scorer.GroupItemsByAxis | src/lib/scorer.ts:31-35 | every axis's bucket (empty when absent) is exactly its items, in order |
| Scorer.AnsweredCount | src/lib/scorer.ts:45-51 | never more than the number of items |
| Scorer.SumAnswers | src/lib/scorer.ts:42-51 | the keyed answer sum and answer count over the answered items |
| Scorer.ScoreAxis | src/lib/scorer.ts:41-63 | the axis score record with the normalized, clamped score and its pole label |
| Scorer.AxisScores | src/lib/scorer.ts:40-64 | one score per axis, in axis order, with the right id and a score in [-1, 1] |
| Scorer.ScoreTableKeys | src/lib/scorer.ts:38-64 | the record has a key exactly for each axis id |
| Scorer.ScoreTableLookup | src/lib/scorer.ts:38-64 | with distinct ids, each axis's entry is that axis's score |
| Scorer.ScoreAxes | src/lib/scorer.ts:38-64 | the filled record and its values in insertion order |
| Scorer.FindAxisDef | src/lib/scorer.ts:94-95 | the axis with the id when there is one; none iff no axis has it |
| Scorer.Matches | src/lib/scorer.ts:67-90 | one match per archetype, in order, with its id and an affinity in [-1, 1] |
| Scorer.MatchFlavor | src/lib/scorer.ts:68-90 | one archetype's match |
| Scorer.MatchFlavors | src/lib/scorer.ts:67-90 | every archetype's match, in order |
| Scorer.MatchesWellFormed | src/lib/scorer.ts:83-90 | every match's label is the label of its own affinity |
| Scorer.CalculateScores | src/lib/scorer.ts:29-103 | the result is `Compass` of the catalog and the responses |
| Scorer.FacetSplit | src/lib/scorer.ts:94-95 | splitting scores by the facet flag is a permutation: every score lands in exactly one list, by its flag |
| Scorer.CompassAxesPartition | src/lib/scorer.ts:94-95 | core and facet lists together are a permutation of all axis scores, split by the facet flag |
| Scorer.RankedMatches | src/lib/scorer.ts:80-91 | every sorted match has its affinity in [-1, 1] and the strength label of that affinity |
| Scorer.CompassFlavors | src/lib/scorer.ts:67-101 | all matches, as a permutation sorted by affinity; the top list is its first five; each affinity in range with its own label |
| Scorer.UnansweredAxisIsCentrist | src/lib/scorer.ts:53-62 | an axis with no answered item scores 0 and is labelled centrist |
| Scorer.NoneAnswered | src/lib/scorer.ts:45-51 | no answered item gives a count of 0 |
| Scorer.AnsweredSumBounded | src/lib/scorer.ts:45-51 | Likert answers and unit keys keep the sum within twice the count |
| Scorer.NormalizedInRange | src/lib/scorer.ts:45-53 | for Likert answers and unit keys the halved mean keyed answer lies in [-1, 1] |
| Scorer.AxisClampInactive | src/lib/scorer.ts:53-54 | for Likert answers the clamp never changes the normalized score |
| Seqs.DivisionBounded | src/lib/scorer.ts:80 | a sum within a positive weight divided by the weight lies in [-1, 1] |
| Seqs.Sum | src/lib/collision-analyzer.ts:85-88 | `reduce((a, b) => a + b, 0)`, folded left to right |
| Seqs.SumAppend | src/lib/collision-analyzer.ts:85-88 | adding one term adds it to the sum |
| Seqs.FilterConcat | src/lib/flavorDisplay.js:8 | filtering commutes with concatenation, so kept elements stay in input order |
| Seqs.FilterMultiset | src/lib/flavorDisplay.js:8 | a kept element keeps its full multiplicity, and any other occurs 0 times |
| Seqs.FilterNone | src/lib/flavorDisplay.js:8 | nothing passes a filter no element satisfies |
| Seqs.FilterAll | src/lib/flavorDisplay.js:8 | everything passes a filter every element satisfies |
| Seqs.SortedDesc | src/lib/scorer.ts:91 | non-increasing order of a numeric key, the order `sort((a, b) => key(b) - key(a))` produces |
| Seqs.LexLe | src/lib/analytics-utils.ts:51 | lexicographic order on characters, the stand-in for `localeCompare` |
| Seqs.LexLeTotal | src/lib/analytics-utils.ts:51 | any two strings are ordered one way or the other |
| Seqs.LexLeAntisymmetric | src/lib/analytics-utils.ts:51 | strings ordered both ways are equal |
| Seqs.LexLeTransitive | src/lib/analytics-utils.ts:51 | the order is transitive |
| Seqs.SortedLex | src/lib/analytics-utils.ts:51 | non-decreasing order of a string key under LexLe |
| Scorer.WeightedSumBounded | src/lib/scorer.ts:71-78 | the counted weights are non-negative and bound the weighted sum |
| Scorer.AlignmentBounded | src/lib/scorer.ts:74-75 | one component's weighted alignment lies within its weight |
| Scorer.AffinityClampInactive | src/lib/scorer.ts:80-81 | the affinity clamp never changes the affinity |
| Scorer.NothingCountsIsZero | src/lib/scorer.ts:71-80 | with no counting component the weight is 0 and so is the affinity |
| Scorer.NonCountingComponentIgnored | src/lib/scorer.ts:73 | a neutral component or one without an axis score leaves the affinity unchanged |
| Scorer.Lookup | src/lib/scorer.ts:41 | `itemsByAxis[axisId] \|\| []` |
| Scorer.AnsweredSum | src/lib/scorer.ts:45-51 | the rawSum loop: the keyed answers of the answered items |
| Scorer.Normalized | src/lib/scorer.ts:53 | computes rawSum / (2·count), or 0 when nothing is answered |
| Scorer.AxisScoreOf | src/lib/scorer.ts:53-63 | the AxisScore record of one axis: the clamped score and its pole label |
| Scorer.ScoreTable | src/lib/scorer.ts:38-64 | the `axisScores` record, written axis by axis |
| Scorer.IsFacet | src/lib/scorer.ts:94-95 | `AXES[id]?.is_facet`, with an unknown axis counted as core |
| Scorer.CoreAxes | src/lib/scorer.ts:94 | the scores whose axis is not a facet |
| Scorer.Facets | src/lib/scorer.ts:95 | the scores whose axis is a facet |
| Scorer.Counts | src/lib/scorer.ts:73 | the guard `axisScore && comp.direction !== 0` |
| Scorer.Alignment | src/lib/scorer.ts:74-75 | computes score × direction × weight of one component |
| Scorer.WeightedSum | src/lib/scorer.ts:71-78 | the weightedSum accumulated over the counting components |
| Scorer.TotalWeight | src/lib/scorer.ts:71-78 | the totalWeight accumulated over the counting components |
| Scorer.RawAffinity | src/lib/scorer.ts:80 | computes weightedSum / totalWeight, or 0 with no weight |
| Scorer.FlavorMatchOf | src/lib/scorer.ts:67-90 | the FlavorMatch record of one archetype: the clamped affinity and its strength label |
| Scorer.AffinityOf | src/lib/scorer.ts:91 | the sort key: a match's affinity |
| Scorer.Compass | src/lib/scorer.ts:29-103 | what calculateScores returns: core axes, facets, the first five sorted flavors and all sorted flavors |
| ArchetypeCalculator.ScoreMapLastWins | src/lib/archetype-calculator.ts:17-19 | each id maps to the score of its last occurrence |
| ArchetypeCalculator.ScoreMapKeys | src/lib/archetype-calculator.ts:17-19 | an id is a key iff some axis score has it |
| ArchetypeCalculator.Strength | src/lib/archetype-calculator.ts:46-51 | Strong iff abs >= 0.7, Moderate iff 0.4 <= abs < 0.7, Mismatch iff abs < 0.2 |
| ArchetypeCalculator.StrengthIgnoresSign | src/lib/archetype-calculator.ts:47 | an affinity and its negation get the same label |
| ArchetypeCalculator.Matches | src/lib/archetype-calculator.ts:23-61 | one match per archetype, in archetype order |
| ArchetypeCalculator.SumComponents | src/lib/archetype-calculator.ts:24-40 | the loop's weighted alignment total and weight total |
| ArchetypeCalculator.CalculateFlavorMatches | src/lib/archetype-calculator.ts:16-67 | the matches sorted by non-increasing affinity, a permutation of one match per archetype |
| ArchetypeCalculator.AlignmentBounded | src/lib/archetype-calculator.ts:29-38 | a component's weighted alignment lies within its weight for scores in [-1, 1] |
| ArchetypeCalculator.TotalAlignmentBounded | src/lib/archetype-calculator.ts:28-40 | with positive weights the alignment total lies within the weight total |
| ArchetypeCalculator.AffinityBounded | src/lib/archetype-calculator.ts:42-43 | every affinity lies in [-1, 1] when the scores do |
| ArchetypeCalculator.AllNeutralIsPerfect | src/lib/archetype-calculator.ts:34-35 | neutral components align fully: total alignment equals total weight |
| ArchetypeCalculator.UnscoredAxisDilutes | src/lib/archetype-calculator.ts:29-39 | a directed component on an unscored axis adds weight but no alignment |
| ArchetypeCalculator.SeparateCoreAndFacets | src/lib/archetype-calculator.ts:72-80 | exactly the scores whose id starts with C, and those starting with F, each as often as in the input |
| ArchetypeCalculator.SeparatePartition | src/lib/archetype-calculator.ts:76-77 | when every id starts with C or F, the two lists are a permutation of the input |
| ArchetypeCalculator.ScoreMap | src/lib/archetype-calculator.ts:17-19 | the `Object.fromEntries` map from axis id to score, written in order |
| ArchetypeCalculator.UserScore | src/lib/archetype-calculator.ts:29 | `scoreMap[axis] ?? 0` |
| ArchetypeCalculator.Alignment | src/lib/archetype-calculator.ts:34-36 | 1 for a neutral component, otherwise the user score times the direction |
| ArchetypeCalculator.WeightedAlignment | src/lib/archetype-calculator.ts:38 | computes alignment × weight |
| ArchetypeCalculator.TotalAlignment | src/lib/archetype-calculator.ts:28-40 | the totalAlignment accumulated over all components |
| ArchetypeCalculator.TotalWeight | src/lib/archetype-calculator.ts:28-40 | the totalWeight accumulated over all components |
| ArchetypeCalculator.Affinity | src/lib/archetype-calculator.ts:43 | computes totalAlignment / totalWeight, or 0 with no weight |
| ArchetypeCalculator.MatchOf | src/lib/archetype-calculator.ts:43-60 | the match record of one archetype: its affinity and strength label |
| ArchetypeCalculator.AffinityOf | src/lib/archetype-calculator.ts:64 | the sort key: a match's affinity |
| ArchetypeCalculator.FlavorMatches | src/lib/archetype-calculator.ts:16-67 | what calculateFlavorMatches returns: one match per archetype, sorted by affinity |
| ArchetypeCalculator.StartsWith | src/lib/archetype-calculator.ts:76-77 | `startsWith` for a one-character prefix |
| ArchetypeCalculator.CoreAxes | src/lib/archetype-calculator.ts:76 | the scores whose id starts with C |
| ArchetypeCalculator.FacetAxes | src/lib/archetype-calculator.ts:77 | the scores whose id starts with F |
| AxisDrillDown.AnalyzeQuestion | src/components/AxisDrillDown.tsx:174-205 | positive iff contribution > 0.5, negative iff < -0.5; outlier iff abs > 1.5 and the direction opposes the overall score |
| AxisDrillDown.CentristHasNoOutlier | src/components/AxisDrillDown.tsx:193-197 | an overall score in [-0.2, 0.2] has no outlier |
| AxisDrillDown.LightQuestionNeverOutlier | src/components/AxisDrillDown.tsx:181-197 | a Likert answer on a question weighted at most 0.75 is never an outlier |
| AxisDrillDown.Analyzed | src/components/AxisDrillDown.tsx:36-42 | exactly the answered questions of the type, each analysed against the overall score |
| AxisDrillDown.DrillDownEmptyIff | src/components/AxisDrillDown.tsx:33-52 | nothing is rendered iff no question of the axis is answered |
| AxisDrillDown.DrillDownSound | src/components/AxisDrillDown.tsx:33-48 | listed questions belong to the axis, are answered, of their type and analysed against their type's score; the conflicts are exactly their outliers and the total is the sum of both counts |
| AxisDrillDown.CentristAxisHasNoConflicts | src/components/AxisDrillDown.tsx:44-48 | centrist overall scores mean no conflicts |
| AxisDrillDown.Contribution | src/components/AxisDrillDown.tsx:181 | computes response × key × weight |
| AxisDrillDown.Opposes | src/components/AxisDrillDown.tsx:193-195 | a direction opposes an overall score above 0.2 or below -0.2 |
| AxisDrillDown.IsOutlier | src/components/AxisDrillDown.tsx:45-46 | the outlier filter predicate |
| AxisDrillDown.Outliers | src/components/AxisDrillDown.tsx:45-46 | the analysed questions flagged as outliers, in order |
| AxisDrillDown.AxisQuestions | src/components/AxisDrillDown.tsx:33 | the questions of the axis, in order |
| AxisDrillDown.DrillDown | src/components/AxisDrillDown.tsx:33-52 | the component's computation: none when both lists are empty, otherwise both lists, their outliers and the conflict total |
| FlavorDisplay.DisplayFlavors | src/lib/flavorDisplay.js:7-10 | with showAll exactly the positive flavors, each as often as in the input; otherwise the first min(5, n) |
| FlavorDisplay.TrimEnd | src/lib/flavorDisplay.js:20 | the longest prefix not ending in white space; all removed characters are white space |
| FlavorDisplay.TrimEndIdempotent | src/lib/flavorDisplay.js:20 | trimming twice is trimming once |
| FlavorDisplay.ChartName | src/lib/flavorDisplay.js:20 | names up to 20 are kept; a longer one becomes a prefix of its first 18 characters plus "...", where the prefix does not end in white space and every character cut from the first 18 is white space |
| FlavorDisplay.Round | src/lib/flavorDisplay.js:22 | the integer within half a unit, halves rounded up |
| FlavorDisplay.RoundUnique | src/lib/flavorDisplay.js:22 | that integer is unique |
| FlavorDisplay.ChartRows | src/lib/flavorDisplay.js:19-26 | one row per flavor, in order |
| FlavorDisplay.BuildFlavorChartData | src/lib/flavorDisplay.js:16-27 | one row per displayed flavor, in order: chart name ChartName(name), full name, colour, description, strength and the affinity rounded to a percentage |
| FlavorDisplay.ShowAllBarsNonNegative | src/lib/flavorDisplay.js:8-22 | with showAll no bar is negative |
| FlavorDisplay.DisplayFlavorsExample | src/lib/flavorDisplay.test.js:41-49 | without showAll the sample flavors give the four ids the test expects |
| FlavorDisplay.DisplayFlavorsShowAllExample | src/lib/flavorDisplay.test.js:51-58 | with showAll the sample flavors give the three positive ids the test expects |
| FlavorDisplay.ChartDataExample | src/lib/flavorDisplay.test.js:60-71 | the sample's second row and length are what the test expects |
| FlavorDisplay.SampleNameCut | src/lib/flavorDisplay.test.js:63-64 | "Eco-Sovereigntist Steward" is charted as "Eco-Sovereigntist..." |
| FlavorDisplay.IsPositive | src/lib/flavorDisplay.js:8 | the filter predicate `f.affinity > 0` |
| FlavorDisplay.IsTrimmable | src/lib/flavorDisplay.js:20 | the white-space and line-terminator characters `trimEnd` removes |
| FlavorDisplay.ChartRowOf | src/lib/flavorDisplay.js:19-26 | the chart row of one flavor |
| FlavorDisplay.Ids | src/lib/flavorDisplay.test.js:43 | `display.map(f => f.flavor_id)` |
| FlavorDisplay.PositiveMockFlavors | src/lib/flavorDisplay.test.js:51-58 | with showAll, the sample keeps exactly its first three flavors |
| AnalyticsUtils.SumNonNegative | src/lib/analytics-utils.ts:40 | a sum of non-negative terms is non-negative |
| AnalyticsUtils.SquareNonNegative | src/lib/analytics-utils.ts:40 | a square is non-negative |
| AnalyticsUtils.SquaredDeviations | src/lib/analytics-utils.ts:40 | one squared deviation per score, in order |
| AnalyticsUtils.SquaredDeviationsNonNegative | src/lib/analytics-utils.ts:40 | every squared deviation is non-negative |
| AnalyticsUtils.VarianceNonNegative | src/lib/analytics-utils.ts:40-41 | the variance is non-negative, so its square root exists |
| AnalyticsUtils.MeanBounded | src/lib/analytics-utils.ts:39 | the mean lies between any lower and upper bound of the scores |
| AnalyticsUtils.SingleSample | src/lib/analytics-utils.ts:39-40 | one sample is its own mean with zero variance |
| AnalyticsUtils.AxisIdsMembership | src/lib/analytics-utils.ts:30-32 | an id gets a record entry iff some stored axis has it |
| AnalyticsUtils.AxisIdsDistinct | src/lib/analytics-utils.ts:30-32 | record keys are created once each |
| AnalyticsUtils.ScoresOfMembership | src/lib/analytics-utils.ts:33 | an id's scores are exactly those of its entries, at least one for a listed id |
| AnalyticsUtils.NameOfFirst | src/lib/analytics-utils.ts:30-32 | an id keeps the name of its first entry |
| AnalyticsUtils.ScoresOfAbsent | src/lib/analytics-utils.ts:30-33 | an id without entries has no scores |
| AnalyticsUtils.AxisRows | src/lib/analytics-utils.ts:37-50 | one aggregate per key, in key order |
| AnalyticsUtils.AxisTallyStep | src/lib/analytics-utils.ts:29-34 | recording one axis keeps the record equal to the per-id grouping of what was read |
| AnalyticsUtils.TallyAxis | src/lib/analytics-utils.ts:29-34 | the inner loop body extends the record by one entry |
| AnalyticsUtils.TallyResult | src/lib/analytics-utils.ts:28-34 | one result's core axes then facets, missing lists read as empty, extend the record |
| AnalyticsUtils.StatsRowsMatch | src/lib/analytics-utils.ts:37-50 | the mapped record entries equal the per-id aggregates |
| AnalyticsUtils.ComputeAxisAggregates | src/lib/analytics-utils.ts:24-52 | the result is the per-id aggregates sorted by axis id |
| AnalyticsUtils.AggregatesCoverAxes | src/lib/analytics-utils.ts:24-52 | there is an aggregate for every stored axis id and for no other |
| AnalyticsUtils.AggregatesDistinctAndSorted | src/lib/analytics-utils.ts:37-51 | one aggregate per id, ordered by id |
| AnalyticsUtils.AggregateContents | src/lib/analytics-utils.ts:38-49 | sample size at least 1, the mean and non-negative variance of the id's scores, and its first name |
| AnalyticsUtils.Ranked | src/lib/analytics-utils.ts:58-61 | a result counts min(5, n) of its n flavors |
| AnalyticsUtils.RankedWeights | src/lib/analytics-utils.ts:58-61 | the counted ranks are the first flavors, in order, weighted 5, 4, 3, 2, 1 |
| AnalyticsUtils.OnlyTopFiveCount | src/lib/analytics-utils.ts:60-61 | a flavor past the fifth adds nothing |
| AnalyticsUtils.FlavorNamesMembership | src/lib/analytics-utils.ts:62-64 | a name gets an entry iff some counted rank has it |
| AnalyticsUtils.FlavorNamesDistinct | src/lib/analytics-utils.ts:62-64 | names are recorded once each |
| AnalyticsUtils.AffinitiesNonEmpty | src/lib/analytics-utils.ts:62-66 | a recorded name has at least one affinity |
| AnalyticsUtils.FlavorAbsent | src/lib/analytics-utils.ts:62-66 | a name without counted ranks has count 0 and no affinities |
| AnalyticsUtils.PopularityRows | src/lib/analytics-utils.ts:70-75 | one popularity per name with its summed weight and mean affinity |
| AnalyticsUtils.StatsMapTotals | src/lib/analytics-utils.ts:62-66 | the record built one rank at a time holds, for each listed name and no other, its summed rank weights and its affinities in order |
| AnalyticsUtils.FlavorTallyStep | src/lib/analytics-utils.ts:62-66 | recording one counted rank keeps the record equal to the per-name totals |
| AnalyticsUtils.TallyFlavor | src/lib/analytics-utils.ts:62-66 | the inner loop body extends the record by one counted rank |
| AnalyticsUtils.TallyAtRank | src/lib/analytics-utils.ts:58-67 | the callback at position `index` extends the record by that rank when its weight `5 - index` is positive, and leaves it alone otherwise |
| AnalyticsUtils.TallyRanks | src/lib/analytics-utils.ts:58-67 | one result's flavors extend the record by its ranked first five |
| AnalyticsUtils.FlavorStatsRowsMatch | src/lib/analytics-utils.ts:70-75 | the mapped record entries equal the per-name popularity |
| AnalyticsUtils.ComputeFlavorPopularity | src/lib/analytics-utils.ts:54-78 | the result is the per-name popularity sorted by count and cut to 15 |
| AnalyticsUtils.RankWeights | src/lib/analytics-utils.ts:60-61 | every counted rank weighs 1 to 5 |
| AnalyticsUtils.CountBetween | src/lib/analytics-utils.ts:60-65 | a count lies between one and five times the number of counted ranks |
| AnalyticsUtils.PopularityRanking | src/lib/analytics-utils.ts:70-77 | at most 15 entries, by non-increasing count, distinct names |
| AnalyticsUtils.PopularityEntries | src/lib/analytics-utils.ts:55-75 | each count is the summed rank weight of at least one rank, within 1..5 per rank; the average is the mean affinity |
| AnalyticsUtils.OrEmpty | src/lib/analytics-utils.ts:28 | `xs \|\| []` |
| AnalyticsUtils.Mean | src/lib/analytics-utils.ts:39 | the average: the sum over the length |
| AnalyticsUtils.Variance | src/lib/analytics-utils.ts:40 | the population variance: the summed squared deviations over the length |
| AnalyticsUtils.ResultAxes | src/lib/analytics-utils.ts:28 | one result's core axes followed by its facets |
| AnalyticsUtils.AllAxes | src/lib/analytics-utils.ts:27-29 | every stored axis entry of every result, in order |
| AnalyticsUtils.AxisIds | src/lib/analytics-utils.ts:25-35 | the record's keys in insertion order |
| AnalyticsUtils.ScoresOf | src/lib/analytics-utils.ts:33 | the scores pushed for an id, in order |
| AnalyticsUtils.NameOf | src/lib/analytics-utils.ts:30-32 | the name of the first entry of an id |
| AnalyticsUtils.AggregateOf | src/lib/analytics-utils.ts:38-49 | the aggregate record of one id: mean, variance and sample size |
| AnalyticsUtils.AxisIdOf | src/lib/analytics-utils.ts:51 | the sort key: an aggregate's axis id |
| AnalyticsUtils.AxisAggregates | src/lib/analytics-utils.ts:24-52 | what computeAxisAggregates returns: the per-id aggregates sorted by id |
| AnalyticsUtils.AxesTallied | src/lib/analytics-utils.ts:25-35 | the loop state: keys in insertion order, and per key the first name and every score |
| AnalyticsUtils.StatsRows | src/lib/analytics-utils.ts:37-50 | the `Object.entries(...).map(...)` rows of the record |
| AnalyticsUtils.AggregatesFromStoredAxes | src/lib/analytics-utils.ts:37-51 | every aggregate carries the id of some stored axis |
| AnalyticsUtils.StoredAxesAggregated | src/lib/analytics-utils.ts:25-51 | every stored axis id has an aggregate |
| AnalyticsUtils.AllRanked | src/lib/analytics-utils.ts:57-68 | every counted rank of every result, in order |
| AnalyticsUtils.FlavorNames | src/lib/analytics-utils.ts:55-68 | the record's keys in insertion order |
| AnalyticsUtils.WeightOf | src/lib/analytics-utils.ts:65 | the summed rank weights of a name |
| AnalyticsUtils.AffinitiesOf | src/lib/analytics-utils.ts:66 | the affinities pushed for a name, in order |
| AnalyticsUtils.PopularityOf | src/lib/analytics-utils.ts:71-75 | the popularity row of one name: its count and mean affinity |
| AnalyticsUtils.CountOf | src/lib/analytics-utils.ts:76 | the sort key: a row's count |
| AnalyticsUtils.Popularity | src/lib/analytics-utils.ts:54-78 | what computeFlavorPopularity returns: the per-name rows sorted by count, first 15 |
| AnalyticsUtils.StatsMap | src/lib/analytics-utils.ts:55-68 | the record as the loops fill it, one counted rank at a time |
| AnalyticsUtils.FlavorsTallied | src/lib/analytics-utils.ts:55-68 | the loop state: keys in insertion order and the record equal to StatsMap |
| AnalyticsUtils.RankedSnoc | src/lib/analytics-utils.ts:58-61 | one more flavor adds one rank of weight 5 − index while that weight is positive, and nothing after |
| AnalyticsUtils.FlavorStatsRows | src/lib/analytics-utils.ts:70-75 | the `Object.entries(...).map(...)` rows of the record |
| AnalyticsUtils.PopularitySelection | src/lib/analytics-utils.ts:70-77 | min(15, number of counted names) rows, and a counted name left out has a count no larger than any listed one |
| Shuffle.ToInt32 | src/lib/shuffle.ts:11 | a signed 32-bit integer |
| Shuffle.ToInt32Identity | src/lib/shuffle.ts:11 | signed 32-bit values are left alone |
| Shuffle.ToInt32Periodic | src/lib/shuffle.ts:11 | only the value modulo 2^32 matters |
| Shuffle.HashStepIsWrap | src/lib/shuffle.ts:10-11 | the shift-subtract-add step is the signed 32-bit wrap of 31·hash + code |
| Shuffle.HashFold | src/lib/shuffle.ts:7-12 | the running hash is always a signed 32-bit integer |
| Shuffle.HashFoldIsPolynomial | src/lib/shuffle.ts:53-58 | the loop's hash is the base-31 polynomial of the code units wrapped to 32 bits |
| Shuffle.StringHash | src/lib/shuffle.ts:59 | the returned hash lies in [0, 2^31] |
| Shuffle.HashString | src/lib/shuffle.ts:52-60 | the loop returns the magnitude of the folded hash |
| Shuffle.StringHashSmall | src/lib/shuffle.ts:52-60 | "" hashes to 0 and a one-unit string to its code |
| Shuffle.StringHashExample | src/lib/shuffle.ts:52-60 | "ab" hashes to 3105 |
| Shuffle.NextState | src/lib/shuffle.ts:18-23 | every generator state lies in [0, 2^32) |
| Shuffle.UnitInRange | src/lib/shuffle.ts:24 | every `rng()` value lies in [0, 1) |
| Shuffle.Lcg.constructor | src/lib/shuffle.ts:7-15 | the initial state is what `hashString(seed)` returns |
| Shuffle.Lcg.Next | src/lib/shuffle.ts:22-25 | one call advances the state by the LCG step and returns state / 2^32 in [0, 1) |
| Shuffle.SwapIndexInRange | src/lib/shuffle.ts:40 | every swap partner j lies in [0, i] |
| Shuffle.Swap | src/lib/shuffle.ts:41 | positions i and j exchanged, every other position kept |
| Shuffle.SwapPermutes | src/lib/shuffle.ts:41 | a swap keeps the multiset |
| Shuffle.FisherYatesPermutes | src/lib/shuffle.ts:39-42 | the remaining rounds keep the length and multiset |
| Shuffle.ShuffledPermutes | src/lib/shuffle.ts:34-44 | the shuffle is a permutation of its input |
| Shuffle.ShortUnchanged | src/lib/shuffle.ts:39 | arrays of length 0 or 1 come back unchanged |
| Shuffle.ShuffleExample | src/lib/shuffle.ts:34-44 | with the empty seed [10, 20] becomes [20, 10] |
| Shuffle.SeededShuffle | src/lib/shuffle.ts:34-44 | a fresh array equal to the Fisher–Yates shuffle of the input's contents under the seed's generator; the input is only read, and the same input and seed give the same result |
| Shuffle.ShiftLeft5 | src/lib/shuffle.ts:10 | `x << 5`: the signed 32-bit value of x times 32, cut back to 32 bits |
| Shuffle.HashStep | src/lib/shuffle.ts:9-11 | one loop step: `((hash << 5) - hash) + char`, then `hash & hash` |
| Shuffle.Polynomial | src/lib/shuffle.ts:8-12 | the reference definition: the unbounded base-31 polynomial of the code units |
| Shuffle.AbsInt | src/lib/shuffle.ts:59 | `Math.abs` on integers |
| Shuffle.Unit | src/lib/shuffle.ts:24 | computes state / 2^32 |
| Shuffle.Lcg.Valid | src/lib/shuffle.ts:15-23 | the captured state lies in [0, 2^32) |
| Shuffle.Scale | src/lib/shuffle.ts:40 | `Math.floor(u * (i + 1))` |
| Shuffle.SwapIndex | src/lib/shuffle.ts:40 | the swap partner drawn for the generator state and index i |
| Shuffle.FisherYates | src/lib/shuffle.ts:39-42 | the remaining loop rounds, from index i down to 1 |
| Shuffle.Shuffled | src/lib/shuffle.ts:34-44 | the shuffle of a sequence under the generator seeded by the string's hash |

## Left out

- Data access, HTTP routes and React components other than the drill-down's computation. How the drill-down renders, and its expanded/collapsed state, are not modelled.
- `aggregateByDay` (src/lib/analytics-utils.ts:3-22): it reads the clock and formats dates.
- The instrument catalog (`AXES`, `ITEMS`, `FLAVOR_ARCHETYPES`). src/lib/instrument is not part of this model, so `Scorer.CalculateScores` and the archetype matcher take the catalog as a parameter.
- Floating point: every `number` is an exact real. Rounding in sums and divisions is not modelled, so the range results hold for exact arithmetic.
- AnalyticsUtils.AggregateContents: states the variance, not `std_dev = Math.sqrt(variance)`; Dafny has no square root on reals.
- AnalyticsUtils.Mean: returns 0 on an empty sequence where JavaScript gives NaN. No caller passes one, since every recorded key has at least one value.
- `localeCompare` is modelled as lexicographic order on characters (`Seqs.LexLe`). Locale collation is not modelled.
- `Array.prototype.sort` is modelled as a stable insertion sort. The contracts claim the order by key and the permutation, not the order among ties.
- JavaScript objects used as dictionaries keep key insertion order here. That is the engine's order only for keys that do not look like array indices; such axis ids and flavor names are assumed not to occur.
- Strings are sequences of UTF-16 code units: `length`, `substring` and `charCodeAt` count code units. `Shuffle` models this with an explicit `CodeUnit` type.
- FlavorDisplay.ChartName: a Dafny `char` is a Unicode scalar value, not a UTF-16 code unit. The model therefore assumes flavor names contain only characters of the Basic Multilingual Plane, where one character is one code unit. For a name with a character outside that plane (an emoji, say), `length` and `substring(0, 18)` count that character as two code units. The model counts it as one, and it does not capture a cut that splits a surrogate pair.
- Shuffle.SwapIndex: uses the exact real product `rng() * (i + 1)`. For arrays longer than 2^21 elements, the double product can round, and that rounding is not modelled.
- CollisionAnalyzer.PairKeyInjective: the pair key `primary|collision` is modelled as the source builds it. Two different pairs can share a key when a primary id contains `|`; the lemmas assume ids without it.
- Scorer.ScoreTableLookup: assumes distinct axis ids. `AXES` is an object literal, so its keys cannot repeat.
- The link-based scorer and other helpers in src/lib/questions.ts are not part of this model.
