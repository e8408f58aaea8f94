# Fighter coevolution bookkeeping and the test genome, in Dafny

This project models the core of a small evolutionary-robotics program. Two
populations of car "fighters" evolve against each other. Each match is
simulated by a 2-D physics engine and rated with TrueSkill. The model covers
two files of the program:

- **`FighterEvolver`** (`evolve_fighter.py`) keeps the bookkeeping on every
  genome: wins, losses and draws, a TrueSkill rating, a five-entry window of
  recent scores (`deque(maxlen=5)`), and the step at which the genome was
  created. It evolves one child at a time and lets it play its fairest
  opponents (highest `quality_1vs1`). It also runs the all-against-`n`
  tournament (`evaluate_all_vs_n`) over a shuffled, repeated opponent list.
- **`TestGenome`** (`genomes.py`) describes a body by two numpy arrays: vertex
  magnitudes and angle weights. `mutate` resamples entries in place under a
  random mask. `crossover` replaces both parents' arrays by per-index blends.
  `create_body` turns cumulative angle fractions into vertices and closes them
  into a fan of triangles around the origin.

Files:

- `wrappers.dfy`: `Option` and `Result`.
- `numbers.dfy`: `Min`, shared by the specifications.
- `match_spec.dfy` (module `MatchSpec`): the pure specification of the evolver
  bookkeeping. It covers match classification, the record after one match,
  the results window, outcome counts, Python's first-maximum `max`, and
  list slicing and repetition for the tournament.
- `fighter_evolver.dfy` (module `FighterEvolution`): the classes `Fighter` (a
  genome's record fields, updated in place) and `FighterEvolver` (the two
  populations and the step counter). Their methods are proved against
  `MatchSpec`.
- `genome_spec.dfy` (module `GenomeSpec`): value-level specifications of
  masked resampling, blending, running angle sums, vertices and the triangle
  ring.
- `test_genome.dfy` (module `Genomes`): the class `TestGenome` over two
  `array<real>` fields, with `Mutate`, `Crossover` and `CreateBody` proved
  against `GenomeSpec`.

Randomness, the physics simulation and the TrueSkill library are parameters:

- Every uniform draw and the shuffle are inputs.
- The cars' final x positions after a match are an input (`Finals`).
- `rate_1vs1`, `quality_1vs1` and the default `Rating()` are uninterpreted
  function constants of the evolver. No numeric property of TrueSkill is
  assumed.
- The crossover child and the slot that `replace_weak_genome` picks are
  inputs, because neither operation is part of this model.

## Model

| member | source | states |
|---|---|---|
| MatchSpec.Classify | evolve_fighter.py:225-227 | The left car wins iff it ends right of the centre and the right car does not end left of it; symmetrically for the right car; a draw iff both or neither pushed past the centre. |
| MatchSpec.BothPastCentreIsDraw | evolve_fighter.py:227-229 | A scene in which both cars end past the centre line is a draw, not a win for either. |
| MatchSpec.ClassifyMirror | evolve_fighter.py:225-227 | The classification favours neither side: mirroring the scene across the centre line swaps the winner and keeps a draw. |
| MatchSpec.VerdictFor | evolve_fighter.py:228-240 | A side is credited a win exactly when the outcome is its win, a loss exactly when it is the other side's win, and a draw exactly on a draw. |
| MatchSpec.VerdictsComplementary | evolve_fighter.py:231-240 | Every match gives complementary verdicts: a left win is a right loss, a right win a left loss, and a draw is a draw for both. |
| MatchSpec.ScoreFor | evolve_fighter.py:220-221 | Definition, no ensures: the value a side pushes into its window, the right car's x for the left genome and the negated left car's x for the right genome. `MatchBookkeeping` states it as each window's newest entry. |
| MatchSpec.RatingsAfter | evolve_fighter.py:228-240 | Definition, no ensures: the new (left, right) ratings from the single `rate_1vs1` call. A draw calls it with `drawn=True` on (left, right); a decided match calls it with the winner's rating first and gives the winner the first result. `WinnerIsRatedFirst` and `RatingsAfterMirror` state its properties. |
| MatchSpec.WinnerIsRatedFirst | evolve_fighter.py:233-240 | A decided match makes one non-drawn `rate_1vs1` call with the winner's old rating first; the winner receives its first result and the loser its second. |
| MatchSpec.RatingsAfterMirror | evolve_fighter.py:233-240 | Swapping the two genomes' seats in a decided match gives each genome the same new rating. |
| MatchSpec.FreshRecord | evolve_fighter.py:264-270 | Definition, no ensures: the record `_init_genome` leaves, with no wins, losses or draws, the prior rating, an empty window and the current step. `InitGenome` ensures the genome's record equals it, and `FreshChildEvaluation` starts from it. |
| MatchSpec.Recent | evolve_fighter.py:265 | A window of at most five entries holds `min(len(history), 5)` values. |
| MatchSpec.RecentIsNewestSuffix | evolve_fighter.py:222-223 | The window holds the newest entries of the history in order, ending with the value just pushed. |
| MatchSpec.RecentAppend | evolve_fighter.py:222-223 | Pushing onto the bounded window equals windowing the whole history plus the new value, so nothing the window should keep is lost. |
| MatchSpec.OutcomeOf | evolve_fighter.py:228-240 | The outcome it names gives the side exactly the verdict asked for: its own win, the other side's win, or a draw. |
| MatchSpec.AfterMatch | evolve_fighter.py:222-240 | A record after one match counts the match's verdict once more and keeps the other two counts, so it has exactly one more game. |
| MatchSpec.MatchRecords | evolve_fighter.py:220-240 | Definition, no ensures: both records after `evaluate_matchup`. The outcome is classified, each side gets the verdict `VerdictFor` gives it, the ratings come from `RatingsAfter`, and each side pushes its `ScoreFor`. `EvaluateMatchup` ensures the genomes' new records equal it; `MatchBookkeeping` states what it does. |
| MatchSpec.MatchBookkeeping | evolve_fighter.py:220-240 | One match adds exactly one game to each record with complementary verdicts. The left genome's newest score is the right car's x and the right genome's is the negated left car's x. Each window's length becomes its old length plus one, capped at five, and the step stamps are untouched. This holds for every pair of records. |
| MatchSpec.Seated | evolve_fighter.py:155-174 | Definition, no ensures: the (child, opponent) records after one evaluation match. That is `MatchRecords(child, opponent)` when the child is on the left (line 158) and `MatchRecords(opponent, child)` swapped back when it is on the right (line 174). `SeatedVerdicts` states its properties. |
| MatchSpec.SeatedVerdicts | evolve_fighter.py:155-173 | A child seated on the left plays `evaluate_matchup(child, opponent)` and on the right `evaluate_matchup(opponent, child)`. Either way the child counts its own side's verdict and pushes its own side's score, and the opponent those of the other side. |
| MatchSpec.CountOutcome | evolve_fighter.py:156-158 | The number of matches with a given outcome never exceeds the number of matches. |
| MatchSpec.OutcomeCountsPartition | evolve_fighter.py:228-240 | Every match has exactly one outcome, so left wins, right wins and draws add up to the number of matches. |
| MatchSpec.SideCountsPartition | evolve_fighter.py:228-240 | Seen from either side, its wins, its losses and the draws add up to the number of matches. |
| MatchSpec.ScoresExtend | evolve_fighter.py:222-223 | Starting from any short window, pushing the next match's score gives the window of the old window followed by all the scores so far. |
| MatchSpec.FirstArgMax | evolve_fighter.py:261 | Python's `max` with a key returns an index whose key is at least every other key, and it is the first such index. |
| MatchSpec.FairOpponent | evolve_fighter.py:260-262 | No opponent exactly when the population is empty (Python's `max` raises). Otherwise the first opponent whose match quality against the genome's rating is at least every other opponent's. |
| MatchSpec.FairStep | evolve_fighter.py:156-157 | One iteration of the evaluation loop on records: the child plays the member of the other population at index `FairOpponent` of its current rating, as `Seated` says. Its ensures keeps the population's size; `FairStepChild`, `FairStepOpponents` and `FairStepStamp` state the rest. |
| MatchSpec.FairSeries | evolve_fighter.py:155-157 | The first `i` iterations of the evaluation loop on records, each a `FairStep` with the next final positions. Its ensures keeps the population's size; `FairSeriesChild`, `FairSeriesWindow`, `FairSeriesOpponents`, `FairSeriesStamps` and `FreshChildEvaluation` state the rest. |
| MatchSpec.FairStepChild | evolve_fighter.py:156-157 | One evaluation match counts the child's verdict from its own side, keeps the child's stamp and pushes its score into its window. |
| MatchSpec.FairStepOpponents | evolve_fighter.py:156-157 | One evaluation match gives the opposing population, summed over its members, the opposing side's verdict exactly once. |
| MatchSpec.FairStepStamp | evolve_fighter.py:156-157 | One evaluation match changes no step stamp in the opposing population. |
| MatchSpec.FairSeriesChild | evolve_fighter.py:155-157 | After `i` evaluation matches, each of the child's counters has grown by the number of those matches whose outcome gives it that verdict from its side, and its stamp is kept. |
| MatchSpec.FairSeriesWindow | evolve_fighter.py:155-157 | After `i` evaluation matches, the child's window is the window of its old window followed by its scores from those matches. |
| MatchSpec.FairSeriesOpponents | evolve_fighter.py:155-157 | After `i` evaluation matches, the opposing population's total of each verdict has grown by the number of matches giving the opposing side that verdict. |
| MatchSpec.FairSeriesStamps | evolve_fighter.py:155-157 | No member of the opposing population changes its step stamp during the evaluation loop. |
| MatchSpec.FreshChildTally | evolve_fighter.py:151-157 | A child starting from `_init_genome`'s record ends with each counter equal to the number of its matches giving it that verdict, and with its stamp. |
| MatchSpec.FreshChildWindow | evolve_fighter.py:151-157 | A child starting from an empty window ends with the last five of its scores. |
| MatchSpec.FreshChildOpponents | evolve_fighter.py:151-157 | The opposing population gains in total the child's losses as wins, its wins as losses and its draws as draws, and keeps every stamp. |
| MatchSpec.FreshChildEvaluation | evolve_fighter.py:151-157 | A child starting from `_init_genome`'s record ends with wins, losses and draws equal to the outcome counts from its side and `num_evaluations` games. Its window holds the last five of its scores and its stamp stays. The opposing population gains in total the child's losses as wins, its wins as losses and its draws, and keeps every stamp. |
| MatchSpec.PySlice | evolve_fighter.py:207 | A Python slice with non-negative bounds clamps both bounds to the list; its length is the clamped difference. |
| MatchSpec.Repeat | evolve_fighter.py:204 | Definition, no ensures: Python's `s * n`, the list `s` repeated `n` times. `RepeatLength`, `RepeatCount` and `RepeatMembers` state its properties. |
| MatchSpec.RepeatLength | evolve_fighter.py:204 | `s * n` has `n * len(s)` entries. |
| MatchSpec.RepeatCount | evolve_fighter.py:204 | Every genome occurs `n` times as often in `s * n` as in `s`. |
| MatchSpec.RepeatMembers | evolve_fighter.py:204 | Only members of `s` occur in `s * n`. |
| MatchSpec.Matchups | evolve_fighter.py:207 | Definition, no ensures: left genome `i`'s opponents, the Python slice `[i*n : i*n+n]` of the shuffled list. `SliceLength` and `MatchupsFrom` state its properties. |
| MatchSpec.Schedule | evolve_fighter.py:206-207 | Definition, no ensures: the opponents handed to the first `m` left genomes, the first `min(len, n*m)` shuffled entries. `ScheduleStep`, `ScheduleCount` and `ScheduleLength` state its properties. |
| MatchSpec.ShuffledFrom | evolve_fighter.py:204-205 | Every entry of the shuffled, repeated list is a right genome. |
| MatchSpec.MatchupsFrom | evolve_fighter.py:204-207 | Every opponent handed out by a slice of the shuffled list is a member of the right population. |
| MatchSpec.ScheduleStep | evolve_fighter.py:206-207 | The slices `[i*n, i*n+n)` are contiguous: the opponents of the first `i+1` left genomes are those of the first `i` followed by genome `i`'s slice, so no entry is skipped or used twice. |
| MatchSpec.ScheduleCount | evolve_fighter.py:206-207 | A genome occurs in the opponents of the first `m` left genomes as often as in those of the first `m-1` plus in the slice of genome `m-1`. |
| MatchSpec.SliceLength | evolve_fighter.py:207 | With `m * n` shuffled opponents, left genome `i` gets exactly `n` opponents when `i < m` and none otherwise. |
| MatchSpec.ScheduleLength | evolve_fighter.py:199-209 | With `m` left genomes and `m'` right genomes, the tournament plays `n * min(m, m')` matches. |
| MatchSpec.AllVsNBalanced | evolve_fighter.py:199-209 | With equal population sizes, every left genome gets `n` opponents and every right genome is used exactly `n` times, as the docstring promises. |
| MatchSpec.SeriesMatch | evolve_fighter.py:209 | One match of the inner loop of `evaluate_all_vs_n` on records: the playing genome, as the left car, and the opponent's entry of the right genomes' record map become their `MatchRecords`. Its ensures keeps the map's keys; `SeriesMatchGenome` and `SeriesMatchOpponent` state the rest. |
| MatchSpec.Series | evolve_fighter.py:208-209 | The first `j` matches of the inner loop on records, one `SeriesMatch` per opponent of the slice in order. Its ensures keeps the map's keys; `SeriesGenome`, `SeriesWindow`, `SeriesPlayed` and `SeriesKept` state the rest. |
| MatchSpec.SeriesMatchGenome | evolve_fighter.py:209 | One match of the inner loop counts the playing genome's verdict as the left car, keeps its stamp and pushes its score. |
| MatchSpec.SeriesMatchOpponent | evolve_fighter.py:209 | One match of the inner loop gives the opponent one more game and keeps its stamp. Every other right genome keeps its whole record. |
| MatchSpec.SeriesGenome | evolve_fighter.py:208-209 | After the first `j` matches of its slice, each counter of the playing genome has grown by the number of those matches giving the left car that verdict, and its stamp is kept. |
| MatchSpec.SeriesWindow | evolve_fighter.py:208-209 | After the first `j` matches of its slice, the playing genome's window is the window of its old window followed by its scores. |
| MatchSpec.SeriesPlayed | evolve_fighter.py:208-209 | After the first `j` matches of a slice, each right genome has played once more per occurrence in the first `j` opponents. |
| MatchSpec.SeriesKept | evolve_fighter.py:208-209 | A right genome keeps its stamp through a slice, and one that is not among the opponents played so far keeps its whole record. |
| MatchSpec.AllVsNStep | evolve_fighter.py:206-209 | One pass of the outer loop on records: left genome `i` and the right records become the `Series` of its slice. Its ensures keeps the number of left records and the right map's keys; `AllVsNStepOthers` and `AllVsNStepRight` state the rest. |
| MatchSpec.AllVsN | evolve_fighter.py:206-209 | The first `m` passes of the outer loop on records, one `AllVsNStep` per left genome in order. Its ensures keeps the sizes; `AllVsNBetween`, `AllVsNSettled`, `AllVsNLeft`, `AllVsNWindow`, `AllVsNRight`, `AllVsNOutcome` and `AllVsNEveryonePlaysN` state the rest. |
| MatchSpec.AllVsNStepOthers | evolve_fighter.py:206-209 | One pass of the outer loop changes the record of no left genome but the one playing. |
| MatchSpec.AllVsNStepRight | evolve_fighter.py:206-209 | One pass of the outer loop gives each right genome one game per occurrence in the playing genome's slice and keeps its stamp. |
| MatchSpec.AllVsNLastOnly | evolve_fighter.py:206-209 | The pass for left genome `m-1` leaves every other left genome's record as the earlier passes left it. |
| MatchSpec.AllVsNBetween | evolve_fighter.py:206-209 | The passes for genomes `k` to `m-1` leave the record of every left genome outside that range as it was. A genome is untouched before its own pass and never touched again after it. |
| MatchSpec.AllVsNSettled | evolve_fighter.py:206-209 | Once genome `i` has played, its record is what playing exactly its own slice from its original record gives. The opponents' records are as the earlier passes left them. |
| MatchSpec.AllVsNLeft | evolve_fighter.py:206-209 | After the first `m` passes, left genome `i` is unchanged if `i >= m`. Otherwise each of its counters has grown by the matches of its own slice giving the left car that verdict. Its stamp is kept either way. |
| MatchSpec.AllVsNWindow | evolve_fighter.py:206-209 | After its pass, a left genome's window is the window of its old window followed by the scores of its slice. |
| MatchSpec.AllVsNRightLast | evolve_fighter.py:206-209 | The pass for left genome `m-1` adds a game to each right genome per occurrence in that genome's slice and keeps its stamp. |
| MatchSpec.AllVsNRight | evolve_fighter.py:206-209 | After the first `m` passes, each right genome has played once more per occurrence in the opponents handed out so far, and keeps its stamp. |
| MatchSpec.AllVsNOutcome | evolve_fighter.py:198-209 | After the tournament, every left genome's wins, losses and draws have grown by the left wins, right wins and draws of its own slice. Its game count has grown by its slice's length, and its window took that slice's scores. Every right genome has played once more per occurrence in the opponents handed out. No stamp changes. |
| MatchSpec.AllVsNEveryonePlaysN | evolve_fighter.py:199-209 | With as many left genomes as right genomes, every genome on both sides plays exactly `n` more matches, as the docstring promises. |
| FighterEvolution.FighterEvolver.constructor | evolve_fighter.py:127-144 | Both populations are stored, the step counter is 0, and every genome of both populations gets a fresh record: no games, an empty window, the prior rating and step 0. |
| FighterEvolution.FighterEvolver.InitGenome | evolve_fighter.py:264-270 | The genome's record becomes the fresh record: an empty window, the prior rating, the evolver's current step and no wins, losses or draws. |
| FighterEvolution.FighterEvolver.EvaluateMatchup | evolve_fighter.py:220-240 | Each genome's new record is its old record after the match, with the verdict from the classification, the ratings from the single `rate_1vs1` call, and its score pushed into its window. |
| FighterEvolution.FighterEvolver.PlayFairMatch | evolve_fighter.py:156-157 | The child plays the fair opponent of the moment: the first member of the other population with the highest match quality against the child's current rating. The child and that opponent get their records after the match, seated as the child's side demands. Every other member of the population keeps its record. |
| FighterEvolution.FighterEvolver.PlayFairMatches | evolve_fighter.py:155-157 | The child's record and the other population's records become those of `num_evaluations` successive fair matches, each against the fair opponent of the moment. |
| FighterEvolution.FighterEvolver.EvaluateChild | evolve_fighter.py:151-157 | For a child freshly initialised, the records become those of its fair matches. Its wins, losses and draws are the outcome counts from its side, it has played `num_evaluations` games and its window holds the last five of its scores. The other population gains in total the child's losses as wins, its wins as losses and its draws, and keeps every stamp. |
| FighterEvolution.FighterEvolver.EvolveNewGenomeLeft | evolve_fighter.py:146-160 | The child replaces the chosen left slot and the step counter rises by one. Starting from a fresh record stamped with the step before the increment, the child plays `num_evaluations` fair matches as the left car. The right population's records become exactly those that series leaves. The child's counters count its left wins, right wins and draws. The right genomes gain in total its losses as wins, its wins as losses and its draws, and keep their stamps. The remaining left genomes are untouched, and the populations stay duplicate-free and disjoint. |
| FighterEvolution.FighterEvolver.EvolveNewGenomeRight | evolve_fighter.py:162-176 | The same on the right: the child is seated as the right car, so its wins count right wins and its losses count left wins. The left population's records become exactly those its series leaves. |
| FighterEvolution.FighterEvolver.PlayMatchup | evolve_fighter.py:209 | The playing genome and its opponent get their records after the match. In the right population's map of records only the opponent's entry changes. |
| FighterEvolution.FighterEvolver.PlayMatchups | evolve_fighter.py:208-209 | After the inner loop, the playing genome's record and the right genomes' records are exactly those of playing the slice's opponents in order, each against its record as the earlier matches left it. |
| FighterEvolution.FighterEvolver.PlayLeftGenome | evolve_fighter.py:206-209 | Left genome `i`'s record becomes that of playing exactly its slice of the shuffled list. Every other left genome keeps its whole record, and the right genomes' records are those the slice leaves. |
| FighterEvolution.FighterEvolver.PlayAllLeftGenomes | evolve_fighter.py:206-209 | After the outer loop, the records of both populations are exactly those of every left genome, in order, playing its own slice. |
| FighterEvolution.FighterEvolver.EvaluateAllVsN | evolve_fighter.py:198-209 | The records after the tournament are exactly those of every left genome playing its slice `[i*n, i*n+n)` of the shuffled list. Each left genome's counters grow by its own slice's outcome counts and its window takes that slice's scores. Each right genome plays once more per occurrence in the opponents handed out. No stamp changes. |
| GenomeSpec.Mask | genomes.py:18-20 | An entry is selected for resampling iff its draw is below the mutation rate 0.1. |
| GenomeSpec.CountSelected | genomes.py:19-23 | The number of entries the mask selects, i.e. the `size=len(a[indices])` of the replacement draw. It is at most the mask's length; `RankBelowCount` relates it to each selected entry's rank. |
| GenomeSpec.RankBelowCount | genomes.py:22-23 | Every selected entry is numbered below the number of selected entries, so the replacement draw has a value for it. |
| GenomeSpec.Resampled | genomes.py:22-23 | numpy's masked assignment `a[indices] = values`: the array keeps its length, unselected entries stay, and the selected entries take the new values in index order. Its ensures keeps the length; `ResampledAt`, `ResampledSelectsValues`, `NothingSelectedKeeps` and `ResampledInRange` state the rest. |
| GenomeSpec.ResampledAt | genomes.py:22-23 | Masked assignment keeps every unselected entry and gives the selected entry `i` the replacement value numbered by how many selected entries precede it. |
| GenomeSpec.Selected | genomes.py:22 | The read-back `a[indices]`: the selected entries in index order, as many as `CountSelected`. `ResampledSelectsValues` shows that reading back after the assignment yields the new draw. |
| GenomeSpec.ResampledSelectsValues | genomes.py:22-23 | Reading back the selected entries after the masked assignment yields exactly the new draw (the assignment's inverse). |
| GenomeSpec.NothingSelectedKeeps | genomes.py:19-23 | When no draw is below the rate, `mutate` leaves the array unchanged. |
| GenomeSpec.ResampledInRange | genomes.py:13-14 | Resampling from the initialisation range keeps an array inside that range. |
| GenomeSpec.Mix | genomes.py:28-32 | Definition, no ensures: one blended entry, `(1 - t) * x + t * y`. The lemmas `BlendConserves`, `BlendEndpoints` and `BlendInRange` carry its properties over to whole arrays. |
| GenomeSpec.Blend | genomes.py:28-32 | The per-index blend of two arrays by the weights `t`, as numpy's element-wise expression computes it. Its ensures keeps the length; `BlendAt`, `BlendConserves`, `BlendEndpoints`, `BlendSelf` and `BlendInRange` state the rest. |
| GenomeSpec.BlendAt | genomes.py:28-32 | Entry `i` of a blend is `(1 - t[i]) * a[i] + t[i] * b[i]`. |
| GenomeSpec.BlendConserves | genomes.py:28-34 | The two children together hold what the two parents held, index by index. |
| GenomeSpec.BlendEndpoints | genomes.py:27-34 | A weight of 0 keeps each parent's value and a weight of 1 swaps the parents' values. |
| GenomeSpec.BlendSelf | genomes.py:31-32 | Blending an array with itself changes nothing. |
| GenomeSpec.BlendInRange | genomes.py:27-34 | With weights in [0, 1), blending two arrays drawn from [lo, hi) stays in [lo, hi). |
| GenomeSpec.Sum | genomes.py:39-42 | Definition, no ensures: Python's `sum` of the angles, added left to right. Applied to a prefix, it is the running sum. `RunningSumMonotone` and `ZeroTotalAllZero` state its properties. |
| GenomeSpec.RunningSumMonotone | genomes.py:39-42 | With non-negative angles, the running sums never decrease and never exceed the total. |
| GenomeSpec.ZeroTotalAllZero | genomes.py:39 | A zero total of non-negative angles means every angle is zero. |
| GenomeSpec.Fraction | genomes.py:45 | Definition, no ensures: `running_angle_sum / total_angle_sum`, defined only for a non-zero total. `FractionsOrdered` and `TurnsSweepOnce` state its ordering and range. |
| GenomeSpec.Vertices | genomes.py:41-47 | The vertices of the `zip` loop, one per common index, at magnitude `m` and turned by the fraction of the running sum. It has `min(len(magnitudes), len(angles))` entries; `VertexAt` and `VerticesPrefix` state the rest. |
| GenomeSpec.VertexAt | genomes.py:41-47 | Vertex `i` lies at radius `magnitudes[i]`, turned by the running sum through angle `i` over the total. |
| GenomeSpec.VerticesPrefix | genomes.py:41 | `zip` stops at the shorter array: only the common-length prefixes matter. |
| GenomeSpec.Ring | genomes.py:51-59 | The triangles of the `create_body` loop, one per vertex, as many as there are vertices. `RingClosed` gives each part's three corners and its density. |
| GenomeSpec.RingClosed | genomes.py:51-59 | Part `i` is a triangle from vertex `i` to the start of part `(i+1) mod n` and then the origin, with density 1, so the triangles close into a fan. |
| GenomeSpec.BodyFrom | genomes.py:37-55 | No body can be described exactly when there is at least one vertex and the angles sum to zero (every fraction divides by zero and is NaN or infinite). Otherwise there are `min(len(magnitudes), len(angles))` vertices and as many triangles. |
| GenomeSpec.FractionsOrdered | genomes.py:42-45 | With non-negative angles and a positive total, the vertex fractions never decrease and stay within [0, 1]. |
| GenomeSpec.TurnsSweepOnce | genomes.py:41-47 | With non-negative angles and a positive total, the body's vertices sweep round once: their turns never decrease and stay within 0 to 360 degrees. |
| GenomeSpec.LastTurnIsFull | genomes.py:41-47 | With arrays of equal length and a non-zero total, the last vertex lies at the full turn, at its own magnitude. |
| Genomes.TestGenome.constructor | genomes.py:12-15 | Both arrays have `body_vertices` entries, are separate fresh arrays, and hold the uniform draws. Fitness is 0 and no wheel flags are set. |
| Genomes.TestGenome.Mutate | genomes.py:17-23 | Each array becomes its masked resampling under its own draws. The genome stays valid: the arrays have equal length and stay within their ranges. |
| Genomes.TestGenome.ResampleWhere | genomes.py:22-23 | Masked assignment in place: the array becomes its resampling under the mask. |
| Genomes.TestGenome.BlendArray | genomes.py:28-32 | A fresh array holding the per-index blend. |
| Genomes.TestGenome.BlendWith | genomes.py:27-34 | `self` receives `(1 - t) * self + t * other` and `other` receives `t * self + (1 - t) * other`, all computed from the old arrays and stored in four new arrays. When `other` is `self`, the second assignment wins. Both genomes stay valid. |
| Genomes.TestGenome.Crossover | genomes.py:25-35 | As written: both genomes are blended, then the call raises `NameError('body_vertices')` with `wheels_flags` still unset. |
| Genomes.TestGenome.CrossoverCorrected | genomes.py:25-35 | As evidently intended: the same blends, then `wheels_flags` holds one 0/1 flag per vertex of the genome. |
| Genomes.TestGenome.CreateBody | genomes.py:37-59 | The method computes exactly `BodyFrom` of the two arrays: the vertices at their cumulative fractions and the triangle ring, or the zero-total error when the angles sum to zero. |

## Left out

- The physics simulation (`create_arena`, the `Box2D` world, `evaluate_matchup`'s stepping loop, car positions and `update`) is not modelled. The final x positions are an input.
- TrueSkill is not modelled: `rate_1vs1`, `quality_1vs1` and `Rating()` are uninterpreted function constants, and no numeric property of ratings is claimed.
- Floating point is modelled as exact real arithmetic. Rounding, infinities and NaN propagation are not modelled.
- Randomness is not modelled: numpy's uniform draws, `np.random.shuffle` and `np.random.randint` are inputs. The shuffle is only required to be a permutation of the repeated list.
- `roulette_wheel_crossover`, `replace_weak_genome`, `elite_select` and `FighterGenome` (including its `mutate(rate)`) are not part of this model: `population.py` as it stands defines only `Population.__init__`, and `FighterGenome` is defined in none of the modelled files. The child genome and the replaced slot are inputs.
- FighterEvolution.FighterEvolver.constructor: assumes a working `Population` that exposes its genomes as `.genomes`. The `Population` at population.py:5-24 cannot serve here. evolve_fighter.py:130-137 calls it without the required `fitness_fn` argument (population.py:5-9), so `__init__` raises `TypeError` before any record is set up. Even with that argument, population.py:23 iterates over the integer `population_size` and raises `TypeError`. That class also stores its genomes as `population`, not `genomes`. The model takes the two populations as given and initialises their records.
- `_set_fitness` (the `np.mean` of each window, evolve_fighter.py:147 and 163) is left out. It only feeds the `Population` operators that rank genomes by fitness (`roulette_wheel_crossover`, `replace_weak_genome` and `elite_select`), none of which is part of this model. `np.mean` of an empty window is NaN.
- `get_random_matchup`, `get_elite_matchup`, `get_fair_matchup` and `evaluate_random_matches` are left out. `get_random_matchup` only draws one genome at random from each population. `get_elite_matchup` draws at random from the result of `elite_select`, which is not part of this model. `get_fair_matchup` pairs a random left genome with its `FairOpponent`, and `evaluate_random_matches` plays `n` such pairs with `EvaluateMatchup`.
- `TestGenome.update` is left out: it iterates over `self.wheels`, an attribute `TestGenome` never sets.
- The renderer classes and the `__main__` driver are left out. The globals `POPULATION_SIZE` and `NUM_VERTICES` that `__init__` reads instead of its own parameters are left out too: the constructor takes the two populations as given.
- `evaluation_steps` (the number of physics steps per match) is stored by the constructor but not used, because the simulation is not modelled.
- FighterEvolution.FighterEvolver.EvolveNewGenomeLeft: requires a non-empty right population. In the code, `max` over an empty population raises `ValueError` on the first evaluation; the exception path is not modelled.
- FighterEvolution.FighterEvolver.EvolveNewGenomeRight: requires a non-empty left population, for the same reason.
- FighterEvolution.FighterEvolver.EvolveNewGenomeLeft: requires the child to be a new object in neither population. The source's `roulette_wheel_crossover` is not part of this model.
- FighterEvolution.FighterEvolver.EvaluateChild: requires the child's record to be the one `_init_genome` just gave it. This is the only state in which the source reaches the evaluation loop.
- FighterEvolution.FighterEvolver.EvaluateAllVsN: requires the two populations to be duplicate-free and disjoint, as everywhere in the model. `Population` builds each genome with a fresh `genome_fn()` call, and the evolver only ever puts a new child into a slot.
- MatchSpec.AllVsNOutcome: states a left genome's new window only when its old window holds at most five entries. Every record the evolver keeps satisfies this (`deque(maxlen=5)`).
- FighterEvolution.FighterEvolver.EvolveNewGenomeLeft: the ratings after the evaluation loop are stated only through the uninterpreted `rate_1vs1`, match by match. TrueSkill itself is not modelled.
- Genomes.TestGenome.BlendWith: requires both genomes to have arrays of the same length. numpy broadcasting between different lengths, and the errors it raises, are not modelled.
- Genomes.TestGenome.constructor: `body_vertices` is a `nat`. A negative size, which numpy rejects with `ValueError`, is not modelled.
- GenomeSpec.BodyFrom: with a zero angle total the source divides by zero. numpy yields NaN (or an infinity when negative angles leave a non-zero running sum) with a warning, and those non-finite vertices reach the physics engine; the model stops with `ZeroAngleTotal` instead.

## Findings

| source | as written | input that shows it | evidently intended | confidence | as-written member | corrected member |
|---|---|---|---|---|---|---|
| genomes.py:35 | `crossover` sizes `wheels_flags` with `body_vertices`, a name not defined in the method, its class or the module | any call, for example two genomes of 10 vertices | one 0/1 flag per vertex, `size=len(self.magnitudes)`, set after the blends | high, not executed | Genomes.TestGenome.Crossover | Genomes.TestGenome.CrossoverCorrected |
