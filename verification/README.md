# Proofs about the search engine's scheduling, memory and persistence layer

This project models the deterministic core around an automated search for machine-learning
pipelines, and proves what that core is relied on for: how arms are scheduled and pruned, how
the bandit learns, how runs survive crashes, how rows are split, how a time budget is spent, and
how recipes are normalised, labelled and mutated. The main results are statements about every
input, every schedule and every finite run; where one needs a hypothesis, its row or the section
"Left out" names it. Floats are exact reals; scores, timings, random numbers and round bodies are
parameters, so a theorem holds for whatever they are.

`dafny verify dfyconfig.toml` checks the whole project.

## How it is organised

| files | what they model |
|---|---|
| `Ladder`, `Halving`, `Pruning`, `Portfolio`, `Fallback`, `DeepLadder` | The concurrent early-kill portfolio. `Halving` defines a round as a function of the arms that were pruned; "nothing pruned" is the sequential reference. `Pruning` states the decision to kill an arm on raw scores, proves the coded rule to make it, and defines a log of every judgement, launch and kill; from honest kills in that log it derives that the pruned run is the sequential one. `Portfolio` is the concurrent loop with launch order, worker count, completion order and batching left open; it is proved to produce such a log and to compute what `Halving` says for it. `Fallback` and `DeepLadder` settle exactly when pruning can change the winner. |
| `LinAlg`, `Context`, `Bandit`, `Ranker`, `ColdRank`, `Knowledge` | The LinUCB bandit and the knowledge base: rank-one updates, the inverse carried along by Sherman-Morrison, ranking, retrieval, and the agreement of the bandit with its log. |
| `Store`, `Checkpoint`, `LongRun` | Crash-safe resume. A save is five steps on a disk that distinguishes what is visible from what survives a power loss; a countdown stops an attempt in front of any step. |
| `Carving`, `Grouping`, `Splits` | Random, time and grouped carving of a row pool. |
| `Budget`, `Costs`, `Plans` | Admission and culling, the online cost model, and the phase planner with its validator. |
| `Genome`, `GenomeLabels`, `Beam`, `Labels` | Recipe genomes over dynamically typed gene values, what their labels tell apart, the bounded beam, and the label printer with its parser. |
| `Ranking`, `Reals`, `Wrappers` | Stable ranking, single steps of real arithmetic, small helpers. |

## Where the code and its documentation disagree

The model follows the code; each disagreement is a theorem.

- The header of `frontier/portfolio.py` (lines 42-52) gives survivors in closed form. The iterated
  rounding agrees with it for all arm counts and rungs exactly when `eta` is a whole number
  (`Ladder.ClosedFormExactlyForWholeEta`).
- Pruning is described as never changing the decision (`frontier/portfolio.py:541-549`). That holds
  whenever some arm has a full-budget score. When every full-budget fit failed, the winner is picked by
  last scores; then it holds for every round of a configuration exactly when its schedule has at most
  three rungs (`DeepLadder.PruningSafeExactlyUpToThreeRungs`).
- An untrained bandit is said to keep the input order (`frontier/knowledge.py:443-444`, `491-493`). It
  does exactly when context lengths never increase along the input; the seed catalogue for
  classification is always reordered (`ColdRank.SeedsAreReordered`).
- Spending is said never to exceed the usable total, one run's overrun at most
  (`frontier/budget.py:352-358`, `397-403`). That needs every run to be charged before the next is
  admitted, as the module's own example does (`frontier/budget.py:48-54`). The orchestrator admits a
  whole batch and charges it after the portfolio round, and charges floor arms that were never
  admitted (`frontier/core/orchestrator.py:601`, `849-869`). With at most `p` candidates outstanding
  the exact limit is `p` times the total, the tolerance and the largest overrun, plus what is charged
  unadmitted (`Budget.SpendingLimitIsExact`); the round caps slip by the same allowance
  (`Budget.CapsNeverShrink`, and `Budget.EqualShares` for the documented order).
- Genome labels are said to be unique (`frontier/features.py:192`). They print a winsor amount with six significant
  digits, so they are exactly as far as that printing tells amounts apart
  (`GenomeLabels.UniqueExactlyWhenToldApart`); all other genes they tell apart up to equality.
- Orphan temporary files are said to be cleaned on the next save (`frontier/checkpoint.py:202-203`). A save
  removes only its own: `Store.CheckpointStore.Save` states the number left behind.

## Model

| member | source | states |
|---|---|---|
| Ladder.BuildLadder | frontier/portfolio.py:183-225 | For any arm count and configuration the loop, the forced top rung and the merging of close rungs yield exactly the schedule `LadderFor`, given row by row. |
| Ladder.RowsAre | frontier/portfolio.py:183-225 | With the parameters spelled out: fractions start at `min_frac` clamped to [0.001, 1] and multiply by `eta` as long as one more factor stays within the full data, the last rung is the full data, and every rung but the last lets the least number of its arms through that is `1 / eta` of them, at least one. |
| Ladder.LadderClimbs | frontier/portfolio.py:183-225 | Budgets increase strictly and end at exactly the full training set. |
| Ladder.LadderNarrows | frontier/portfolio.py:206-213 | Survivor counts never grow and stay between one and the number of arms. |
| Ladder.ClosedForm | frontier/portfolio.py:42-44 | For whole `eta`, iterating the rounded-up halving gives `ceil(n / eta^k)` at every rung. |
| Ladder.ClosedFormExactlyForWholeEta | frontier/portfolio.py:42-44 | The header's closed form holds for all arm counts and rungs if and only if `eta` is whole. |
| Ladder.WorkBound | frontier/portfolio.py:46-52 | A ladder of R rungs costs at most `n * min_frac * (R - 1 + eta) + 4` full-data fits. |
| Ranking.SortPermutes | frontier/portfolio.py:491-494 | Stable descending ranking loses and invents nothing. |
| Ranking.RestrictSort | frontier/portfolio.py:491-495 | Leaving entries out commutes with stable ranking. |
| Ranking.TopUnchanged | frontier/portfolio.py:491-495 | The top k, in order, do not change when entries with at least k remaining entries strictly above them are left out. |
| Halving.KillsInvisible | frontier/portfolio.py:491-495 | Killing outscored arms on a rung leaves the arms that advance, and their order, unchanged. |
| Halving.SameArmsAdvance | frontier/portfolio.py:411-508 | With justified kills the arms entering every rung are those of the sequential run without pruning. |
| Halving.SameFullScores | frontier/portfolio.py:469-471 | With justified kills the full-budget scores are those of the sequential run. |
| Halving.ConcurrentRefinesSequential | frontier/portfolio.py:405-521 | Any winner of a justified concurrent run is a winner of the sequential run, with the same score, when some arm has a full-budget score. |
| Halving.InOrOut | frontier/portfolio.py:433-508 | Below the top rung every arm is still racing with a clean record or out for exactly one reason. |
| Halving.EveryArmAccounted | frontier/portfolio.py:433-508 | At the end every arm is in exactly one of failed, killed early, or holding a full-budget score, and the scores held are exactly the full-budget ones. |
| Halving.BestRungScoreIs | frontier/portfolio.py:464-465 | A record's best rung score is the largest score the arm has shown, and missing exactly when it has shown none. |
| Halving.ReachedRungIs | frontier/portfolio.py:433-508 | A record's reached rung is the last rung the arm entered. |
| Halving.FlagsAre | frontier/portfolio.py:433-508 | A record is not ok exactly when a run failed, and says killed early exactly when the arm was killed unrun or scored below full budget without advancing. |
| Halving.ValScoreIs | frontier/portfolio.py:466-468 | A record's validation score is set exactly when the arm ran on the top rung and scored, and is that score. |
| Halving.ErrorKindIs | frontier/portfolio.py:441-481 | A record's error is that of the last failed run, and empty when none failed. |
| Portfolio.PrunePending | frontier/portfolio.py:536-561 | For the band it is given, an arm is killed if and only if its upper bound is below the k-th best lower bound of the settled arms; all others stay pending. |
| Pruning.RuleIsExact | frontier/portfolio.py:536-561 | The coded comparison of bounds decides, on raw scores: an arm with last score s at budget b is out of reach on a rung of budget c exactly when at least `survivors` settled scores exceed s by more than half the spread of all scores seen times (1 - b) + (1 - c); the spread is that of the least and greatest score, at least a billionth, and 1 when fewer than two different scores were seen. |
| Pruning.PruneIsSound | frontier/portfolio.py:536-561 | An arm out of reach whose true score is at most its last score plus half the spread times the data it lacked has at least k arms of its rung strictly above its true score. |
| Pruning.PrunedIsBehind | frontier/portfolio.py:536-561 | Without any assumption, the last score of an arm out of reach is strictly below the scores of at least k arms of its rung. |
| Pruning.HonestKillsAreJustified | frontier/portfolio.py:541-549 | If every kill in a round's log is honest, that is, the arm's true score is at most the bound it was killed on, then on every rung enough arms outscore each arm killed. |
| Pruning.HonestPruningRefines | frontier/portfolio.py:405-521 | If every kill in a round's log is honest, the arms entering every rung and the full-budget scores are those of the sequential run without pruning, and so is the winner's score when there is a full-budget score. |
| Portfolio.TrackSettle | frontier/portfolio.py:438-481 | Settling one finished run keeps records, histories and full-budget scores those of the arms run so far. |
| Portfolio.LaunchAndPrune | frontier/portfolio.py:417-490 | For every launch order, worker bound and completion order a rung runs exactly the arms it did not kill; every arm killed was out of reach, on raw scores, at the first judgement that found it so, and every arm launched had been out of reach at none, where while the rung prunes each launch follows a judgement by everything settled. |
| Portfolio.RunRung | frontier/portfolio.py:411-508 | One rung advances the top survivors of the arms run and leaves records, histories, scores, score range and log as the specification says. |
| Portfolio.RunRungs | frontier/portfolio.py:405-508 | All rungs together compute the specification's board for the kills logged; every kill and every launch is the one the decision on raw scores makes, below full budget; nothing is killed with pruning off. |
| Portfolio.PickWinner | frontier/portfolio.py:510-521 | The winner is the best full-budget score, or failing that the best last score, or nothing. |
| Portfolio.RunPortfolioRound | frontier/portfolio.py:325-521 | A whole round returns one settled record per arm, a winner and a log in which exactly the arms out of reach are killed, on raw scores. If every logged kill is honest, the arms entering every rung and the full-budget scores are those of the sequential run, and the winner is one of that run's when some arm has a full-budget score or the ladder has at most three rungs. |
| Fallback.FirstRungUntouched | frontier/portfolio.py:256-265 | Arms without a score cannot be pruned, so nothing is pruned on the first rung. |
| Fallback.WinnerUnchanged | frontier/portfolio.py:510-521 | Honest pruning does not change the winner when some arm has a full-budget score, nor on ladders of at most three rungs even when none has. |
| DeepLadder.KillIsMade | frontier/portfolio.py:536-561 | In the round used as a counterexample the arm is out of reach at the judgement logged, judged by arms that ran and scores that were seen, and the kill is honest. |
| DeepLadder.PruningSafeExactlyUpToThreeRungs | frontier/portfolio.py:510-521 | For every configuration: honest pruning never changes the winner of any round, whatever and however many its arms, if and only if its schedule has at most three rungs. |
| LinAlg.AddOuterVec | frontier/knowledge.py:512 | How a rank-one update acts on a vector. |
| LinAlg.ShermanMorrison | frontier/knowledge.py:499-512 | The downdated inverse is a two-sided inverse of the updated matrix. |
| LinAlg.InversePositive | frontier/knowledge.py:470-471 | The inverse of a positive definite matrix is positive definite, so clamping the variance at zero changes nothing. |
| LinAlg.InverseUnique | frontier/knowledge.py:499 | Any two inverses of a matrix act the same. |
| Context.PhiIsNotZero | frontier/knowledge.py:177-221 | No context vector is zero. |
| Context.PhiLength | frontier/knowledge.py:208-221 | The squared length of a context, block by block. |
| Context.BaseCoordinates | frontier/knowledge.py:177-221 | A recipe's base shows as 1 in the coordinate of its name in the vocabulary and as 0 in the others. |
| Context.EnhancerCoordinates | frontier/knowledge.py:177-221 | The coordinates after the base are scale, a third of the degree up to 3, target log, the constant 1, and the sum of the three weighted by the difficulty's tanh. |
| Bandit.Clip | frontier/knowledge.py:475-478 | What is learnt is the number in [0, 1] nearest to the reward, and zero when the reward is not finite. |
| Bandit.AlwaysHealthy | frontier/knowledge.py:457-462 | After any run of updates `A` is symmetric positive definite and the matrix built by Sherman-Morrison is its symmetric positive definite inverse. |
| Bandit.VarianceIs | frontier/knowledge.py:468-472 | Whatever correct inverse is computed, the variance of a context is the same. |
| Bandit.VarianceShrinksOverRuns | frontier/knowledge.py:507-514 | No run of updates increases the variance of any context. |
| Bandit.OwnVariance | frontier/knowledge.py:507-514 | Updating with a context takes its own variance v to exactly v / (1 + v). |
| Bandit.RepeatedVariance | frontier/knowledge.py:507-514 | k updates with one context take its variance to v / (1 + k v). |
| Bandit.OwnMean | frontier/knowledge.py:464-478 | Updating with a context of predicted reward m and variance v and a reward r takes its predicted reward to exactly (m + r v) / (1 + v), whatever solutions the predictions are read off. |
| Bandit.Entries | frontier/knowledge.py:507-514 | Entry by entry, `A` is the ridge plus the sum of products and `b` the reward-weighted sum. |
| Bandit.OrderOfSamples | frontier/knowledge.py:516-532 | The statistics do not depend on the order of the samples. |
| Ranker.LinUCBRanker.Update | frontier/knowledge.py:507-514 | One outcome is added to the log and the statistics remain those of the log. |
| Ranker.LinUCBRanker.Rank | frontier/knowledge.py:488-505 | Proposals come out in stable descending order of keys that are, for every correct solution and inverse, the predicted reward plus `alpha` times a non-negative root of the variance. |
| Ranker.BoundIs | frontier/knowledge.py:464-472 | The key computed from any solution and any inverse is that of the log, and is the predicted reward plus `alpha` times a non-negative number whose square is the variance. |
| Ranker.HigherBoundFirst | frontier/knowledge.py:488-505 | Of two proposals with equal variance the one ranked first has no smaller predicted reward, and with equal predictions and positive `alpha` no smaller variance. |
| ColdRank.ColdRankKeepsOrder | frontier/knowledge.py:488-505 | An untrained, exploring bandit keeps the input order if and only if context lengths never increase along it. |
| ColdRank.NoExplorationKeepsOrder | frontier/knowledge.py:488-505 | Without exploration an untrained bandit keeps the input order. |
| ColdRank.SeedsAreReordered | frontier/proposers.py:115-129 | Whatever the task descriptor, an untrained bandit puts the scaled classification seeds in front. |
| Knowledge.FirstPerLabel | frontier/knowledge.py:372-382 | Of candidates in any order it keeps at most `max(k, 1)` with distinct labels and leaves a label out only when that many were kept; of ranked ones it keeps the best, each through its best instance. |
| Knowledge.CandidatesAre | frontier/knowledge.py:357-371 | Candidates are exactly the qualifying records with similarity-weighted gains. |
| Knowledge.QualifiesIs | frontier/knowledge.py:357-371 | With a correct square root the filter selects exactly the records of the problem type whose gain is not below the bar and whose cosine with the query is defined and large enough, and the score is cosine times gain. |
| Knowledge.KnowledgeBase.Retrieve | frontier/knowledge.py:340-382 | Always distinct labels of qualifying records, a label missing only when `k` were returned; when the qualifying scores are finite, top-k over labels: best instances, best first, and a missing label scores at most as high as any returned. With a correct square root: every record returned answers the query and is keyed by cosine times gain, and while there is room no answer's label is missing. |
| Knowledge.KnowledgeBase.Record | frontier/knowledge.py:301-330 | Appends exactly one record and changes none. |
| Knowledge.LoadFromKB | frontier/knowledge.py:516-532 | Replays every record once, in order. |
| Knowledge.KnowledgeProposer.RecordOutcome | frontier/knowledge.py:591-616 | Exactly one record is appended, field by field what `Stored` says, and the bandit stays in step; failed runs count as zero, and otherwise the gain added to the incumbent's score is the score. |
| Knowledge.FreshReplay | frontier/knowledge.py:516-532 | A fresh bandit that loads the knowledge base ends in the state of the live one. |
| Knowledge.BanditIsItsLog | frontier/knowledge.py:516-532 | Reordering the records does not change what the bandit holds. |
| Store.CheckpointStore.Save | frontier/checkpoint.py:233-257 | Stopped in front of any of its five steps, a save leaves the old or the new state readable, never a torn one; completed, it is durable. |
| Store.CheckpointStore.Reboot | frontier/checkpoint.py:186-204 | After a crash a reader gets the visible or the durable state. |
| Checkpoint.RecordsOnce | frontier/checkpoint.py:394-401 | The record log is the records of all outcomes that rounds run one after the other return, each exactly once, in order. |
| Checkpoint.AfterIsLeft | frontier/checkpoint.py:394-401 | What k rounds in a row leave is, by index over their outcomes: champion and score of the last outcome that names a champion, the payload of the last that carries one, and all records; each outcome is the round's on what the outcomes before it left. |
| Checkpoint.ResumingKeepsWork | frontier/checkpoint.py:354-369 | Resuming keeps all completed work, extends the lineage by the attempt taken over and the parent without repetition, counts one more resume and never lowers the number of rounds. |
| Checkpoint.RoundAdvances | frontier/checkpoint.py:394-406 | Applying and marking a round turns k completed rounds into k + 1 of the uninterrupted run. |
| Checkpoint.CheckpointedRun.Resume | frontier/checkpoint.py:332-376 | Continues from the stored state or a fresh one; whatever step it is stopped at, everything recoverable is sound. |
| Checkpoint.CheckpointedRun.RunRound | frontier/checkpoint.py:391-408 | One round is done completely or not at all, and a power loss costs at most one round. |
| Checkpoint.CheckpointedRun.Run | frontier/checkpoint.py:379-410 | A finished attempt ends in the state of an uninterrupted run; a stopped one never loses a completed round. |
| Checkpoint.Supervise | frontier/checkpoint.py:332-410 | Any chain of attempts crashed anywhere: a finished one has every round done, and there are n outcomes, each its round's on what the ones before it left, such that champion and score are those of the last that names a champion, the payload is that of the last that carries one and the records are all of theirs; an attempt with enough steps finishes. |
| Checkpoint.CompletedIsUnique | frontier/checkpoint.py:332-410 | That leaves one result: any two chains of attempts that finish end with the same champion, score, payload, records and completed rounds. |
| LongRun.RoundKeepsOrder | frontier/longrun.py:188-208 | Completing a round keeps the completed rounds a prefix with one lineage entry each, the new one naming this attempt, and what a resumed run reads back is the champion saved with that round. |
| LongRun.LoadKeepsOrder | frontier/longrun.py:143-167 | A resumed attempt keeps completed rounds, lineage entries and champion, names the attempt it took over from, and never lowers the number of rounds. |
| LongRun.ResumableRun.OnComplete | frontier/longrun.py:188-208 | The hook notes the round and saves champion, score and lineage together. |
| LongRun.ResumableRun.GateTurn | frontier/longrun.py:170-186 | Exactly the rounds complete at load are skipped, and the champion at hand is then the one saved with the last of them. |
| LongRun.ResumableRun.FreshRound | frontier/core/orchestrator.py:508-717 | A round is abandoned or completed and saved; a crash leaves the state before or after it. |
| LongRun.ResumableRun.Loop | frontier/core/orchestrator.py:484-717 | Skipped rounds are the first ones, run rounds follow them without a gap, and the loop stops only for a reason it was given. |
| LongRun.ResumableRun.Run | frontier/longrun.py:212-245 | One attempt never loses a completed round; what is persisted is the champion with the largest score among the one at the start and all finds of the rounds since, the first find on ties; so the persisted score never gets worse. |
| LongRun.Supervise | frontier/longrun.py:212-245 | Over any chain of attempts what is persisted is a prefix of rounds with exactly one lineage entry each; once any attempt was uneventful, all rounds are complete for good. |
| Carving.SortByOrders | scripts/code_arena.py:306-307 | Stable sorting by a key keeps every row and puts keys in ascending order. |
| Carving.ChunksCover | scripts/code_arena.py:259-264 | The shards, the last taking the remainder, cover the sealed rows consecutively. |
| Carving.CutsPartition | scripts/code_arena.py:266-275 | Train, validation, shards and gold together hold every row of the pool with its multiplicity. |
| Carving.CutSizesAre | scripts/code_arena.py:259-275 | Train, validation and gold hold 0.42, 0.17 and 0.17 of the rows, rounded down, and the shards are even, the last with less than one extra row a shard. |
| Carving.PartsAreDisjoint | scripts/code_arena.py:266-275 | For a pool of distinct rows the parts are pairwise disjoint and cover it. |
| Carving.CutsRespectTime | scripts/code_arena.py:301-312 | In the time carve no row of an earlier part is later than a row of a later part. |
| Grouping.LoadIsRows | scripts/code_arena.py:291-297 | The load recorded for distinct groups is the number of their rows. |
| Grouping.PackedBounds | scripts/code_arena.py:290-297 | Every bucket's row count is at most its target plus the largest group m and at least its target minus (nb - 1) m. |
| Grouping.Choose | scripts/code_arena.py:295 | The bucket chosen is the group's own while seeding and otherwise the first one with the largest deficit, which is not above its target. |
| Grouping.Pack | scripts/code_arena.py:292-297 | Every group lands once, every bucket starts with its seed, no bucket exceeds its target by more than the largest group m, and the deficit of a bucket with at least two groups is at most m smaller than that of any other. |
| Splits.TargetsAddUp | scripts/code_arena.py:290 | The row targets are never negative and add up to the pool. |
| Splits.GroupsStayWhole | scripts/code_arena.py:298-299 | Every row is, with its multiplicity, in the part that has its group and in no other. |
| Splits.TabularSplits.CarveRandom | scripts/code_arena.py:266-275 | The random carve is the cut of the shuffled pool, a partition with the sizes of `CutSizes`. |
| Splits.TabularSplits.CarveTime | scripts/code_arena.py:301-312 | The time carve is a partition in time order, with the same sizes. |
| Splits.TabularSplits.CarveGrouped | scripts/code_arena.py:277-299 | Fails exactly with fewer groups than buckets; otherwise groups are whole, parts non-empty, sizes within m above and (nb - 1) m below 0.42, 0.17, 0.17 of the rows and an even part of 0.24, and a part of at least two groups is never ahead of another by more than m relative to the targets. |
| Budget.SpendingIsBounded | frontier/budget.py:397-423 | After any run of events in any order, what is spent and still owed is at most the usable total, the tolerance and the allowance: the last admitted run's overrun, the cost of the runs outstanding when it was admitted, and extra charges since. |
| Budget.SpendingLimitIsExact | frontier/budget.py:352-358 | A limit holds for all runs with at most p outstanding, overruns up to d and unadmitted charges up to x if and only if it is at least p times (total plus tolerance plus d), plus x. |
| Budget.CapsNeverShrink | frontier/budget.py:385-395 | Whatever a round admits and charges in whatever order, the next cap is smaller by at most the tolerance and the round's allowance. |
| Budget.EveryRoundGetsItsShare | frontier/budget.py:385-395 | Every round may spend an equal share of the total, up to the tolerances and allowances of the rounds before. |
| Budget.OneAtATime | frontier/budget.py:48-54 | When every run is charged before the next is admitted and none overruns, a round needs no allowance. |
| Budget.EqualShares | frontier/budget.py:385-395 | In that order every round gets its equal share, up to one tolerance per earlier round. |
| Budget.CullSplits | frontier/budget.py:432-458 | A cull splits the arms alive exactly into survivors, killed and dropped, and keeps at least the minimum. |
| Budget.CullCount | frontier/budget.py:441-458 | All scored arms survive when culling is off or at most `min_keep` are left; otherwise exactly the larger of `min_keep` and the rounded-up share `keep_frac` of them, and all others are killed. |
| Budget.CullRanks | frontier/budget.py:446-449 | No killed arm outscores a survivor. |
| Budget.CullKeepsBest | frontier/budget.py:432-458 | The best score among the arms alive survives every cull. |
| Budget.BudgetController.Admit | frontier/budget.py:397-415 | Admits exactly when the estimate fits the total and the round and something is left. |
| Budget.BudgetController.BeginRound | frontier/budget.py:385-395 | Opens a round with an equal share of what is left. |
| Budget.BudgetController.Charge | frontier/budget.py:417-423 | Adds the true cost; missing, negative and non-finite readings cost nothing. |
| Budget.BudgetController.RecordScore | frontier/budget.py:425-430 | Finite scores are kept once per arm and make it alive; others are ignored. |
| Budget.BudgetController.EndRound | frontier/budget.py:432-458 | The alive set and the killed list are those of the cull. |
| Budget.BudgetController.Drive | frontier/budget.py:385-423 | Over any sequence of rounds, admissions and charges the controller's accounts are those of `Run`. |
| Costs.SlopeStaysInRange | frontier/budget.py:270-298 | After any run of observations the slope is between the least and largest of its seed and the observed ratios, up to the floor. |
| Costs.LinearIsExactFromTheSixth | frontier/budget.py:283-290 | On exactly linear timings the slope is the true one if and only if there were six successful observations or the seed was right. |
| Costs.EstimateFor | frontier/budget.py:249-268 | Every estimate lies within its band, is not negative and never exceeds the cap. |
| Costs.LinearEstimate | frontier/budget.py:249-256 | After six exactly linear timings the estimate is the true line times the factor of the enhancers, up to the cap. |
| Costs.EstimateGrows | frontier/budget.py:249-256 | More work is never estimated to take less time. |
| Costs.EnhancersMultiply | frontier/budget.py:242-247 | The factor of two lists of enhancers together is the product of their factors. |
| Costs.OneEnhancer | frontier/budget.py:118-123 | The factor of each single enhancer; unknown ones cost nothing. |
| Costs.CostModel.Observe | frontier/budget.py:270-298 | Only usable timings change a family; unseen families start from the unknown seed; at most 64 ratios are kept. |
| Costs.NotedIs | frontier/budget.py:291-298 | The newest ratio comes last and only the oldest is dropped, when there are 64. |
| Costs.RatioIs | frontier/budget.py:291-294 | The ratio noted, times the prediction of the refitted line, is the measured time. |
| Costs.CostModel.EstimateRun | frontier/budget.py:249-268 | Estimates from the family's own line at the work its exponent gives, times the enhancers' factor; families not in the table are estimated as unknown ones. |
| Plans.Validate | frontier/budget.py:518-573 | Accepts a plan if and only if it is a valid gated chain. |
| Plans.Walk | frontier/budget.py:540-550 | Following the edges ends at a root unless some edge is unknown or not forward. |
| Plans.EveryPhaseReachesTheFirst | frontier/budget.py:538-553 | In an accepted plan every phase leads back to the first, the only root. |
| Plans.CohortsNarrow | frontier/budget.py:556-573 | Cohorts never grow along an accepted plan. |
| Plans.Decompose | frontier/budget.py:603-645 | For every positive budget and candidate count the three phases form a valid plan that spends exactly the total: 0.2, 0.3 and 0.5 of it; a quarter of the candidates survives the screen and 0.4 of those the refine phase, rounded up and at least two when there is a choice, and one survives the confirm phase. |
| Genome.NormalizeGenome | frontier/features.py:137-188 | The rules applied in order compute the canonical genome, which is safe; only an unhashable base fails. |
| Genome.NormalizeTwice | frontier/features.py:137-141 | Normalising is idempotent on arbitrary gene values. |
| Genome.SafeExactlyWhenCanonical | frontier/features.py:137-188 | Normalising yields a base of the kind, genes from their alphabets, no standard scaling beside a power transform, no selection beside a reduction, no target transform on classification and no interactions without a polynomial; and it leaves exactly the genomes with these properties alone. |
| GenomeLabels.PlainLabelsAgree | frontier/features.py:191-212 | A genome that uses nothing beyond a plain recipe has that recipe's label. |
| GenomeLabels.LabelsIdentifyGenomes | frontier/features.py:191-212 | Two canonical genomes of a kind share a label if and only if all their genes are equal, winsor amounts as they are printed. |
| GenomeLabels.UniqueExactlyWhenToldApart | frontier/features.py:191-200 | Labels are unique, up to equality of genes, if and only if no two winsor amounts are printed alike. |
| GenomeLabels.PowerLabel | frontier/features.py:200-201 | A genome with only base and power set is labelled yj or qn, plus the base. |
| GenomeLabels.TargetLabel | frontier/features.py:196-197 | A genome with only base and target set is labelled tlog, tyj or tqn, plus the base. |
| GenomeLabels.ScaleLabel | frontier/features.py:208-210 | A genome with only base and scale set is labelled scale, rscale, mm or ma, plus the base. |
| Beam.PointMutations | frontier/features.py:509-537 | The mutations are exactly the genomes one gene away, and linearly many. |
| Beam.PriorityOrder | frontier/features.py:568-582 | A label with fewer tokens of failed labels has priority; with as many, a genome with fewer preprocessing genes. |
| Beam.SortedEntries | frontier/features.py:610-611 | Candidates with distinct labels come out in strict order of priority and label. |
| Beam.ScoredAre | frontier/features.py:598-608 | Deduplication keeps one candidate per eligible label and misses none. |
| Beam.EmittedLabel | frontier/features.py:412-416 | An emitted program carries the label its candidate was deduplicated by. |
| Beam.TakeBeam | frontier/features.py:610-612 | At most the beam width, distinct labels, none tried, none the champion's; whatever eligible is left out is behind all chosen. |
| Beam.Propose | frontier/features.py:584-618 | One round proposes the good beam of exactly the champion's neighbours and its crossovers. When floats are printed faithfully, no proposal has the champion's genes or a tried label, and every candidate whose genes differ from the champion's and whose label was not tried is, gene by gene, one of the entries, which is in the beam or behind a full one. |
| Labels.ReadsBackInt | frontier/diagnosis.py:170-174 | A printed degree reads back as itself. |
| Labels.SplitJoin | frontier/diagnosis.py:163-164 | Splitting undoes joining when no tag holds a separator. |
| Labels.RecipeLabel | frontier/proposers.py:56-65 | Builds the label from the tags in order. |
| Labels.ParseRecipeFromLabel | frontier/diagnosis.py:153-176 | Reads base and axis tags; unknown tags are ignored and an unreadable degree counts as 2. |
| Labels.LabelRoundTrip | frontier/diagnosis.py:153-176 | A label reads back as its recipe without falsy entries if and only if the base holds no separator. |
| Labels.LabelsIdentifyRecipes | frontier/proposers.py:56-65 | Two recipes share a label if and only if they differ only in falsy entries. |
| Labels.AxesSurvive | frontier/diagnosis.py:179-183 | An axis is present in a label if and only if it is in the recipe. |

## Left out

- Floating point: sums, products, logarithms and `int(0.42 * n)` are exact here, so rounding of results (six digits of a rung's budget, four of logged numbers) and overflow are not modelled. The number of rungs is the number of powers that stay at or below one.
- Ladder.BuildLadder: does not round budgets to six digits before close rungs are merged (frontier/portfolio.py:209-224), because budgets are exact here.
- Threads, processes and clocks: launches, completions and crashes are nondeterministic steps.
- Subsampling of training rows (frontier/portfolio.py:289-320): a run's outcome is a function of arm and rung; nothing is said about one rung's rows containing another's.
- Thompson and UCB launch orders (frontier/portfolio.py:522-533): any order of the arms is allowed, which covers all policies.
- Accounting fields of an arm record (wall seconds, error text) and the count of fits saved.
- Repeated program ids in one portfolio round: the loop's dictionaries are modelled, but an id that occurs twice is launched once.
- `numpy` linear algebra: an inverse, a solution and a square root are parameters that must be correct. Logarithm and hyperbolic tangent in the context vector are arbitrary functions.
- The JSON-lines file behind the knowledge base, its lock, and recovery of a task descriptor from a fingerprint (frontier/knowledge.py:287-299, 535-557).
- Knowledge.KnowledgeBase.Retrieve: when a qualifying score is infinite or not a number, the order is left open, because sorting by a key that is not a number has no defined order in the code either.
- Knowledge.KnowledgeProposer.RecordOutcome: the fingerprint is a parameter; its default, the vector of the task descriptor, is not modelled.
- RetrievalProposer.propose, SeedProposer, MutationProposer and FeatureProposer: filters around members proved here.
- JSON encoding of checkpoints: contents are either a complete state or unreadable. Time stamps, the schema version, the resume hook and `completed_rounds` with ill-typed or missing entries are not modelled.
- Directory synchronisation that the platform refuses (frontier/checkpoint.py:260-276): the directory sync always takes effect.
- The inside of an orchestrator round: only whether it is abandoned or completes, what champion it found and whether the search stops. A champion is taken to have code, since a program without any defines nothing to fit and never scores. Subsampling, proposals, repair and diagnosis are not modelled, nor is certification.
- Choice of the row pool, label noise, derived groups and the check of time leaks by a probe (scripts/code_arena.py:137-168, 204-257). Shuffles are parameters.
- Reading a family or enhancers out of program text, offline calibration, event logs and reports (frontier/budget.py:158-196, 300-314, 473-485). The power of the training size is a function from the family's exponent to a work value.
- Error messages of the plan validator: a plan is accepted or not.
- Rendering genomes to code (frontier/features.py:217-409) and formatting of floats in labels, which is a parameter. Gene values of other types (dictionaries, arrays), recipe entries that are not genes, and a negative number of crossovers are not modelled.
- `int` of a degree tag with blanks, underscores or digits outside ASCII.
