# Splink training and blocking-analysis core, modelled in Dafny

This project models four parts of splink, a probabilistic record-linkage
library built on the Fellegi–Sunter model:

- **Blocking analysis** (`splink/analyse_blocking.py`, module `AnalyseBlocking`).
  - For each blocking rule, it counts the pairs that the rule is the first to generate.
  - It turns those counts into cumulative records for the chart.
  - It builds the four SQL stages that count comparisons from a rule's equi-join keys before filtering.
  - It builds the post-filter SQL text.
- **The expectation-maximisation training session** (`splink/em_training_session.py`, module `EmTrainingSession`).
  - It adjusts the prior λ for the training blocking rule.
  - It chooses the comparisons the rule uses up, and keeps the others active.
  - It refuses to train when both m and u are fixed, or when the rule generates no pairs.
  - It folds the trained m and u values back into the original settings.
  - It builds the λ history records.
- **The parameter store** (`splink/params.py`, module `ParamStore`, JSON values in module `JsonValues`).
  - It flattens nested parameter dictionaries.
  - It saves to and loads from the four-key dictionary.
  - It tests convergence between iterations.
  - It builds the Bayes-factor iteration history.
  - It stores the results of a maximisation step.
  - It copies saved m and u probabilities back into a settings dictionary.
- **u estimation by random sampling** (`splink/estimate_u.py`, module `EstimateU`).
  - It sizes the sample and chooses between a dedupe sample, the full link-only product, and sampled link-only pairs.
  - It sets the sampling blocking rule.
  - It scores every sampled pair as a non-match.
  - It appends the estimated u values to the original settings.

Shared entities live in two modules:

- `LinkageModel` holds comparison levels, comparisons, the settings object and the linker. The settings object and the linker are classes whose fields the operations update.
- `Outcomes` holds the `Result`/`Option` wrappers and the Python exceptions the source raises.

SQL execution, the database, logging and charts are outside the model. Their results enter as parameters:

- the match keys each blocking rule assigns to a pair;
- the tables the SQL stages read;
- the row counts;
- the EM iteration history;
- the parameter records the u-estimation pipeline produces;
- whether a file exists.

## Model

| member | source | states |
|---|---|---|
| AnalyseBlocking.FirstRule | splink/analyse_blocking.py:110-118 | the match key of a pair is the first rule it satisfies; none exists exactly when no rule holds |
| AnalyseBlocking.OccurrencesOfMatchKeys | splink/analyse_blocking.py:111-128 | the number of pairs given match key k equals the number of pairs whose first satisfied rule is k |
| AnalyseBlocking.MatchKeysCountsBlockedPairs | splink/analyse_blocking.py:111-128 | the blocked table has one row per pair that meets at least one rule |
| AnalyseBlocking.MatchKeysBelow | splink/analyse_blocking.py:111-128 | every match key is the index of one of the rules |
| AnalyseBlocking.CountByMatchKeyShape | splink/analyse_blocking.py:120-128 | the group-by result is ordered by strictly ascending match key; each row counts a key that occurs, and counts it exactly |
| AnalyseBlocking.CountByMatchKeyAt | splink/analyse_blocking.py:120-128 | for every rule index, the grouped count (0 when the key is absent) equals the key's occurrences |
| AnalyseBlocking.Missing | splink/analyse_blocking.py:141-142 | the missing keys are exactly the rule indices absent from the grouped keys, in ascending order |
| AnalyseBlocking.BackFill | splink/analyse_blocking.py:141-144 | inserting 0 at every missing index, in ascending order, yields the full per-rule count list |
| AnalyseBlocking.GroupedCountsSelected | splink/analyse_blocking.py:139-144 | before back-fill, the counts read from the grouped rows are the per-rule counts at the present keys |
| AnalyseBlocking.PerRuleCountsAreFirstBlocked | splink/analyse_blocking.py:111-144 | after back-fill, entry i is the number of pairs first blocked by rule i |
| AnalyseBlocking.FirstBlockedCountsTotal | splink/analyse_blocking.py:141-155 | the per-rule counts sum to the number of pairs that some rule generates |
| AnalyseBlocking.OccurrenceCountsSum | splink/analyse_blocking.py:120-128 | the per-key occurrence counts of a key list sum to its length |
| AnalyseBlocking.CountsAfterBackFill | splink/analyse_blocking.py:111-144 | the grouped rows are ascending and in range; the back-filled counts are the first-blocked counts, and they total the pairs generated |
| AnalyseBlocking.CumulativeRecords | splink/analyse_blocking.py:146-173 | one record per rule with its row count; with the chart, cumulative_rows is the running sum, start is that sum minus the row, and cartesian is copied |
| AnalyseBlocking.LastRecordTotal | splink/analyse_blocking.py:154-170 | the last record's cumulative_rows is the sum of all per-rule counts |
| AnalyseBlocking.RecordsTotalsAscend | splink/analyse_blocking.py:154-170 | cumulative totals never decrease along the records, and start + row_count = cumulative_rows for each one |
| AnalyseBlocking.PrefixSumMonotone | splink/analyse_blocking.py:155 | a running sum of counts never decreases |
| AnalyseBlocking.CountAndAccumulate | splink/analyse_blocking.py:120-173 | the records are built from the first-blocked counts; with the chart, the last cumulative total is the number of pairs some rule generates |
| AnalyseBlocking.CumulativeComparisonsGeneratedByBlockingRules | splink/analyse_blocking.py:51-178 | the rules given are used, or the settings' prediction rules when none are given; one record per rule, with the accumulation properties above |
| AnalyseBlocking.GroupCountProducts | splink/analyse_blocking.py:242-276 | summing count_l * count_r over the inner join of the two group-by tables counts exactly the pairs whose keys are all equal and non-NULL |
| AnalyseBlocking.JoinProductsPositive | splink/analyse_blocking.py:262-267 | every block_count in the joined table is at least 1 |
| AnalyseBlocking.SumPositive | splink/analyse_blocking.py:271-274 | a sum of positive block counts is 0 exactly when there are no rows |
| AnalyseBlocking.EqualKeyPairsNoKeys | splink/analyse_blocking.py:222-236 | with no join keys, every left row pairs with every right row |
| AnalyseBlocking.PreFilterStages | splink/analyse_blocking.py:181-278 | no join conditions give a single stage; otherwise four stages (left counts, right counts, block counts, total), always ending in the total table |
| AnalyseBlocking.CountComparisonsFromBlockingRulePreFilterConditionsSqls | splink/analyse_blocking.py:181-278 | the key loop and the stage list produce exactly the specified stages |
| AnalyseBlocking.KeyedStagesRun | splink/analyse_blocking.py:242-276 | running the four keyed stages leaves as the total the SQL SUM of the join's block counts |
| AnalyseBlocking.PreFilterStagesCount | splink/analyse_blocking.py:181-278 | running the stages gives the number of equal-key pairs, or NULL when join keys exist but no pair matches; with no keys it gives the product of the two table sizes |
| AnalyseBlocking.PreFilterCountAsWritten | splink/analyse_blocking.py:281-294 | as written, the count fails with TypeError when join conditions exist and no pair matches (int of NULL); otherwise it is the pair count |
| AnalyseBlocking.PreFilterCount | splink/analyse_blocking.py:281-294 | corrected: the count is always the number of equal-key pairs, and the product of the table sizes with no keys |
| AnalyseBlocking.AllNullKeysRaiseTypeError | splink/analyse_blocking.py:293-294 | a one-row input whose key is NULL makes the as-written count raise TypeError, where the corrected count gives 0 |
| AnalyseBlocking.NumberOfComparisonsGeneratedByBlockingRulePostFiltersSql | splink/analyse_blocking.py:18-39 | the SQL is the fixed head, then the rule, then the where condition, each at a known offset |
| AnalyseBlocking.PostFiltersSqlInjective | splink/analyse_blocking.py:18-39 | for a fixed where condition, different rules give different SQL |
| EmTrainingSession.BayesFactorProductAppend | splink/em_training_session.py:289-292 | multiplying Bayes factors over a concatenation multiplies the two products |
| EmTrainingSession.BayesFactorProductAtLeastOne | splink/em_training_session.py:289-292 | levels whose Bayes factors are all at least 1 give a product of at least 1 |
| EmTrainingSession.ProbToBayesFactor | splink/em_training_session.py:283 | a probability in [0, 1) has a non-negative Bayes factor |
| EmTrainingSession.BayesFactorToProb | splink/em_training_session.py:301 | a non-negative Bayes factor gives a probability in [0, 1) |
| EmTrainingSession.ProbBayesFactorRoundTrip | splink/em_training_session.py:283-301 | converting a probability to a Bayes factor and back returns the same probability |
| EmTrainingSession.BayesFactorToProbMonotone | splink/em_training_session.py:301 | a larger Bayes factor never gives a smaller probability |
| EmTrainingSession.AdjustedPrior | splink/em_training_session.py:280-308 | the adjusted λ is a probability in [0, 1) |
| EmTrainingSession.AdjustedPriorNoLevels | splink/em_training_session.py:280-308 | with no levels to reverse, the adjusted λ equals the original λ |
| EmTrainingSession.AdjustedPriorAtLeastOriginal | splink/em_training_session.py:280-308 | reversing levels whose Bayes factors are at least 1 never lowers λ |
| EmTrainingSession.BlockingAdjustedProbability | splink/em_training_session.py:280-308 | the loop multiplies the original odds by each level's Bayes factor, giving the specified adjusted prior |
| EmTrainingSession.AutoDeactivated | splink/em_training_session.py:97-107 | a comparison is deactivated exactly when it shares an input column with the training blocking rule |
| EmTrainingSession.ComparisonsToDeactivate | splink/em_training_session.py:97-107 | a non-empty explicit list is used as given; otherwise exactly the comparisons sharing a column with the rule |
| EmTrainingSession.ActiveComparisons | splink/em_training_session.py:108-122 | a comparison stays active exactly when its output column name is not a deactivated name |
| EmTrainingSession.ActiveComparisonsAppend | splink/em_training_session.py:115-119 | the name filter distributes over concatenation, keeping order |
| EmTrainingSession.ActiveAndDeactivatedDisjoint | splink/em_training_session.py:108-122 | no active comparison shares an output column name with a deactivated one |
| EmTrainingSession.FoldLevelsKeepsVectorValues | splink/em_training_session.py:244-277 | folding trained values in keeps every level's comparison vector value, in order |
| EmTrainingSession.FoldComparisonsKeepsShape | splink/em_training_session.py:240-277 | folding keeps the original comparisons' names and the vector values of their levels |
| EmTrainingSession.FoldLevelsAt | splink/em_training_session.py:244-277 | each original level receives the trained level with the same vector value, or stays unchanged when there is none |
| EmTrainingSession.FoldComparisonsAt | splink/em_training_session.py:240-277 | each level of each original comparison receives the trained non-null level with the same comparison name and vector value, or stays unchanged |
| EmTrainingSession.FoldLeavesUntrained | splink/em_training_session.py:240-243 | a comparison that no trained comparison names is left exactly as it was |
| EmTrainingSession.DeactivatedNotTrained | splink/em_training_session.py:108-122 | when the trained names are all active names, no trained comparison carries a deactivated name |
| EmTrainingSession.FoldKeepsDeactivated | splink/em_training_session.py:240-277 | folding back keeps every deactivated comparison unchanged |
| EmTrainingSession.NotNamedIn | splink/em_training_session.py:240-243 | a comparison name absent from the trained list finds no trained level |
| EmTrainingSession.TrainedLevel | splink/em_training_session.py:244-247 | the lookup returns a trained level with the requested vector value, or none when no level has it |
| EmTrainingSession.NoPairsMessage | splink/em_training_session.py:205-218 | the error message quotes the training blocking rule in backticks |
| EmTrainingSession.FoldTrainedLevels | splink/em_training_session.py:244-277 | the level loop produces the specified fold and keeps the vector values |
| EmTrainingSession.FoldTrainedComparisons | splink/em_training_session.py:240-277 | the comparison loop produces the specified fold and keeps the output column names |
| EmTrainingSession.Session.constructor | splink/em_training_session.py:36-137 | the session keeps the original settings and flags; λ is the blocking-adjusted prior; deactivation and active filtering are as specified; the history is empty |
| EmTrainingSession.Session.Start | splink/em_training_session.py:71-76 | a non-empty explicit list of levels to reverse raises ValueError with the broken-path message; otherwise a fresh session holding the given rule, fix flags and term-frequency flag, the implied levels, the adjusted λ, the deactivated list (the explicit one when non-empty, else the automatic one), the active comparisons, no history, and no active comparison sharing an output column with a deactivated one |
| EmTrainingSession.Session.TrainingLogMessage | splink/em_training_session.py:139-168 | fails with ValueError exactly when both m and u are fixed; otherwise names what is estimated |
| EmTrainingSession.Session.ComparisonVectors | splink/em_training_session.py:170-197 | the blocked comparison vectors are returned, unless both m and u are fixed |
| EmTrainingSession.Session.Train | splink/em_training_session.py:199-277 | fails with ValueError when both m and u are fixed and no vectors are given, and with EMTrainingException carrying the no-pairs message when the vectors are empty, changing nothing; otherwise the history and current settings come from EM, the original comparisons receive the specified fold, deactivated comparisons are unchanged, and no other field of the original settings changes |
| EmTrainingSession.Session.CheckPairs | splink/em_training_session.py:199-218 | fails with ValueError exactly when no vectors are given and both m and u are fixed, else with EMTrainingException carrying the no-pairs message exactly when the table of pairs is empty, and passes otherwise |
| EmTrainingSession.Session.AdoptHistory | splink/em_training_session.py:233-277 | keeps the EM history and its last snapshot, folds that snapshot into the original comparisons, leaves the deactivated ones and the other fields unchanged |
| EmTrainingSession.Session.LambdaHistoryRecords | splink/em_training_session.py:330-341 | fails with ZeroDivisionError exactly when some iteration's λ is 0; otherwise one record per iteration, numbered from 0, carrying that iteration's λ and its reciprocal |
| EmTrainingSession.SameNamesSameIndex | splink/em_training_session.py:241-243 | lists with equal output column names locate a name at the same index |
| EmTrainingSession.SameVectorValuesSameIndex | splink/em_training_session.py:245-247 | level lists with equal vector values locate a value at the same index |
| EstimateU.RowsToSampleInverts | splink/estimate_u.py:26-35 | the sample size n solves n(n−1)/2 = t and is at least 1 for t ≥ 0 |
| EstimateU.PairsToSampleArguments | splink/estimate_u.py:38-44 | the logarithm arguments are defined and positive exactly when N ≥ 2 and t < N; N = 0 raises ZeroDivisionError, other cases a math domain error |
| EstimateU.SamplingDecision | splink/estimate_u.py:77-142 | dedupe modes succeed exactly when there are rows and 8t+1 ≥ 0, fail with ZeroDivisionError on zero rows and with TypeError on a negative radicand, and cap the sample size at the row count and the proportion at 1; link-only takes the full product exactly when t ≥ count_l·count_r, and otherwise succeeds exactly when the pair-sampling arguments are defined |
| EstimateU.SampleCapsAgree | splink/estimate_u.py:77-85 | the capped sample size never exceeds the row count, the proportion never exceeds 1, and the size equals the row count exactly when the proportion is 1 |
| EstimateU.BlockingRulesFor | splink/estimate_u.py:200-203 | the sample-id rule is used exactly for link-only sampling; otherwise there are no rules |
| EstimateU.PredictTreatsAllAsNonMatches | splink/estimate_u.py:229-232 | every sampled pair is kept and scored with match probability 0, so all weight goes to non-matches |
| EstimateU.MURecordsMembers | splink/estimate_u.py:251-255 | a record is kept exactly when it is not the λ row |
| EstimateU.MURecordsAppend | splink/estimate_u.py:251-255 | dropping the λ row keeps the order of the records: it distributes over concatenation |
| EstimateU.ULookup | splink/estimate_u.py:257-262 | the u value is that of the last record for the comparison name and vector value, or "not observed" when there is none; it is never unset |
| EstimateU.MURecordsLookup | splink/estimate_u.py:251-262 | dropping the λ row changes no comparison's lookup, and the λ name is never found |
| EstimateU.WithUEstimates | splink/estimate_u.py:258-262 | each non-null level gets exactly one trained u entry, the lookup result; null levels and all other fields are unchanged |
| EstimateU.AppendUProbabilities | splink/estimate_u.py:258-262 | the nested loop gives the original settings' comparisons their u estimates and changes no other field |
| EstimateU.NewTrainingLinker | splink/estimate_u.py:53-64 | the training linker is a fresh deep copy with random-sample mode on, both retain flags off, training mode on and term frequencies off |
| EstimateU.EstimateUValues | splink/estimate_u.py:47-262 | works on a fresh deep copy with the training flags set and term frequencies off; succeeds exactly when the sampling decision does; sets the blocking rules; on success the original comparisons receive u estimates from the non-λ records, and on failure they are unchanged; the original settings keep their link type, λ, prediction rules, retain flags and training mode |
| JsonValues.Find | splink/params.py:517-525 | a position found holds the key, and no position is found exactly when no entry has the key |
| JsonValues.FindFirst | splink/params.py:517-525 | the position found is the first entry with the key: no entry before it has that key |
| JsonValues.GetAfterPut | splink/params.py:555 | after a dictionary write, reading the key gives the new value and other keys are unchanged |
| JsonValues.PutFrame | splink/params.py:91 | a dictionary write leaves the value of every other key unchanged |
| JsonValues.KeySetAfterPut | splink/params.py:555 | a dictionary write adds the key to the key set and nothing else |
| JsonValues.PutKeepsUniqueKeys | splink/params.py:545 | writing a key never duplicates a key |
| JsonValues.GetInAfterSetIn | splink/params.py:101-102 | after a nested write, reading the same path gives the written value |
| JsonValues.SetInFrame | splink/params.py:101-102 | a nested write leaves every diverging path unchanged |
| JsonValues.GetInAppend | splink/params.py:121-130 | reading one key further along a path reads that key in the value the path leads to, or gives the path's own error |
| JsonValues.SetInSucceeds | splink/params.py:101-102 | a nested write succeeds exactly when the path up to its last key leads to a dictionary |
| JsonValues.SetInKeepsDicts | splink/params.py:101-102 | a nested write neither creates nor removes a dictionary at the depth of the written key's parent |
| JsonValues.ParseDecimalString | splink/params.py:125 | the decimal rendering of a level number parses back to the number |
| ParamStore.Prefixed | splink/params.py:541 | a nested key is the parent key, "_", and the key; at top level it is the key itself |
| ParamStore.FlattenDict | splink/params.py:537-546 | the recursive flattening writes exactly the leaves of the dictionary into the accumulator, in order |
| ParamStore.AssignAppend | splink/params.py:540-545 | writing two leaf sequences in turn is writing their concatenation |
| ParamStore.LeavesAreNotDicts | splink/params.py:542-545 | no flattened value is itself a dictionary |
| ParamStore.TopLevelLeaf | splink/params.py:540-545 | every top-level non-dictionary value is a leaf under its own key |
| ParamStore.NestedLeaf | splink/params.py:541-544 | a value nested one level down is a leaf under the joined key |
| ParamStore.LeavesPrefix | splink/params.py:540-545 | the leaves of a prefix of the entries are a prefix of the leaves |
| ParamStore.GetAfterAssign | splink/params.py:545 | reading a key after the writes gives the last value written to it, or the earlier value |
| ParamStore.FlattenedValues | splink/params.py:537-546 | a flattened key holds its last leaf value, which is never a dictionary; any other key is missing |
| ParamStore.LastAssignedIsLeaf | splink/params.py:545 | the last value written to a key is one of the leaves |
| ParamStore.ToDictOf | splink/params.py:193-200 | the saved dictionary has exactly the four expected keys, each holding its field |
| ParamStore.LoadFields | splink/params.py:515-534 | loading succeeds exactly for a dictionary with the four expected keys, returning their values; other key sets raise the corruption ValueError |
| ParamStore.LoadToDict | splink/params.py:193-200 | loading a saved dictionary returns the saved fields |
| ParamStore.LoadRejectsOtherKeys | splink/params.py:517-532 | a missing expected key or an extra key makes loading raise the corruption ValueError |
| ParamStore.Lower | splink/params.py:231 | lower-casing keeps the length and lowers each character |
| ParamStore.ProbabilityEntries | splink/params.py:228-237 | exactly the entries whose lower-cased key contains "_probability" are kept |
| ParamStore.AssignKeepsUniqueKeys | splink/params.py:537-546 | the flattened dictionary has no repeated key |
| ParamStore.ProbabilityEntriesUnique | splink/params.py:228-237 | the probability filter keeps keys unique |
| ParamStore.UnchangedParamsConverge | splink/params.py:223-253 | parameters compared with themselves are comparable, and all changes are below a positive threshold |
| ParamStore.CompareProbabilities | splink/params.py:239 | succeeds exactly when every new key exists in the old parameters with numbers on both sides and a numeric threshold; the result is true exactly when every change is below the threshold |
| ParamStore.BiggestChange | splink/params.py:241-247 | the result is at least every change, and it is either 0 or one of the changes |
| ParamStore.LevelKeyInjective | splink/params.py:125 | different level numbers give different level keys |
| ParamStore.BayesFactor | splink/params.py:131-134 | the Bayes factor is m/u, or none when u is 0; it fails unless m and u are numbers |
| ParamStore.PathsDiverge | splink/params.py:91-102 | m and u paths never overlap each other or the proportion key, and rows for different levels write to different paths |
| ParamStore.SetRowFrame | splink/params.py:101-102 | storing a row stores its m and u values and leaves the proportion and every other level unchanged |
| ParamStore.StoreRowKeepsLaterRows | splink/params.py:95-102 | storing the next row keeps the proportion and every row that is still the last one for its level |
| ParamStore.ResetAllProbabilities | splink/params.py:93 | the parameters stay a dictionary, and every key outside `π` is unchanged |
| ParamStore.ResetAt | splink/params.py:93 | each match or non-match level dictionary of each comparison is reset where it exists; where it does not, the read fails as before |
| ParamStore.ResetNullsProbabilities | splink/params.py:93 | every m or u probability that existed before the reset reads None after it |
| ParamStore.ResetKeepsLevelDicts | splink/params.py:93 | the reset keeps exactly the level dictionaries that were there |
| ParamStore.ResetKeepsComparisons | splink/params.py:93 | the reset keeps every comparison under `π` and every key of it other than the two distributions |
| ParamStore.ResetKeepsLevelFields | splink/params.py:93 | the reset keeps every level of both distributions and every key of a level other than `probability` |
| ParamStore.ResetKeepsPiShape | splink/params.py:93 | `π` keeps its shape through the reset: the same comparisons and levels, and every value other than the probabilities |
| ParamStore.ProportionKeepsPiShape | splink/params.py:91 | writing `proportion_of_matches` leaves `π` as it was |
| ParamStore.WriteKeepsPiShape | splink/params.py:95-102 | writing one m or u probability keeps the shape of `π` |
| ParamStore.StepKeepsPiShape | splink/params.py:95-102 | storing a row's m and u keeps the shape of `π` |
| ParamStore.ProbabilityList | splink/params.py:572-578 | the list holds each level's "probability", in the saved order |
| ParamStore.UpdatedComparisonCopies | splink/params.py:557-585 | a comparison whose label is saved with the same number of levels gets the saved m and u lists; every other comparison is unchanged |
| ParamStore.UpdatedComparisonFrame | splink/params.py:557-585 | copying the saved lists changes no key of the comparison other than `m_probabilities` and `u_probabilities` |
| ParamStore.GetOrUpdateSettings | splink/params.py:549-587 | empty settings fall back to the stored settings, which are then updated in place; the result is the specified update of the chosen settings, so it goes through exactly when λ is readable, the settings are a dictionary holding `comparison_columns`, and each listed comparison can be updated (a value that is not a list must iterate to nothing), and otherwise carries the error of the first step that fails; on success proportion_of_matches is λ, every comparison is updated as specified, and the other fields are unchanged |
| ParamStore.UpdatedSettingsSucceeds | splink/params.py:549-587 | the specified update goes through exactly when λ is readable, the settings are a dictionary holding `comparison_columns`, and each listed comparison can be updated, or a non-list value iterates to nothing |
| ParamStore.UpdatedSettingsMeaning | splink/params.py:549-587 | a successful update has proportion_of_matches equal to λ, each listed comparison replaced by its update, in order, and every other settings key unchanged |
| ParamStore.UpdatedListSucceeds | splink/params.py:557-585 | updating the list goes through exactly when every comparison can be updated, and then gives one update per comparison, in order |
| ParamStore.UpdateComparisons | splink/params.py:557-585 | the loop writes back exactly the specified list update, or stops with the error of the first comparison that cannot be updated |
| ParamStore.Params.constructor | splink/params.py:59-80 | empty history, iteration 0, the original settings kept, and the completed settings used for both settings and params |
| ParamStore.Params.ToDict | splink/params.py:193-200 | loading the saved dictionary returns exactly the stored fields |
| ParamStore.Params.SaveParamsToJsonFile | splink/params.py:202-221 | raises ValueError without a path, and for an existing file without overwrite; otherwise writes a dictionary that loads back to the stored fields |
| ParamStore.Params.IsConverged | splink/params.py:223-253 | fails with the error of `param_history[-1]` (IndexError for an empty list or string, KeyError for a dictionary, TypeError otherwise), when the threshold is missing, when either side is not a dictionary, or when a key is missing or not a number; otherwise the result is true exactly when every probability change is below the threshold, and the biggest change is the largest change |
| ParamStore.Params.BayesFactorIterationHistory | splink/params.py:107-142 | the rows are exactly those of the history specification: snapshot by snapshot, for each comparison listed (the keys of the current `π` for snapshot 0, the keys of snapshot t−1's `π` for snapshot t), one row per level below `num_levels`, whose column, m and u are read at their paths in that snapshot; the first read that fails gives the error; a history that is not a list gives no rows when it iterates to nothing or `π` is empty, and otherwise the error of `param_history[0]["π"]` |
| ParamStore.HistoryRowsShape | splink/params.py:107-142 | a history that is not a list yields no rows; for a list, every row belongs to one of its snapshots, with `final` exactly on the last, a level below `num_levels` and the Bayes factor m/u (None when u is 0); iterations never decrease along the rows |
| ParamStore.SnapshotsRowsShape | splink/params.py:117-141 | the rows of the first t snapshots belong to those snapshots, are consistent with the history and come in snapshot order |
| ParamStore.GammaRowsAt | splink/params.py:118-141 | every row read from one snapshot carries that snapshot's iteration and final flag, a level in range and m/u |
| ParamStore.ComparisonRowsAt | splink/params.py:121-141 | every row of one comparison carries the snapshot's iteration and final flag, a level in range and m/u |
| ParamStore.LevelRowsAt | splink/params.py:122-141 | a comparison with n levels gives exactly n rows, the i-th for level i, each carrying the comparison's `num_levels` |
| ParamStore.LevelRowFromGamma | splink/params.py:121-134 | reading a row along its full paths in the snapshot is reading it from the comparison's own dictionary, as the loop body does |
| ParamStore.NumLevelsFromGamma | splink/params.py:121-122 | reading `num_levels` along its path is reading it from `π`, then from the comparison |
| ParamStore.SnapshotsRowsFailure | splink/params.py:117-141 | once a snapshot fails, the later snapshots leave the error as it is |
| ParamStore.ComparisonHistoryRows | splink/params.py:122-141 | the level loop gives the specified rows of one comparison |
| ParamStore.SnapshotHistoryRows | splink/params.py:118-141 | the comparison loop gives the specified rows of one snapshot and hands on that snapshot's `π` keys as the next list |
| ParamStore.AllSnapshotsHistoryRows | splink/params.py:117-141 | the snapshot loop gives the specified rows of the whole history |
| ParamStore.Params.PopulateParamsFromMaximisationStep | splink/params.py:82-102 | goes through exactly when the parameters are a dictionary holding both level dictionaries of every row; then `proportion_of_matches` is λ, the last row for each level is stored as its m and u, every other probability that existed reads None, keys other than the proportion and `π` are unchanged, and `π` keeps its comparisons, their other keys, their levels and every level key other than `probability`; settings, history and iteration are never touched |
| ParamStore.PopulateStart | splink/params.py:91-93 | after λ is set and the probabilities reset, no row is stored yet, the level dictionaries are those of the original, and every probability that existed reads None |
| ParamStore.PopulateStep | splink/params.py:95-102 | storing the next row succeeds exactly when both its level dictionaries were there after the reset, and keeps every earlier row that is still last for its level |
| ParamStore.PopulatedNulls | splink/params.py:93-102 | after all rows, every probability that existed and that no row writes reads None |
| ParamStore.LoadParamsFromDict | splink/params.py:515-534 | succeeds exactly when the four keys are present, giving fresh params holding the loaded current params, history and original settings, at iteration 0 with no log-likelihood; otherwise the same error as loading |
| LinkageModel.LevelsExcludingNull | splink/em_training_session.py:244 | a level is kept exactly when it is not the null level |
| LinkageModel.ComparisonIndex | splink/em_training_session.py:241-243 | finds the first comparison with the output column name, or none when no comparison has it |
| LinkageModel.LevelIndex | splink/em_training_session.py:245-247 | finds the first level with the vector value, or none when no level has it |
| LinkageModel.WithoutTermFrequencies | splink/estimate_u.py:62-64 | every level loses its term-frequency column, and nothing else changes |
| LinkageModel.Linker.DeepCopy | splink/estimate_u.py:53 | the copy has a fresh settings object with equal fields |

## Left out

- SQL execution, the database back ends, the pipeline and repartitioning after blocking are not modelled. What the SQL computes enters as a parameter:
  - the rule-satisfaction matrix of the pairs;
  - the tables;
  - the row counts;
  - the EM history;
  - the u-estimation parameter records.

  The pre-filter count stages are evaluated by a small relational interpreter over those tables.
- The cartesian-product query and `calculate_cartesian`/`calculate_reduction_ratio` are outside the model. The cartesian count is a parameter, and the reduction-ratio text is not built.
- Returning a pandas DataFrame (`return_dataframe`) is not modelled; the records are returned as a list.
- AnalyseBlocking.CountComparisonsFromBlockingRulePreFilterConditionsSqls: the SQL text is modelled as structured queries. The `key_i` aliases are their indices, and the string formatting is not reproduced.
- AnalyseBlocking.NumberOfComparisonsGeneratedByBlockingRulePostFiltersSql: the where condition (built by `_sql_gen_where_condition` in blocking.py, which is not part of this model) is a parameter.
- Parsing a blocking rule's SQL into equi-join conditions and columns (sqlglot) is not modelled. Both enter as parameters.
- EmTrainingSession.Session.constructor: the comparison levels implied by the training rule (`_get_comparison_levels_corresponding_to_training_blocking_rule`) enter as a parameter.
- EmTrainingSession.Session.Train: `expectation_maximisation` itself is not modelled. Its history enters as a parameter.
- EmTrainingSession.Session.Train: the trained probabilities are appended as plain values; `LEVEL_NOT_OBSERVED_TEXT` is the `NotObserved` constructor.
- Logging, charts (`_iteration_history_records`, the three chart methods) and `__repr__` are not modelled.
- `prob_to_bayes_factor` and `bayes_factor_to_prob` (misc.py, not part of this model) are written as p/(1−p) and b/(1+b). A probability of exactly 1 is excluded by the requires.
- ParamStore.Params.constructor: `complete_settings_dict` (settings.py, not part of this model) and the Spark session are replaced by a completed-settings parameter.
- ParamStore.ResetAllProbabilities: `Settings.reset_all_probabilities` and `set_m_probability`/`set_u_probability` (settings.py, not part of this model) are modelled as JSON writes under the π sub-dictionary at `prob_dist_match`/`prob_dist_non_match`, `level_<n>`, `probability`. The `force` flag and fixed-probability checks are not modelled.
- ParamStore.Params.SaveParamsToJsonFile: `os.path.isfile` is the `fileExists` parameter. The file write and JSON indentation are not modelled; the written dictionary is returned.
- `load_params_from_json` (file reading and JSON parsing) is not modelled; `load_params_from_dict` is.
- ParamStore.GetOrUpdateSettings: `_get_default_value("num_levels", ...)` (validate.py, not part of this model) is the `defaultNumLevels` parameter. The warning is not modelled.
- ParamStore.GetOrUpdateSettings: in-place mutation of a caller-supplied settings dictionary is modelled by returning the updated dictionary. Aliasing with the stored settings is kept only for the fallback case. There the comparison loop works on a value, and the stored settings receive the dictionary as far as the loop got once it ends or fails; nothing runs in between that could see the difference.
- ParamStore.Params.BayesFactorIterationHistory: Python's `KeyError(0)` and `KeyError(-1)` on a dictionary-valued `param_history` carry the key as the text "0" and "-1".
- The `@check_types` decorator is not modelled.
- ParamStore.Lower: `str.lower` is modelled for ASCII letters only.
- ParamStore.Params.IsConverged: the result and the biggest change are returned; the log message is not built.
- ParamStore.Params.IsConverged: Python's `abs` and `<` on the values are modelled on reals. A non-numeric value is a TypeError, and a key missing from the old parameters is a KeyError.
- `save_params_to_iteration_history`, `_update_params` and `_reset_param_values` are not modelled. The first uses an unimported `copy` module, and the second calls methods that do not exist (`_reset_param_values_to_none`, `_populate_params`). As written, neither can run.
- The other history helpers are not modelled: `_iteration_history_df_gammas` calls a method that does not exist, and `_iteration_history_df_lambdas`/`_iteration_history_df_log_likelihood` only feed charts.
- The presentational part of params.py is not modelled: charts, `_print_m_u_probs`, `__repr__` and `get_settings_with_current_params`, which only delegates.
- ParamStore.Params.BayesFactorIterationHistory: Python's dictionary key order is the order of the entries.
- ParamStore.Params.BayesFactorIterationHistory: `range` over a non-integer `num_levels` is a TypeError. A failure inside an iteration ends the whole call, as the exception does.
- EstimateU: the square root in `_num_target_rows_to_rows_to_sample` is a parameter `root` with root² = 8t+1.
- EstimateU: `log10` and `ceil` in `_num_target_rows_to_pairs_to_sample` are not modelled. Only the domain of the two logarithms, where the call fails or succeeds, is modelled.
- EstimateU: random sampling, `_random_sample_sql` and the generated sample tables are not modelled.
- EstimateU.EstimateUValues: `compute_new_parameters_sql` is enqueued on the original linker rather than the training copy. This pipeline side effect is not modelled.
- EstimateU.ULookup: `m_u_records_to_lookup_dict` and `append_u_probability_to_comparison_level_trained_probabilities` (m_u_records_to_parameters.py, not part of this model) are modelled as: the last record for the comparison name and vector value wins, and a level with no record gets "not observed".
- Integer widths: counts are unbounded naturals, and probabilities are exact reals. Floating-point rounding is not modelled.

## Findings

| source | as written | input that shows it | evidently intended | confidence | as-written member | corrected member |
|---|---|---|---|---|---|---|
| splink/analyse_blocking.py:293-294 | the count is `int(res["count_of_pairwise_comparisons_generated"])`, and with equi-join keys that value is `SUM(block_count)` over the inner join | a blocking rule `l.first_name = r.first_name` over one record whose first_name is NULL: both group-by tables hold one NULL-key row, the join on the NULL key is empty, SUM over no rows is NULL, and `int(None)` raises TypeError (a back end that hands the NULL over as NaN would raise ValueError instead; the model follows the None case) | a rule that generates no pairs counts 0 comparisons | medium, not executed | AnalyseBlocking.PreFilterCountAsWritten, AnalyseBlocking.AllNullKeysRaiseTypeError | AnalyseBlocking.PreFilterCount |
