# Perturbation pipeline of the AP-1 network steady-state analysis

This project models `PerturbationPipeline` and its two helper functions in
Dafny. The pipeline takes a table of kinetic parameter sets and initial
conditions for the AP-1 network (FOS, JUN, FRA1, FRA2, JUND). Each row is
keyed by `(param_index, init_cond_index)`. On that table the pipeline
chains genetic perturbations:

- knockout: set or multiply the gene's parameters;
- knockdown: scale the gene's basal production by a random multiplier per row;
- overexpression: multiply the gene's parameters by a random or fixed multiplier.

For each perturbation the pipeline:

- re-solves every row for its steady state;
- drops the parameter sets whose simulation failed, everywhere;
- tags the new species columns with the perturbation (`cFOS post FOSKO`, `cJUN post FOSKO JUNKD`);
- copies them back under the input names (`fos`, …) for the next step;
- records the step in `perturbation_history`.

At the end it merges all steps into one table and names the output file.

The project's modules:

| module | file | what it holds |
|---|---|---|
| `Wrappers`, `Seqs`, `Text` | `wrappers.dfy`, `seqs.dfy`, `text.dfy` | `Option`/`Result`; list comprehensions, `dict.fromkeys`; `str` operations (`split`, `join`, `startswith`, `in`, decimal digits) |
| `Frames` | `frames.dfy` | a table as columns plus keyed rows: the pandas operations the pipeline uses (row filter, rename, column assignment, left and inner merge on the key, `df.at` writes) |
| `Schema` | `schema.dfy` | `STATE_MAPPINGS`, `PROTEIN_PARAMETERS`, the errors raised, `get_protein_parameters`, `reorder_for_simulation` |
| `Lineage` | `lineage.dfy` | the history entries, `_update_state_names`, `_rename_back_to_input`, the post-knockout reverse rename |
| `Engine` | `engine.dfy` | `perturb_params` and `create_controlled_knockdown_multipliers` |
| `Runner` | `runner.dfy` | `run_simulations_with_duplicates`, with the solver as a parameter |
| `Pipeline` | `pipeline.dfy` | the pipeline state, each operation as a function of the state, and the class `PerturbationPipeline`, whose methods update its four fields in place and are proved equal to those functions |
| `PipelineFacts` | `pipeline_facts.dfy` | what each operation promises: outcomes, errors, values written, the failed-set invariant over any sequence of calls |
| `Assembly` | `assembly.dfy` | `get_final_results` |
| `FileNames` | `file_names.dfy` | the file name of `save_results`, including Python's `:.2f`/`:.4f` formatting |

Every operation is a function of its inputs. A `method` with loops does the
same work the way the source does, and its `ensures` ties it to that
function. Lemmas prove the properties of the functions.

Behaviour of the code worth knowing (the model follows the code in each case):

- **Reset can bring failed rows back** (`src/COLO858_pertrubation_analysis.py:1036-1052`).
  - `reset_to_last_knockout` cuts the history after the last knockout and makes that knockout's stored results the current table again.
  - Those results can hold parameter sets that a later step marked failed.
  - `PipelineFacts.ResetMayRestoreFailedRows` exhibits such a state. The invariant proved over any sequence of calls is about the initial table (`PipelineFacts.RunPreserves`).
- **A knockout purges failed sets before it can raise** (`src/COLO858_pertrubation_analysis.py:543`, `600-619`).
  - `perform_knockout` calls `_handle_failed_simulations` right after the simulation. That removes the failed sets from both tables.
  - Only then does it raise when no rows are left. The purged tables stay (`PipelineFacts.KnockoutOutcome`).
- **Knockdown and overexpression have no empty-result check** (`src/COLO858_pertrubation_analysis.py:726-790`, `880-975`).
  - Neither method tests the length of its results before appending to the history.
  - So they record a step even when every row was dropped.
- **The parameter-name shortening gives `fos)` for `(basal_fos).v`** (`src/COLO858_pertrubation_analysis.py:1164-1168`).
  - The comment at 1164 pairs `(basal_fos).v` with the short name `v`.
  - The code keeps the text after the last `_` of the second-to-last `.`-segment, which is `fos)`.
  - `FileNames.ParamShortExample` states the result as computed.
- **A knocked-down parameter is not refreshed in the final table** (`src/COLO858_pertrubation_analysis.py:1073-1082`).
  - `get_final_results` adds to `perturbed_params` only the targets of knockouts (`ko_params`) and overexpressions (`oe_params`).
  - A gene that was only knocked down therefore keeps its initial `(basal_<gene>).v` in the final table. Its effect shows only in `knockdown_multiplier` and the `post <gene>KD` species columns.
  - `Assembly.TrackedMembers` together with `Assembly.MergedValues` and `Assembly.FinalRows` states this.

## Model

| member | source | states |
|---|---|---|
| `Schema.Entry` | src/COLO858_pertrubation_analysis.py:169-172 | a dictionary lookup finds nothing exactly when no item has the key |
| `Schema.ProteinParameters` | src/COLO858_pertrubation_analysis.py:169-170 | a protein missing from `PROTEIN_PARAMETERS` raises `UnknownProtein` |
| `Schema.GetProteinParameters` | src/COLO858_pertrubation_analysis.py:167-186 | the two extend-loops return exactly `ProteinParameters` |
| `Schema.SelectTypesFails` | src/COLO858_pertrubation_analysis.py:181-186 | selecting types fails iff some requested type is unknown; the error names the first unknown type, and all types before it are known |
| `Schema.EntryIsTypeName` | src/COLO858_pertrubation_analysis.py:183 | a type is found iff it is among the protein's type names |
| `Schema.SelectTypesAppend` | src/COLO858_pertrubation_analysis.py:182-185 | selecting `a + b` concatenates the selections of `a` and of `b` |
| `Schema.SelectAllTypes` | src/COLO858_pertrubation_analysis.py:174-178 | selecting all type names in declared order yields all lists concatenated, as the `parameter_types=None` branch does |
| `Schema.SelectTypesSkipsHead` | src/COLO858_pertrubation_analysis.py:182-185 | a type that is not requested contributes nothing |
| `Schema.GetProteinParametersDefault` | src/COLO858_pertrubation_analysis.py:174-186 | no `parameter_types` gives the same result as requesting every type of the protein |
| `Schema.KnockdownTargetIsBasal` | src/COLO858_pertrubation_analysis.py:659 | for every gene of the table, the knockdown target `(basal_<gene lower>).v` is exactly the gene's `basal` list |
| `Schema.SelectFirstType` | src/COLO858_pertrubation_analysis.py:182-185 | selecting just the first type yields its list |
| `Schema.ReorderForSimulationLayout` | src/COLO858_pertrubation_analysis.py:96-121 | the result has exactly the layout's columns the table has, in layout order, the same rows and keys, and the kept cells unchanged |
| `Frames.Lookup` | src/COLO858_pertrubation_analysis.py:592-597 | a keyed lookup returns a row of the table with that key, and misses exactly when the key is absent |
| `Frames.Purge` | src/COLO858_pertrubation_analysis.py:413 | `~isin(failed)` keeps the columns and exactly the rows whose parameter set did not fail |
| `Frames.RenameColumnFacts` | src/COLO858_pertrubation_analysis.py:448 | renaming one column moves its cells to the new name and leaves every other column and every key as it was |
| `Frames.RenameColumnsFacts` | src/COLO858_pertrubation_analysis.py:448 | renaming with a collision-free map moves each present source column to its target and keeps all other cells and keys |
| `Frames.AssignFacts` | src/COLO858_pertrubation_analysis.py:238 | `df[c] = vals` overwrites or appends column `c` with `vals` and changes nothing else |
| `Frames.InnerMergeFacts` | src/COLO858_pertrubation_analysis.py:1101-1106 | the inner merge keeps exactly the keys both sides have; the new columns come from the right row, and the rest from the left row |
| `Frames.SetAt` | src/COLO858_pertrubation_analysis.py:1115-1118 | the row-by-row `df.at` loop computes `AtRows` |
| `Frames.AtRowsFacts` | src/COLO858_pertrubation_analysis.py:1115-1118 | rows whose key has a value get it in column `c`; all other rows and columns are untouched, and keys and column order are kept |
| `Seqs.Dedupe` | src/COLO858_pertrubation_analysis.py:1136 | `dict.fromkeys` keeps each element once, loses none, and keeps them in order of first occurrence |
| `Seqs.DedupeKeepsPrefix` | src/COLO858_pertrubation_analysis.py:1136 | a duplicate-free prefix survives de-duplication in place |
| `Lineage.NamePairsIndependent` | src/COLO858_pertrubation_analysis.py:425-446 | the rename map of `_update_state_names` never renames onto a renamed column and has distinct sources and targets |
| `Lineage.UpdateStateNames` | src/COLO858_pertrubation_analysis.py:417-448 | the loop that builds the rename map and renames computes `StateNames` |
| `Lineage.StateNamesTagged` | src/COLO858_pertrubation_analysis.py:417-448 | after renaming, no bare output species column is left; each present species sits under `<species> <suffix>` with its cells; every other column is unchanged |
| `Lineage.OutputNamesExclusive` | src/COLO858_pertrubation_analysis.py:1005 | no column name starts with two different output species names, so `startswith` picks one species |
| `Lineage.OutputsExclusive` | src/COLO858_pertrubation_analysis.py:1005 | no entry of the output species list is a prefix of another, so no column name starts with two of them |
| `Lineage.RenameBackToInput` | src/COLO858_pertrubation_analysis.py:977-1016 | the method computes `RenamedBackToInput` |
| `Lineage.CollectPostColumns` | src/COLO858_pertrubation_analysis.py:987-995 | the nested loop collects the `post` columns species by species |
| `Lineage.CollectBlock` | src/COLO858_pertrubation_analysis.py:988-995 | the inner loop collects, in column order, exactly the columns that start with the species name and contain `post` |
| `Lineage.FirstMatches` | src/COLO858_pertrubation_analysis.py:1002-1008 | the loop picks the first collected column per species |
| `Lineage.FirstTaggedIsLeftmost` | src/COLO858_pertrubation_analysis.py:1005-1008 | a species has no match iff no column starts with it and contains `post`; otherwise the match is the leftmost such column |
| `Lineage.MatchingBlock` | src/COLO858_pertrubation_analysis.py:1005 | filtering the collected columns by a species' name gives exactly that species' block |
| `Lineage.MatchingAll` | src/COLO858_pertrubation_analysis.py:1002-1005 | filtering all collected blocks by a species name gives exactly that species' tagged columns |
| `Lineage.InputNotTagged` | src/COLO858_pertrubation_analysis.py:1012-1014 | no input species name starts with an output species name, so a copy never overwrites a source column |
| `Lineage.CopyPairsAreTagged` | src/COLO858_pertrubation_analysis.py:1002-1008 | the copy map pairs each species' first tagged column with its input name |
| `Lineage.TaggedCopiesColumns` | src/COLO858_pertrubation_analysis.py:1012-1014 | copying keeps the columns in order and adds only the filled input names |
| `Lineage.TaggedCopiesCells` | src/COLO858_pertrubation_analysis.py:1012-1014 | each filled input column holds its tagged column's cells; all other cells are unchanged |
| `Lineage.RenamedBackFills` | src/COLO858_pertrubation_analysis.py:977-1016 | `_rename_back_to_input` keeps the rows, keys, columns and other cells, and fills each species that has a tagged column under its input name with that column's cells |
| `Lineage.ReverseRename` | src/COLO858_pertrubation_analysis.py:673-680 | the loop building `reverse_rename` plus the rename computes the rename by `KoReversePairs` |
| `Lineage.KoReversePairs` | src/COLO858_pertrubation_analysis.py:673-677 | the names the reverse rename looks for, `<species> post <gene>KO`, are the names a knockout of the gene gives the species |
| `Lineage.KoReversePairsIndependent` | src/COLO858_pertrubation_analysis.py:673-677 | the reverse map from `<species> post <gene>KO` to input names is collision-free |
| `Lineage.RestoreStateColumnsFacts` | src/COLO858_pertrubation_analysis.py:662-686 | the state check raises iff states are missing after a knockout and some missing state has no tagged column; otherwise it restores all states; it changes nothing when no state is missing or the last step was no knockout; keys are kept and each restored state holds the tagged cells |
| `Engine.CreateControlledKnockdownMultipliers` | src/COLO858_pertrubation_analysis.py:339-406 | the method computes `ControlledMultipliers`; it makes at most 3 fine-tuning passes, and stopping early means the mean is within 0.001 of the target |
| `Engine.RescaleWithin` | src/COLO858_pertrubation_analysis.py:389-394 | after rescaling and clipping, every value lies in `[min_val, max_val]` or is NaN |
| `Engine.RescaleKeepsNumbers` | src/COLO858_pertrubation_analysis.py:389-394 | values inside a positive range stay numbers inside that range |
| `Engine.FineTuneWithin` | src/COLO858_pertrubation_analysis.py:397-404 | the fine-tuning passes keep every value in range or NaN |
| `Engine.FineTuneKeepsNumbers` | src/COLO858_pertrubation_analysis.py:397-404 | the fine-tuning passes keep in-range numbers in range |
| `Engine.ScaledDrawsWithin` | src/COLO858_pertrubation_analysis.py:380-384 | beta draws in `[0,1]` scaled to `min + raw*(max-min)` lie in `[min, max]` |
| `Engine.ControlledMultipliersBounds` | src/COLO858_pertrubation_analysis.py:339-406 | the controlled multipliers lie in `[min_val, max_val]` (or are NaN); with a positive lower bound and unit draws they are all numbers in range |
| `Engine.MeanAtMost` | src/COLO858_pertrubation_analysis.py:397-399 | the mean of values bounded by `max_val` is at most `max_val` |
| `Engine.UnreachableTarget` | src/COLO858_pertrubation_analysis.py:396-404 | a target at least 0.001 above `max_val` is never reached, so all three passes run |
| `Engine.BetaKnockdownBounds` | src/COLO858_pertrubation_analysis.py:231-234 | beta knockdown multipliers `0.01 + 0.99*raw` lie in `[0.01, 1]` |
| `Engine.BetaOverexpressionBounds` | src/COLO858_pertrubation_analysis.py:852-859 | beta overexpression multipliers `1 + (max_mult-1)*raw` lie in `[1, max_mult]` |
| `Engine.ScaleParamsShape` | src/COLO858_pertrubation_analysis.py:239-240 | multiplying parameter columns keeps rows, keys and column order and adds only the targets |
| `Engine.ScaleParamsCells` | src/COLO858_pertrubation_analysis.py:239-240 | each target cell becomes the old cell times that row's multiplier |
| `Engine.ScaleParamsOthers` | src/COLO858_pertrubation_analysis.py:239-240 | non-target cells are unchanged |
| `Engine.SetParamsShape` | src/COLO858_pertrubation_analysis.py:289-291 | setting parameter columns keeps rows, keys and column order and adds only the targets |
| `Engine.SetParamsCells` | src/COLO858_pertrubation_analysis.py:289-291 | every target cell holds `ko_value`; every other cell is unchanged |
| `Engine.MarkMultipliersShape` | src/COLO858_pertrubation_analysis.py:317-323 | one `knockout_mult_*` column appears per custom multiplier of a target; nothing else is added |
| `Engine.MarkMultipliersOthers` | src/COLO858_pertrubation_analysis.py:320-323 | cells outside the `knockout_mult_*` columns are unchanged |
| `Engine.MarkMultipliersValues` | src/COLO858_pertrubation_analysis.py:320-323 | each `knockout_mult_<name>` column holds the multiplier of the last dictionary entry that writes it |
| `Engine.MultipliedTargets` | src/COLO858_pertrubation_analysis.py:300-308 | a multiplying knockout multiplies each target by `param_multipliers.get(param, ko_multiplier)` |
| `Engine.MultipliedRecords` | src/COLO858_pertrubation_analysis.py:316-325 | without custom multipliers, `knockout_multiplier` holds `ko_multiplier`; with them, `knockout_custom_multipliers` is True |
| `Engine.CustomFlagKept` | src/COLO858_pertrubation_analysis.py:316-323 | writing the `knockout_mult_*` columns never clears the `knockout_custom_multipliers` flag |
| `Engine.PerturbedErrors` | src/COLO858_pertrubation_analysis.py:217-329 | `perturb_params` raises, in this order: missing parameters (all listed, in order) iff some target is not a column; an empty-table read iff all are present, there are targets, and there are no rows; an unknown approach or method iff everything before passed and the name is unknown |
| `Engine.PerturbedKeepsRows` | src/COLO858_pertrubation_analysis.py:217-337 | a successful perturbation keeps rows, keys and column order, and adds only bookkeeping columns |
| `Engine.KnockedDownKeepsRows` | src/COLO858_pertrubation_analysis.py:230-274 | a knockdown keeps rows, keys and column order and adds only bookkeeping columns |
| `Engine.SettingKeepsRows` | src/COLO858_pertrubation_analysis.py:286-291 | a `set` knockout keeps rows, keys and column order and adds only bookkeeping columns |
| `Engine.MultiplyingKeepsRows` | src/COLO858_pertrubation_analysis.py:295-327 | a `multiply` knockout keeps rows, keys and column order and adds only bookkeeping columns |
| `Engine.PerturbedKnockoutSet` | src/COLO858_pertrubation_analysis.py:286-291 | a `set` knockout writes `ko_value` into every target and into `knockout_value` |
| `Engine.PerturbedKnockoutMultiply` | src/COLO858_pertrubation_analysis.py:295-327 | a `multiply` knockout multiplies each target by its multiplier and records the default or custom marker |
| `Engine.PerturbedKnockdown` | src/COLO858_pertrubation_analysis.py:230-274 | a knockdown with a known approach multiplies each target row by the row's multiplier and stores the multiplier in `knockdown_multiplier` |
| `Engine.KnockedDownCells` | src/COLO858_pertrubation_analysis.py:237-240 | with targets listed once and distinct from `knockdown_multiplier`, each target cell is the old cell times its row's multiplier and the multiplier column holds the multipliers |
| `Engine.PerturbedLeavesOthers` | src/COLO858_pertrubation_analysis.py:217-337 | cells of non-target, non-bookkeeping columns are unchanged |
| `Engine.MultiplyColumns` | src/COLO858_pertrubation_analysis.py:239-240 | the loop over targets computes `ScaleParams` |
| `Engine.SetColumns` | src/COLO858_pertrubation_analysis.py:290-291 | the loop over targets computes `SetParams` |
| `Engine.RecordMultipliers` | src/COLO858_pertrubation_analysis.py:320-323 | the loop over `param_multipliers` computes `MarkMultipliers` |
| `Engine.PerturbParams` | src/COLO858_pertrubation_analysis.py:188-337 | the method computes `Perturbed` |
| `Engine.MissingParameters` | src/COLO858_pertrubation_analysis.py:221-223 | the comprehension lists, in order, exactly the parameters that are not columns |
| `Engine.KnockDown` | src/COLO858_pertrubation_analysis.py:230-274 | once every target is a readable column, the knockdown branch computes `Perturbed` |
| `Engine.DrawKnockdownMultipliers` | src/COLO858_pertrubation_analysis.py:230-281 | the multipliers come from the `beta`, `truncnorm` or `direct` draw by approach, and any other approach yields no multipliers (the `ValueError`) |
| `Engine.KnockOut` | src/COLO858_pertrubation_analysis.py:276-329 | once every target is a readable column, the knockout branch computes `Perturbed` |
| `Runner.PairsOf` | src/COLO858_pertrubation_analysis.py:75-77 | one parameter set's pairs are exactly the table's keys with that `param_index`, each once |
| `Runner.PairsMembers` | src/COLO858_pertrubation_analysis.py:75-79 | the pairs visited are exactly the table's keys whose parameter set was requested |
| `Runner.PairsDistinct` | src/COLO858_pertrubation_analysis.py:75-79 | distinct parameter sets give distinct pairs |
| `Runner.RunSimulationsWithDuplicates` | src/COLO858_pertrubation_analysis.py:47-94 | the nested loop computes `SimulationsWithDuplicates` |
| `Runner.SolveInitialConditions` | src/COLO858_pertrubation_analysis.py:79-91 | the inner loop extends the collected rows and failures by one solver call per initial condition |
| `Runner.CollectedFacts` | src/COLO858_pertrubation_analysis.py:75-91 | a parameter set is failed iff one of its pairs did not converge; a result row exists exactly for each converged pair |
| `Runner.RunnerOutcome` | src/COLO858_pertrubation_analysis.py:47-94 | failed sets were requested; any non-converged pair fails its set; the results are empty iff nothing converged; otherwise they hold the species columns and exactly the converged keys |
| `Pipeline.HandleFailed` | src/COLO858_pertrubation_analysis.py:408-415 | the failed set only grows and holds the new ids; exactly the failed sets' rows leave both tables; columns and history are kept; no failed row remains |
| `Pipeline.UniqueParamIndices` | src/COLO858_pertrubation_analysis.py:530 | `.unique()` lists each `param_index` of the table once |
| `Pipeline.LastKnockout` | src/COLO858_pertrubation_analysis.py:1042-1045 | no index iff the history has no knockout; otherwise the index of a knockout after which none follows |
| `Pipeline.FindLastKnockout` | src/COLO858_pertrubation_analysis.py:1042-1045 | the `enumerate` loop computes `LastKnockout` |
| `Pipeline.ReadsEmptyTable` | src/COLO858_pertrubation_analysis.py:491-496 | the debug loop reads an empty table iff there are no rows and some target is a column |
| `Pipeline.MultiplyFromInitial` | src/COLO858_pertrubation_analysis.py:586-599 | the nested `iterrows` loop computes `MultipliedFromInitial` |
| `Pipeline.RefreshTargets` | src/COLO858_pertrubation_analysis.py:765-774 | the loop over knockdown targets computes `Refresh` |
| `Pipeline.RefreshPresentTargets` | src/COLO858_pertrubation_analysis.py:930-939 | the loop refreshes exactly the targets present in the perturbed table |
| `Pipeline.Overexpress` | src/COLO858_pertrubation_analysis.py:878-885 | the multiply-and-print loop computes `Overexpressed` |
| `Pipeline.PerturbationPipeline.constructor` | src/COLO858_pertrubation_analysis.py:124-165 | both tables are the given table; no failures; empty history |
| `Pipeline.PerturbationPipeline.SaveState` | src/COLO858_pertrubation_analysis.py:1019-1027 | returns the four fields |
| `Pipeline.PerturbationPipeline.LoadState` | src/COLO858_pertrubation_analysis.py:1029-1034 | the four fields become the saved ones |
| `Pipeline.PerturbationPipeline.HandleFailedSimulations` | src/COLO858_pertrubation_analysis.py:408-415 | the new state is `HandleFailed` of the old |
| `Pipeline.PerturbationPipeline.PerformKnockout` | src/COLO858_pertrubation_analysis.py:450-652 | the new state and the result are `KnockoutStep` of the old state |
| `Pipeline.FindKnockoutTargets` | src/COLO858_pertrubation_analysis.py:479-486 | the choice of targets computes `KnockoutTargets`: custom parameters first, else the gene's parameters, else an error |
| `Pipeline.WriteKnockout` | src/COLO858_pertrubation_analysis.py:561-611 | the merge with the initial parameters and the overwrite loop compute `KnockoutWritten` |
| `Pipeline.PerturbationPipeline.KnockoutWith` | src/COLO858_pertrubation_analysis.py:491-519 | from the target check on, the new state and result are `KnockoutOf` of the old state |
| `Pipeline.PerturbationPipeline.SimulateKnockout` | src/COLO858_pertrubation_analysis.py:528-546 | from the simulation on, the new state and result are `KnockoutSimulated` of the old state |
| `Pipeline.PerturbationPipeline.RecordKnockout` | src/COLO858_pertrubation_analysis.py:548-650 | from the renaming on, the new state and result are `KnockoutRecorded` of the old state |
| `Pipeline.PerturbationPipeline.RestoreStates` | src/COLO858_pertrubation_analysis.py:662-686 | the current table becomes `RestoreStateColumns` of it, with its error; the other fields are unchanged |
| `Pipeline.PerturbationPipeline.PerformKnockdown` | src/COLO858_pertrubation_analysis.py:654-790 | the new state and the result are `KnockdownStep` of the old state |
| `Pipeline.PerturbationPipeline.SimulateKnockdown` | src/COLO858_pertrubation_analysis.py:725-735 | from the simulation on, the new state and result are `KnockdownSimulated` of the old state |
| `Pipeline.PerturbationPipeline.RecordKnockdown` | src/COLO858_pertrubation_analysis.py:737-790 | from the multiplier merge on, the new state and result are `KnockdownRecorded` of the old state |
| `Pipeline.PerturbationPipeline.PerformOverexpression` | src/COLO858_pertrubation_analysis.py:792-975 | the new state and the result are `OverexpressionStep` of the old state |
| `Pipeline.PerturbationPipeline.SimulateOverexpression` | src/COLO858_pertrubation_analysis.py:887-897 | from the simulation on, the new state and result are `OverexpressionSimulated` of the old state |
| `Pipeline.PerturbationPipeline.RecordOverexpression` | src/COLO858_pertrubation_analysis.py:899-975 | from the multiplier merge on, the new state and result are `OverexpressionRecorded` of the old state |
| `Pipeline.PerturbationPipeline.ResetToLastKnockoutStep` | src/COLO858_pertrubation_analysis.py:1036-1052 | the new state is `ResetToLastKnockout` of the old |
| `Pipeline.PerturbationPipeline.GetFinalResults` | src/COLO858_pertrubation_analysis.py:1054-1142 | returns `FinalResults` of the initial table and the history |
| `Pipeline.PerturbationPipeline.SaveResultsFileName` | src/COLO858_pertrubation_analysis.py:1144-1202 | returns `FileName` of the history |
| `PipelineFacts.AdvanceKeys` | src/COLO858_pertrubation_analysis.py:635-638 | the next current table has the results' rows and keys |
| `PipelineFacts.SimulateFacts` | src/COLO858_pertrubation_analysis.py:528-546 | simulating purges the newly failed sets; the filtered results hold only the species columns, no failed set, and only keys of the perturbed table |
| `PipelineFacts.InitialTimes` | src/COLO858_pertrubation_analysis.py:597-598 | a key missing from the initial table reads as 0 |
| `PipelineFacts.WrittenFromInitialShape` | src/COLO858_pertrubation_analysis.py:581-599 | writing the targets keeps rows, keys and column order and adds only targets |
| `PipelineFacts.WrittenFromInitialValues` | src/COLO858_pertrubation_analysis.py:586-599 | each target cell is the initial value for the key (0 if absent) times its multiplier; other cells are unchanged |
| `PipelineFacts.KnockoutSucceeded` | src/COLO858_pertrubation_analysis.py:450-652 | a successful knockout passed every check, and its result and new state are the tagged, merged, written results and the advanced state |
| `PipelineFacts.KnockoutWrittenValues` | src/COLO858_pertrubation_analysis.py:581-599 | every target cell of the results is `ko_value` (set) or initial value times multiplier (multiply) |
| `PipelineFacts.KnockoutSetValues` | src/COLO858_pertrubation_analysis.py:581-585 | a `set` knockout's results are non-empty, and every target cell is `ko_value` |
| `PipelineFacts.KnockoutMultiplyValues` | src/COLO858_pertrubation_analysis.py:586-599 | a `multiply` knockout's results are non-empty, and every target cell is the purged initial table's value times the multiplier |
| `PipelineFacts.KnockoutWrittenShape` | src/COLO858_pertrubation_analysis.py:550-616 | the knockout results keep the simulated keys and carry all five tagged species columns |
| `PipelineFacts.KnockoutOutcome` | src/COLO858_pertrubation_analysis.py:450-652 | failed only grows; initial columns are kept; an error leaves the history alone, and leaves the state untouched unless it came after the simulation; no-rows leaves the purged tables; success appends the step, makes the renamed-back results current, holds no failed row, and tags all species |
| `PipelineFacts.SimulatedKnockoutOutcome` | src/COLO858_pertrubation_analysis.py:528-650 | from the simulation on: failed only grows, the initial table stays free of failed rows, errors are a missing index or no valid results and keep the history, success appends one tagged record and makes its renamed-back results current |
| `PipelineFacts.RefreshFacts` | src/COLO858_pertrubation_analysis.py:765-771 | refreshed targets take the perturbed table's cell for the key, or NaN; other cells and all keys are kept |
| `PipelineFacts.RecombinedValues` | src/COLO858_pertrubation_analysis.py:737-774 | after the merges, every results row carries the perturbed row's multiplier and target values for its key |
| `PipelineFacts.KnockdownSucceeded` | src/COLO858_pertrubation_analysis.py:654-790 | a successful knockdown restored the states, used a known approach, perturbed and simulated, and its result is the recombined table |
| `PipelineFacts.KnockdownOutcome` | src/COLO858_pertrubation_analysis.py:654-790 | failed only grows; a restore error is raised; an unknown approach fails; errors keep the history and, unless after the simulation, keep only the in-place state rename |
| `PipelineFacts.SimulatedKnockdownOutcome` | src/COLO858_pertrubation_analysis.py:725-790 | from the simulation on, a knockdown fails only for a missing parameter index, keeps the history then, and keeps the initial table free of failed rows |
| `PipelineFacts.KnockdownKeepsFailedOut` | src/COLO858_pertrubation_analysis.py:725-788 | success appends the step, makes the renamed-back results current, and no table holds a failed row |
| `PipelineFacts.KnockdownValues` | src/COLO858_pertrubation_analysis.py:691-774 | each results row's target is the restored value times that row's knockdown multiplier, which is also recorded |
| `PipelineFacts.KnockdownResults` | src/COLO858_pertrubation_analysis.py:737-774 | every recombined knockdown row carries, for its key, the restored target times the row's multiplier, and that multiplier |
| `PipelineFacts.GuardFacts` | src/COLO858_pertrubation_analysis.py:878-885 | the debug reads succeed iff every multiplied target is a current column and the current table has rows |
| `PipelineFacts.OverexpressedFacts` | src/COLO858_pertrubation_analysis.py:878-885 | overexpression fails iff a multiplied target cannot be read; on success it keeps rows and columns and multiplies each present target |
| `PipelineFacts.OverexpressionSucceeded` | src/COLO858_pertrubation_analysis.py:792-975 | a successful overexpression found its targets, restored states, drew multipliers, passed the reads and simulated; its result is the recombined table |
| `PipelineFacts.OverexpressionOutcome` | src/COLO858_pertrubation_analysis.py:792-975 | failed only grows; unknown targets change nothing; restore errors, unknown methods and empty-table reads fail; errors keep the history and only the in-place rename |
| `PipelineFacts.SimulatedOverexpressionOutcome` | src/COLO858_pertrubation_analysis.py:887-975 | from the simulation on, an overexpression fails only for a missing parameter index, keeps the history then, and keeps the initial table free of failed rows |
| `PipelineFacts.OverexpressionKeepsFailedOut` | src/COLO858_pertrubation_analysis.py:887-965 | success appends the step with its targets and method, makes the renamed-back results current, and no table holds a failed row |
| `PipelineFacts.RecombinedKeys` | src/COLO858_pertrubation_analysis.py:899-927 | the merges keep the simulated rows and keys |
| `PipelineFacts.OverexpressedRows` | src/COLO858_pertrubation_analysis.py:849-885 | the perturbed table keeps the keys, and each present target is the restored value times the row's multiplier |
| `PipelineFacts.OverexpressionValues` | src/COLO858_pertrubation_analysis.py:849-939 | each results row's present targets are the restored values times that row's multiplier, which is also recorded |
| `PipelineFacts.OverexpressionResults` | src/COLO858_pertrubation_analysis.py:899-939 | recombining keeps the scaled targets and multipliers per key |
| `PipelineFacts.KnockoutInitial` | src/COLO858_pertrubation_analysis.py:543 | a knockout leaves the initial table and failed set alone, or leaves the initial table free of failed rows |
| `PipelineFacts.KnockdownInitial` | src/COLO858_pertrubation_analysis.py:731 | likewise for a knockdown |
| `PipelineFacts.OverexpressionInitial` | src/COLO858_pertrubation_analysis.py:893 | likewise for an overexpression |
| `PipelineFacts.ResetFacts` | src/COLO858_pertrubation_analysis.py:1036-1052 | without a knockout nothing changes; otherwise the history is cut right after the last knockout, its results become current, tables and failures are kept, and a second reset changes nothing |
| `PipelineFacts.ResetThenRestore` | src/COLO858_pertrubation_analysis.py:1051-1052 | after a reset, the next step's state check always succeeds and restores all species |
| `PipelineFacts.ResetMayRestoreFailedRows` | src/COLO858_pertrubation_analysis.py:1051-1052 | a state whose current table holds no failed row can, after a reset, hold one |
| `PipelineFacts.ApplyPreserves` | src/COLO858_pertrubation_analysis.py:408-415 | any call grows the failed set, keeps the initial columns, keeps the initial table free of failed rows, and keeps every knockout tagged |
| `PipelineFacts.TaggedAfter` | src/COLO858_pertrubation_analysis.py:622-631 | appending a non-knockout step or a tagged knockout keeps every recorded knockout tagged |
| `PipelineFacts.RunPreserves` | src/COLO858_pertrubation_analysis.py:408-415 | the same holds over any sequence of calls |
| `Assembly.Tracked` | src/COLO858_pertrubation_analysis.py:1062-1082 | `perturbed_params` holds no parameter twice |
| `Assembly.TrackedMembers` | src/COLO858_pertrubation_analysis.py:1071-1082 | a parameter is tracked iff some knockout or overexpression targeted it |
| `Assembly.MergeColumns` | src/COLO858_pertrubation_analysis.py:1085-1099 | a step contributes exactly its `post` and multiplier columns that are not initial parameter columns |
| `Assembly.UpdatedShape` | src/COLO858_pertrubation_analysis.py:1109-1118 | the refresh keeps rows, keys and column order and adds only tracked parameters |
| `Assembly.UpdatedValues` | src/COLO858_pertrubation_analysis.py:1109-1118 | a tracked parameter the results carry takes the results' cell where the key is found; all else is unchanged |
| `Assembly.UpdatedCell` | src/COLO858_pertrubation_analysis.py:1109-1118 | one cell after the refresh is the results' cell for a refreshed parameter whose key the results hold, else unchanged |
| `Assembly.UpdateParams` | src/COLO858_pertrubation_analysis.py:1109-1118 | the nested loop computes `Updated` |
| `Assembly.MergedKeys` | src/COLO858_pertrubation_analysis.py:1071-1106 | after the inner merges, a key remains iff the initial table and every step's results hold it |
| `Assembly.MergedColumns` | src/COLO858_pertrubation_analysis.py:1059-1106 | the initial columns stay first, in order |
| `Assembly.LatestUpdate` | src/COLO858_pertrubation_analysis.py:1109-1118 | the last refreshing step is a step whose results carry the parameter |
| `Assembly.MergedValues` | src/COLO858_pertrubation_analysis.py:1059-1118 | every merged cell of a parameter no step merges in is the last refreshing step's cell for the key, or else the initial cell |
| `Assembly.StepColumnsMembers` | src/COLO858_pertrubation_analysis.py:1126-1128 | the step columns are exactly the columns containing `post <gene>` of some step |
| `Assembly.CategoryOfNoStep` | src/COLO858_pertrubation_analysis.py:1126-1128 | `FOS_category` is never a step column |
| `Assembly.ProjectDeduped` | src/COLO858_pertrubation_analysis.py:1136-1140 | ordering by the de-duplicated list keeps each wanted existing column once, in order of first occurrence in the wanted list, with a duplicate-free existing prefix first |
| `Assembly.OrderTailFacts` | src/COLO858_pertrubation_analysis.py:1121-1136 | after the parameters come exactly the input species, the present multiplier columns, and the step columns, never `FOS_category` |
| `Assembly.FinalColumns` | src/COLO858_pertrubation_analysis.py:1121-1140 | final columns are distinct; they are exactly the merged parameter, species, multiplier and step columns; `FOS_category` is dropped; the parameter columns come first |
| `Assembly.FinalOrdered` | src/COLO858_pertrubation_analysis.py:1121-1140 | every final column is a merged column from the wanted list (parameters, input species, step columns, multiplier columns), and the final columns follow their first occurrence in that list |
| `Assembly.SectionsInOrder` | src/COLO858_pertrubation_analysis.py:1121-1133 | columns kept in the order of the wanted list put parameters before all others, input species before everything but parameters, and multiplier columns that are not parameters after everything else |
| `Assembly.StepsInOrder` | src/COLO858_pertrubation_analysis.py:1125-1128 | in that order, a column of step k comes before every column that is no parameter, no input species and matches none of the steps up to k |
| `Assembly.FinalColumnsOrder` | src/COLO858_pertrubation_analysis.py:1121-1140 | the final columns are the parameters, then the input species, then the step columns step by step in history order, then the multiplier columns |
| `Assembly.FinalRows` | src/COLO858_pertrubation_analysis.py:1054-1142 | final rows are exactly the keys common to the initial table and all results; each parameter holds its latest refreshed value |
| `Assembly.OrderColumns` | src/COLO858_pertrubation_analysis.py:1121-1136 | the loops building `ordered_columns` compute `FinalOrder` |
| `Assembly.AssembleFinalResults` | src/COLO858_pertrubation_analysis.py:1054-1142 | the merge loop computes `FinalResults` |
| `FileNames.RoundHalfEven` | src/COLO858_pertrubation_analysis.py:1177 | the rounded value is within 0.5, and a tie rounds to even |
| `FileNames.FormatFixedReads` | src/COLO858_pertrubation_analysis.py:1169-1184 | reading back the fixed-point text gives the signed rounded units |
| `FileNames.FormatFixedReadsBack` | src/COLO858_pertrubation_analysis.py:1169-1184 | the text differs from the value by at most half a unit in the last place, and a tie is even |
| `FileNames.ParamShortFacts` | src/COLO858_pertrubation_analysis.py:1168 | shortening fails iff the name has no `.`; a short name has no `.` or `_` and only characters of the name |
| `FileNames.ParamShortOf` | src/COLO858_pertrubation_analysis.py:1168 | `<a>_<b>.<last>` shortens to `b` |
| `FileNames.ParamShortExample` | src/COLO858_pertrubation_analysis.py:1168 | `(basal_fos).v` shortens to `fos)` |
| `FileNames.MultiplierInfo` | src/COLO858_pertrubation_analysis.py:1165-1170 | on success there is one entry per multiplier |
| `FileNames.MultiplierInfoFails` | src/COLO858_pertrubation_analysis.py:1165-1170 | the multiplier summary fails iff some parameter name has no `.` |
| `FileNames.BuildMultiplierInfo` | src/COLO858_pertrubation_analysis.py:1165-1170 | the loop computes `MultiplierInfo` |
| `FileNames.Parts` | src/COLO858_pertrubation_analysis.py:1157-1191 | on success there is one part per step |
| `FileNames.PartFails` | src/COLO858_pertrubation_analysis.py:1158-1190 | a step's part fails iff it is a custom-multiplier knockout with a parameter lacking `.` |
| `FileNames.PartsFail` | src/COLO858_pertrubation_analysis.py:1157-1191 | naming fails iff some step cannot be named |
| `FileNames.PartStarts` | src/COLO858_pertrubation_analysis.py:1158-1190 | each part starts with the gene and `_KO`, `_KD` or `_OE` |
| `FileNames.PartsEach` | src/COLO858_pertrubation_analysis.py:1157-1191 | the i-th part is the i-th step's part |
| `FileNames.BuildPart` | src/COLO858_pertrubation_analysis.py:1158-1190 | the branches compute `Part` |
| `FileNames.FileNameMentions` | src/COLO858_pertrubation_analysis.py:1156-1202 | the name starts with `<date>_<cell_line>_`, ends with `_<version>.csv`, and mentions every step's gene and kind |
| `FileNames.BuildFileName` | src/COLO858_pertrubation_analysis.py:1156-1202 | the loop computes `FileName` |

## Left out

- File I/O and logging are left out:
  - `prepare_initial_data` (reading the CSV);
  - `to_csv` and `os.makedirs` in `save_results`;
  - every `print`, every `logging` call and the progress bar.

  `SaveResultsFileName` returns the file name that would be written; the date (`datetime.now()`) is a parameter.
- The steady-state solver (`simulate_ap1.run_simulations`) is a parameter. It is a total function from one pair's rows to "converged with levels", "failed" or "raised". `run_simulation.py` and the Latin-hypercube sampling file are not part of this model.
- Random draws are parameters:
  - `scipy`/`numpy` beta and truncated-normal sampling and the seed (always 42) are the `Rng` record of draw functions.
  - Bounds on the multipliers are proved under the assumption that beta draws lie in `[0,1]`.
  - The truncated-normal multipliers are carried but not bounded.
  - The truncnorm knockdown updates a parameter in log space, `10**(log10(p) + shift)`. The model multiplies `p` by the multiplier `10**shift`. The two agree for `p > 0`, and for `p = 0` both give 0. For a negative `p` the source gives NaN, while the model gives a negative number.
- Floating point is modelled with exact reals:
  - NaN is a cell value. Division by a zero mean gives NaN for every entry, where IEEE would give infinities for nonzero entries.
  - The file name renders the exact real, not the nearest binary double.
- pandas details are left out:
  - the left merges (`suffixes=("", "_old")`) keep the left column and add no `<name>_old` copy of a right column the left table already has. The source adds one and drops it again only for the perturbed parameters.
  - duplicate keys (a merge takes the first matching row);
  - duplicate column names (a rename onto an existing column replaces it);
  - `dtype` changes. Multiplying a text cell gives NaN instead of raising.
- The second result of `perturb_params` (the multipliers array) is not modelled. Every caller discards it.
- `perturbed_params` is a Python `set`; the model iterates it in first-mention order. The refresh's result does not depend on that order, because each parameter writes only its own column.
- `param_multipliers` is a list of (name, multiplier) pairs in dictionary order. A dict cannot hold a repeated name, but this list can. For a repeated name:
  - the name appears twice in the file name;
  - lookups (`Schema.Entry`, and through it `Engine.MultipliedTargets`) take the first pair;
  - `Engine.MarkMultipliersValues` takes the last writer.
- `str.lower()` is modelled for ASCII letters only.
- The `else` branch that names an overexpression without `max_mult` is unreachable: every recorded overexpression is `beta` (with `max_mult`) or `set`. The model has no such step.
- `PipelineFacts.OverexpressionValues` and `Engine.PerturbedKnockoutMultiply` require duplicate-free targets. With a repeated target pandas would multiply twice, and the model states nothing there.
- `Assembly.FinalColumns` and `Assembly.FinalRows` do not model the inner merge's default `_x`/`_y` suffixes. When a step's merged column is already in the table, the model keeps the earlier column under its own name. pandas renames both copies instead:
  - after two knockdowns, `knockdown_multiplier_x` and `knockdown_multiplier_y` are both dropped by the final selection, since only `knockdown_multiplier` is listed; the same holds for two overexpressions. The model keeps the first step's multiplier column.
  - when the same step runs twice, both `<species> post <gene>KD_x` and `..._y` contain `post <gene>` and are kept. The model keeps one column.
- `Engine.ControlledMultipliersBounds` bounds the multipliers but does not state that their mean reaches the target. Clipping can make the target unreachable (`Engine.UnreachableTarget`). The source only stops trying after three passes.
