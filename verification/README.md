# openml-pimp: parameter grids and run filing, in Dafny

This project models the bookkeeping core of openml-pimp, a toolkit that
studies hyperparameter importance from experiments stored on OpenML.

- `openmlpimp/utils/optimize.py` holds the registry of parameter grids.
  For the `random_forest` family there is one ordered grid of six
  parameters.
- Several views derive from that grid:
  - an ordered sub-grid with some parameters excluded, optionally reversed;
  - the parameter names;
  - the values of one parameter;
  - the parameters a given grid leaves out;
  - the ordered pairs of distinct parameters.
- `obtain_runids` walks every run of a flow on a list of tasks. For each run
  it finds the `param_distributions` grid that the run's setup records.
  When that grid leaves out exactly one registered parameter, it files the
  run's id under three keys: the matching template name, the task, and the
  value the setup held that parameter at.
- The driver `openmlpimp/examples/run_on_openml.py` does four things:
  - it derives the parameters never to analyse from the fixed ones;
  - it seeds the running rank totals with zeros;
  - it normalises each backend's result;
  - it counts the tasks that completed.

Modules, by file:

- `Wrappers` and `Errors` (`wrappers.dfy`): `Option`, `Result`, and the
  errors the source raises.
- `Values` (`values.dfy`): scalar parameter values and decoded JSON. A grid
  is encoded as JSON, and the encoding is injective.
- `ParamGrid` (`grid.dfy`): an ordered grid as a sequence of entries. It
  provides lookup, deletion and reversal.
- `Optimize` (`optimize.dfy`): the registry and its views.
- `Segments` (`segments.dfy`): `str.split('__')` as Python evaluates it, and
  the last piece of a name.
- `RunIds` (`runids.dfy`): `obtain_runids`, with the tracking service
  replaced by its answers.
- `Driver` (`driver.dfy`): the driver's helper and its loop over tasks.

The model gives `obtain_runids` three guarantees:

- Success: the pass returns normally exactly when every run listed for a
  requested task has a setup, and each of that setup's `param_distributions`
  grids files without raising (`RunIds.ObtainRunIds`).
- Soundness: when the pass succeeds, every id in the table belongs to a run listed for that task.
  That run's setup holds a `param_distributions` grid that leaves out
  exactly one registered parameter and equals the template. The slot's
  value is the value the setup holds out (`RunIds.ObtainRunIds`).
- Completeness: every eligible run is filed under every template equal to
  its grid (`RunIds.ObtainRunIdsComplete`).

The code (`run_on_openml.py:92-95`) seeds the totals as soon as a task's
configuration space is read, before the backend runs. So a task that fails
later still leaves them seeded (`Driver.ProcessTask`).

## Model

| member | source | states |
|---|---|---|
| Optimize.ObtainParamGrid | openmlpimp/utils/optimize.py:107-130 | an unknown family is rejected; the grid exists exactly when every excluded name is registered and none repeats; it is well formed, holds exactly the registered keys minus the excluded ones, and keeps each one's registered values |
| Optimize.RandomForestGrid | openmlpimp/utils/optimize.py:108-115 | the six random-forest parameters in declaration order, with distinct names |
| Optimize.RegisteredValues | openmlpimp/utils/optimize.py:110-115 | the registered values: leaf sizes 1 to 20, feature fractions 0.1 to 0.9, bootstrap true/false, split sizes 2 to 20, gini/entropy, mean/median/most_frequent |
| Optimize.Derive | openmlpimp/utils/optimize.py:119-130 | for any well-formed grid, exclusion succeeds iff the names are distinct keys; the result is well formed, holds the other keys, keeps their values, and lists the kept names in the grid's order, back to front when reversed |
| Optimize.ObtainParamGridOrder | openmlpimp/utils/optimize.py:119-130 | the derived grid lists exactly the registered names that are not excluded, in declaration order, and back to front when reversed |
| Optimize.ExcludeEachDeletesNames | openmlpimp/utils/optimize.py:119-125 | deleting the excluded names one by one succeeds iff they are distinct registered keys, then removes exactly them; otherwise the error names an offending name |
| Optimize.SingleIsOneElementList | openmlpimp/utils/optimize.py:120-121 | a single excluded name acts as the one-element list holding it |
| Optimize.ReverseIsReverseOrder | openmlpimp/utils/optimize.py:127-130 | reversal yields the keys in exactly the opposite order, with the same keys and values, and fails exactly when the plain grid fails |
| Optimize.ObtainParameters | openmlpimp/utils/optimize.py:78-79 | the set of the six registered names; an unknown family is an error |
| Optimize.GetParamValues | openmlpimp/utils/optimize.py:100-104 | the values registered for the parameter; an unregistered parameter or unknown family is an error |
| Optimize.ParamValuesOfEveryEntry | openmlpimp/utils/optimize.py:100-104 | each grid entry's values are what the lookup returns for its name |
| Optimize.GetExcludedParams | openmlpimp/utils/optimize.py:95-97 | the registered names that the given key set leaves out |
| Optimize.ExcludedParamsRecoverExclusion | openmlpimp/utils/optimize.py:95-97 | for a grid derived with exclusions, the excluded parameters come back exactly, whatever the order |
| Optimize.ExcludedParamsOfSingle | openmlpimp/utils/optimize.py:95-97 | excluding one parameter is recovered as that parameter alone |
| Optimize.OrderedPairs | openmlpimp/utils/optimize.py:85-92 | the double loop lists every ordered pair of distinct names exactly once, n*(n-1) pairs |
| Optimize.ObtainParameterCombinations | openmlpimp/utils/optimize.py:82-92 | anything but two parameters is not implemented; for random forest, the 30 ordered pairs of distinct registered parameters, none paired with itself |
| ParamGrid.Lookup | openmlpimp/utils/optimize.py:102-104 | missing exactly when the key is absent; otherwise an entry with that name and those values is in the grid |
| ParamGrid.WithoutKeepsEntries | openmlpimp/utils/optimize.py:125 | deleting keys keeps the grid well formed and every remaining key's values |
| ParamGrid.ReverseKeepsContents | openmlpimp/utils/optimize.py:128 | reversal is an involution that keeps the names (in reverse order), the keys and the key-to-values map |
| Values.ScalarRoundTrip | openmlpimp/utils/optimize.py:68 | a scalar value encoded as JSON decodes back to itself |
| Values.ValuesRoundTrip | openmlpimp/utils/optimize.py:59 | a list of values encoded as JSON decodes back to itself |
| Values.GridJsonInjective | openmlpimp/utils/optimize.py:72-73 | two templates have equal JSON encodings exactly when they are equal, so comparing with the decoded grid compares the grids themselves |
| Segments.JoinSplit | openmlpimp/utils/optimize.py:66 | joining the pieces of `split('__')` with `__` gives the name back |
| Segments.PiecesHaveNoSeparator | openmlpimp/utils/optimize.py:66 | no piece of the split contains `__` |
| Segments.SplitCharacterised | openmlpimp/utils/optimize.py:66 | `split('__')` is the one list of pieces that rejoins to the name with no piece holding `__` and no piece but the last ending in `_`, so the left-to-right cut is pinned down |
| Segments.InnerPiecesDoNotEndInUnderscore | openmlpimp/utils/optimize.py:66 | the scan cuts at the first separator it meets, so no piece before the last ends in `_` |
| Segments.LastSegment | openmlpimp/utils/optimize.py:66 | `split('__')[-1]` is a suffix of the name that holds no `__` |
| Segments.LastSegmentOddRun | openmlpimp/utils/optimize.py:66 | `"a___b"` ends in the piece `"_b"`, not `"b"` |
| Segments.LastSegmentOfPlainAndNested | openmlpimp/utils/optimize.py:66 | a name without `__` is its own last piece; a leading piece free of `__` and not ending in `_`, with its separator, does not change the last piece |
| RunIds.SetupFor | openmlpimp/utils/optimize.py:49-53 | a setup in the bulk listing is taken from it; any other comes from the individual fetch; it is missing only when neither has it |
| RunIds.LastIndexNamed | openmlpimp/utils/optimize.py:55 | the position of the last parameter with the name, or none exactly when no parameter has it |
| RunIds.HeldOutValue | openmlpimp/utils/optimize.py:55-68 | the decoded value of the last setup parameter named by the excluded name's last piece; missing exactly when no parameter has that name; readable exactly when that last parameter decodes to a scalar |
| RunIds.SoleExcluded | openmlpimp/utils/optimize.py:64 | when one registered name is left out, that name is the whole difference |
| RunIds.FileMatching | openmlpimp/utils/optimize.py:72-74 | the run id is appended under the held-out value for exactly the templates equal to the grid; nothing else changes |
| RunIds.GridKeys | openmlpimp/utils/optimize.py:95-97 | what `all_params - param_grid` subtracts: an object's keys, an array's strings, a string's characters; a number, boolean or null, or an array holding an array or object, raises |
| RunIds.FileDistributions | openmlpimp/utils/optimize.py:58-74 | the grid files without raising exactly when `GridOk` holds; a grid that cannot be subtracted is an error; more than one excluded parameter skips the grid; none is an error; with exactly one, a readable held-out value files the run under every matching template; a missing one fails; a non-scalar one fails only when some template matches and otherwise skips the grid; slots only grow |
| RunIds.FileHeldOut | openmlpimp/utils/optimize.py:68-74 | the table is either unchanged or has the run appended under the held-out value for the matching templates; a non-scalar value raises only where a template would key on it |
| RunIds.FileDistributionsSources | openmlpimp/utils/optimize.py:58-74 | a slot that filing one grid lengthened is one whose template equals the grid, which leaves out one registered parameter held at the slot's value |
| RunIds.FileParameters | openmlpimp/utils/optimize.py:57-74 | filing a setup's parameters succeeds exactly when each `param_distributions` grid from that position on is `GridOk`; it only appends this run's id; a setup with no `param_distributions` leaves the table unchanged |
| RunIds.FileParametersSources | openmlpimp/utils/optimize.py:57-74 | a slot that the parameter loop lengthened is justified by one of the setup's `param_distributions` grids it visited |
| RunIds.FileRuns | openmlpimp/utils/optimize.py:48-74 | filing a task's runs succeeds exactly when every run's setup can be had and files without raising; it only appends ids of runs listed for that task |
| RunIds.FileRunsSources | openmlpimp/utils/optimize.py:48-74 | every id the run loop appends is the id of a listed run whose known setup justifies the slot |
| RunIds.FileTasks | openmlpimp/utils/optimize.py:40-74 | a task whose listing failed is skipped; the loop succeeds exactly when every listed run of a requested task files without raising; only ids listed for requested tasks are appended |
| RunIds.FileTasksSources | openmlpimp/utils/optimize.py:40-74 | every id the task loop appends sits under a requested, listed task and comes from a run listed for it whose setup justifies the slot |
| RunIds.ObtainRunIds | openmlpimp/utils/optimize.py:9-75 | the pass succeeds exactly when every listed run of a requested task has a setup whose grids all file without raising; soundness: no level of the table is empty; every filed id is a listed run of a requested task, under a given template; and that run's setup holds a `param_distributions` grid equal to the template, leaving out one registered parameter held at the slot's value |
| RunIds.ObtainRunIdsComplete | openmlpimp/utils/optimize.py:40-74 | completeness: every listed run of a requested task has its setup, and each of its eligible grids is filed under every equal template |
| Driver.IgnoreParameters | openmlpimp/examples/run_on_openml.py:49-59 | always `random_state`, `sparse` and `verbose`; `coef0` exactly when the kernel is fixed to rbf; `degree` exactly for rbf or sigmoid; nothing else |
| Driver.IgnoreParametersCases | openmlpimp/examples/run_on_openml.py:49-59 | the exact ignore set for no fixed parameters, rbf, sigmoid and any other kernel |
| Driver.SeedTotals | openmlpimp/examples/run_on_openml.py:95 | one total per configuration-space parameter, each zero |
| Driver.Backfill | openmlpimp/examples/run_on_openml.py:116-118 | present keys keep their values and every missing total key is added at 0.0 |
| Driver.NormaliseResult | openmlpimp/examples/run_on_openml.py:107-120 | succeeds exactly when any `ablation` entry is an object; an ablation payload loses `-source-`/`-target-`, keeps its other values and gains every missing total key at 0.0; a `fanova` entry is then unwrapped as it is, without backfill; a non-object ablation payload is an error |
| Driver.NormaliseIdempotent | openmlpimp/examples/run_on_openml.py:107-118 | normalising an already normalised ablation result changes nothing |
| Driver.NormaliseExample | openmlpimp/examples/run_on_openml.py:107-118 | `{"ablation": {"a": 0.7}}` against totals over a and b gives `{"a": 0.7, "b": 0.0}` |
| Driver.ProcessTask | openmlpimp/examples/run_on_openml.py:76-129 | the counter goes up by one exactly when the task's whole body completed, and then the totals are the summed ranks; totals are seeded once and stay seeded even when the task then fails; a failed task leaves seeded totals alone; the normalised result is recorded under the task id exactly when everything before the ranking ran, even if the ranking then raises |
| Driver.ProcessTasks | openmlpimp/examples/run_on_openml.py:76-129 | the counter grows by at most the number of tasks whose result is recordable once totals exist (`CountRecordable`), and by exactly that many when ranking never raises; the totals stay unseeded exactly when no task could seed them, and then nothing is counted; recorded keys are never lost; every recordable task at or after the first one that can seed is recorded; every recorded result belongs to a task of the loop; every stored result is an earlier one kept or the normalisation of some task's result file; seeded totals change only when a task is counted, and totals seeded with nothing counted are the zeros of the first task that could seed them |
| Driver.RunStudy | openmlpimp/examples/run_on_openml.py:73-129 | from the initial state: the count is at most `CountRecordable`, exactly that when ranking never raises, none without seeded totals; every recordable task at or after the first that can seed is recorded; results only for the study's tasks; every stored result is the normalisation of some task's result file; with nothing counted, seeded totals are the zeros of the first task that could seed them |
| Driver.ProcessTasksAppend | openmlpimp/examples/run_on_openml.py:76-129 | the loop over `a + b` is the loop over `a` followed by the loop over `b` from the state `a` leaves |
| Driver.ProcessTasksLast | openmlpimp/examples/run_on_openml.py:76-129 | the aggregate after the last task is that task's step applied to the aggregate after the others, so totals and stored results follow `Driver.ProcessTask` one task at a time |
| Driver.RunStudyAllComplete | openmlpimp/examples/run_on_openml.py:73-129 | when every task can seed, has a readable result and ranking never raises, every task is counted and recorded |

## Left out

- Network access is not modelled. The run listing, the bulk setup listing
  and the individual setup fetch become input maps, and a failed listing is
  an absent key. For run ids the loop's visiting order is the listing's
  order.
- JSON parsing is not modelled: parameter values and result files arrive
  decoded. A run's `param_distributions` is subtracted from the registered
  names as Python would: an object by its keys, an array by its string
  elements, a string by its characters. A number, boolean or null, or an
  array holding an array or object, raises in the source; the model reports
  `MalformedGrid`.
- A held-out setup value that cannot key a dict (a list or object) raises
  in the source only when it is used as a key, under a template equal to
  the grid (`optimize.py:74`). The model reports `UnhashableValue` then, and
  otherwise skips the grid without filing.
- Python's cross-type equality (`1 == 1.0 == True`) is not modelled. Values
  of different kinds never compare equal.
- Floats are exact rationals, not IEEE doubles.
- Iteration order of a Python `set` is unspecified. The model uses
  declaration order where the source iterates a set.
- `Optimize.ObtainParameterCombinations`: the list is in the declaration
  order of the grid, not in Python's set order. The contract states it as a
  pair enumeration, which holds for any order.
- The setup cache (`setups[setup_id] = get_setup(...)`) is left out. With a
  fixed service it only memoises, so a lookup reads the bulk listing, then
  the individual fetch.
- The configuration space is reduced to the set of names its
  hyperparameters carry. The caching and conversion step
  (`cache_runhistory_configspace`) becomes a per-task outcome, as do the
  fANOVA/PIMP backends. Those backends are outside the core.
- `rank_dict` and `sum_dict_values` are an `accumulate` function argument.
  Their bodies are not part of this model.
- `divide_dict_values`, the CSV and plot writers after the loop, argument
  parsing, logging and printing are left out.
- `Driver.IgnoreParameters`: the fixed parameters (`-P`, read with
  `json.loads` at `run_on_openml.py:33`) are modelled as absent or a JSON
  object. Another JSON value (a string, where `'kernel' in` tests for a
  substring, or a list) is not modelled.
- `Driver.NormaliseResult`: the result file is taken to decode to an
  object; another top-level JSON value is not modelled. Only a dict
  `ablation` payload is modelled. A non-dict payload is reported as
  `MalformedResult`; in the source it raises or behaves by its own type's
  `in`/`del`. The payload contract is
  stated for results without a `fanova` entry. With one, the result is that
  entry as it is.
- `Driver.ProcessTasks`: the final totals after counted tasks are not given
  in closed form, since `accumulate` is an argument. They are stated one
  task at a time, through `Driver.ProcessTask` and `Driver.ProcessTasksLast`.
- `Driver.RunStudy`: likewise, the totals after counted tasks are stated
  only step by step. The stored value under a task id repeated in the study
  is said to come from one of its tasks, not from which one.
