# Batched Monte Carlo option pricing: the batching and aggregation core

This project models the part of the option-pricing simulator that turns simulation paths into stored results:

- one path of a geometric Brownian motion: `Geometric_Brownian_Motion` in `plot.py`, and the object-based variant `MonteCarloSimulation` in `app/utils/monte.py`;
- the batch runner `Geometric_Brownian_Motion_Batch`;
- the run driver `run_simulations`. It splits `simulations` into batches of `batch_size`, drains the futures in completion order, averages the payoffs and builds the summary;
- the result loader in `plot_result.py`. It groups stored entries by `simulation_id` in first-appearance order, keeps the first groups, and picks the first stored summary.

Randomness and floating point are abstracted away:

- Each step's `math.exp(...)` multiplier is an input. So is each path's wall-clock reading (`Plot.Draws`).
- Prices are exact reals, and a path is determined by its multipliers.
- The cluster is abstracted too. `as_completed` becomes a permutation `order` of the submitted futures. A future that raises for reasons outside the batch function, such as a lost worker, is a member of the set `crashed`.

Modules:

- `Seqs` (seqs.dfy): map, concatenation of lists, sum, mean, Python's `range`, and permutation lemmas.
- `Pricing` (pricing.dfy): error cases, `.lower()` matching of the option name, the payoff rule, and compounding one multiplier per step.
- `Plot` (plot.dfy): the per-path producer and the batch runner of `plot.py`.
- `Driver` (driver.dfy): `run_simulations`, with partitioning, draining, aggregation and the summary.
- `Monte` (monte.dfy): the `MonteCarloSimulation` class.
- `PlotResult` (plot_result.dfy): `load_simulation_data` and `load_summary_data`.

Two behaviours of `run_simulations` worth noting:

- The last batch is never shortened. Every future gets the full `batch_size`, so `N = 1, B = 5` runs ids 1..5 (`Driver.PartitionIds`, `Driver.PartitionExamples`).
- Every batch receives the same `option_type`, `steps` and `T`. An unrecognised option name, zero steps, or a negative `T` with positive steps therefore makes every batch with at least one id raise, not just one of them. The run then reports no payoffs and an average of 0 (`Driver.RejectedParameters`). A negative `T` raises because `delta_time = T / steps` is then negative and the first step's `math.sqrt(delta_time)` raises ValueError (`Plot.NegativeHorizonRaises`).

## Model

| member | source | states |
|---|---|---|
| `Seqs.Range` | plot.py:106 | definition of Python's `range(start, stop, step)` for a non-zero step: the values from `start` by `step` while they stay on the near side of `stop` |
| `Seqs.RangeAscending` | plot.py:106 | with a positive step, the `k`-th value of `range` is `start + k * step` and lies below `stop`, and one more step would reach `stop` |
| `Seqs.Sum` | plot.py:132 | definition of the built-in `sum` over reals |
| `Seqs.Average` | plot.py:132 | definition of `sum(payoffs) / len(payoffs) if payoffs else 0` |
| `Seqs.AveragePermutation` | plot.py:132 | the average depends only on the multiset of collected payoffs, not on their order |
| `Seqs.AverageNonNegative` | plot.py:132 | the average of non-negative payoffs is non-negative |
| `Pricing.ParseOption` | plot.py:46-51 | definition of the option-name dispatch: the lowered name "call" selects the call rule, "put" the put rule, and anything else raises |
| `Pricing.Iterations` | plot.py:35 | definition of how many times `range(steps)` runs: `steps`, or 0 for a negative count |
| `Pricing.Compound` | plot.py:34-39 | definition of the price after the `st *= math.exp(exponent)` updates, one per given multiplier, starting from `stock_value` |
| `Pricing.Lower` | plot.py:46-48 | `.lower()` keeps the length, leaves no ASCII capital, and changes a character only by folding a capital to its small letter |
| `Pricing.OptionCaseInsensitive` | plot.py:46-51 | two names that differ only in the case of their ASCII letters select the same payoff rule, or are both refused |
| `Pricing.LowerSpells` | plot.py:46-48 | the ASCII case fold `Pricing.Lower` gives a lower-case word exactly when the name spells it letter by letter, each letter in either ASCII case |
| `Pricing.OptionAccepted` | plot.py:46-51 | a name selects the call rule exactly when it is four letters c, a, l, l, each in either case, and the put rule exactly when it is p, u, t in either case; any other name is refused |
| `Pricing.OptionExamples` | plot.py:46-51 | "call", "CALL" and "Put" are accepted; "straddle" and "calls" are refused |
| `Pricing.PayoffFor` | plot.py:46-49 | the payoff is non-negative, at least the call (put) gain, and equal to either 0 or that gain |
| `Pricing.PayoffPositiveWhen` | plot.py:46-49 | a call pays exactly when the price ends above the strike, a put exactly when it ends below |
| `Pricing.CompoundStep` | plot.py:35-39 | one more step multiplies the previous price by that step's factor |
| `Pricing.CompoundPositive` | plot.py:34-39 | a positive start price with positive multipliers stays positive |
| `Pricing.QuotientSign` | plot.py:30-38 | with positive `steps`, `delta_time = T / steps` is negative exactly when `T` is, so `math.sqrt(delta_time)` raises exactly for a negative `T` |
| `Plot.NegativeRoot` | plot.py:30-38 | definition of the `math.sqrt` failure: the step loop runs (`steps > 0`) and `T` is negative, so `delta_time` is |
| `Plot.Accepts` | plot.py:30-51 | definition of the parameters under which a path completes: nonzero steps, no negative `delta_time` under a running loop, and a known option name |
| `Plot.PricePoints` | plot.py:40-45 | definition of the first `n` price entries of a path, each holding the compounded price and its step number |
| `Plot.InputsFor` | plot.py:35-39 | definition of the abstraction of `random.gauss` and `math.exp`: a path is given one multiplier per loop iteration, the one drawn for that simulation and step |
| `Plot.Raised` | plot.py:30-51 | the exception a refused path raises is ZeroDivisionError exactly for zero steps, the `math.sqrt` ValueError exactly for positive steps with a negative `T`, and otherwise the option-type ValueError |
| `Plot.PathRecords` | plot.py:14-58 | a path raises exactly when `steps == 0` (ZeroDivisionError), `steps > 0` with `T < 0` (`math.sqrt` ValueError in the first step), or the option name is unknown (ValueError), checked in that order. Otherwise there are `steps + 1` entries, all tagged with the simulation id: price entries with timestamps `0..steps-1`, then one payoff entry whose `final_price` is the compounded price, whose payoff is the option's payoff on it, and whose timestamp is the clock reading |
| `Plot.PathPriceAt` | plot.py:39-45 | the entry of step `i` holds the price after `i + 1` multipliers |
| `Plot.PathPriceStep` | plot.py:37-45 | each price is the previous price times that step's multiplier |
| `Plot.PathPriceEnds` | plot.py:34-57 | the first price is `stock_value` times the first multiplier; `final_price` is the last step's price, or `stock_value` when there are no steps |
| `Plot.PathPricesPositive` | plot.py:34-45 | with positive start price and multipliers every price on the path is positive |
| `Plot.GeometricBrownianMotion` | plot.py:14-58 | the loop that updates `st` and appends to `ans`, raising at `math.sqrt` for a negative `delta_time`: it returns exactly `PathRecords` |
| `Plot.BatchRecords` | plot.py:60-81 | definition of the batch's result: the records of the ids `start ..` concatenated in order, or the first exception a path raises |
| `Plot.BatchAtomic` | plot.py:77-81 | a batch raises exactly when it has a path and the shared parameters make a path raise; it then returns that exception and no partial result |
| `Plot.BatchPaths` | plot.py:78-80 | definition used to state the batch lemmas: the list of the batch's paths, one per id, in id order |
| `Plot.BatchIsConcatenation` | plot.py:77-81 | a successful batch is the in-order concatenation of the per-path outputs for ids `start_sim_id ..` |
| `Plot.NegativeHorizonRaises` | plot.py:30-38 | a batch of five call paths of 12 steps with `T = -1` is refused and raises the `math.sqrt` error with no records |
| `Plot.BatchLength` | plot.py:77-81 | a successful batch has `batch_size * (steps + 1)` entries |
| `Plot.EntryPayoff` | plot.py:125-126 | definition of what one entry adds to `payoffs`: its payoff when it has the `payoff` key, nothing otherwise |
| `Plot.PayoffsOf` | plot.py:124-126 | definition of the payoffs of a list of entries, in order |
| `Plot.PayoffsFrom` | plot.py:78-80 | definition of the payoffs of the consecutive ids `start .. start + n - 1`, in id order, used to state what a batch carries |
| `Plot.PayoffsOfAppend` | plot.py:124-126 | the payoffs of two lists of entries, concatenated, are the payoffs of their concatenation |
| `Plot.PayoffsOfSnoc` | plot.py:124-126 | one more entry adds its payoff, if it has the `payoff` key |
| `Plot.PathPayoff` | plot.py:46-49 | a path's payoff is non-negative |
| `Plot.PathPayoffs` | plot.py:41-57 | a path carries exactly one payoff entry, its own |
| `Plot.BatchSnoc` | plot.py:77-81 | a batch of `n` paths returns the output of the batch of `n - 1` paths followed by the next id's path |
| `Plot.PayoffsFromSplit` | plot.py:78-80 | the payoffs of `a + b` consecutive ids are those of the first `a` followed by those of the next `b` |
| `Plot.BatchPayoffs` | plot.py:77-81 | a successful batch carries one payoff per simulation, in id order |
| `Plot.GeometricBrownianMotionBatch` | plot.py:60-81 | the loop that extends `all_simulations`: it returns exactly `BatchRecords` for `range(start_sim_id, start_sim_id + batch_size)` |
| `Driver.Partition` | plot.py:106-118 | definition of the submitted futures: one per value of `range(0, simulations, batch_size)`, starting at that value plus one, each with the full `batch_size` |
| `Driver.OutcomeOf` | plot.py:121-123 | definition of what `result()` of one future gives: its batch's records, or a failure for a batch that raises or a future that crashed |
| `Driver.Completed` | plot.py:121-123 | definition of the outcomes in the order `as_completed` yields the futures |
| `Driver.OutcomePayoffs` | plot.py:123-126 | definition of the payoffs one drained future adds: those of a batch that returned, none of one that raised |
| `Driver.OutcomeRecords` | plot.py:127 | definition of the records one drained future adds to `all_simulations` |
| `Driver.CollectedPayoffs` | plot.py:121-130 | definition of `payoffs` after the drain loop: the outcomes' payoffs concatenated in completion order |
| `Driver.CollectedRecords` | plot.py:121-130 | definition of `all_simulations` after the drain loop: the outcomes' records concatenated in completion order |
| `Driver.Survivors` | plot.py:121-130 | definition of the number of the first `n` futures that did not crash |
| `Driver.UnitIds` | plot.py:78 | definition of a future's ids: as many as `range(batch_size)` has elements, from its start id on |
| `Driver.PartitionCount` | plot.py:106-118 | with `B > 0` there are `ceil(N / B)` futures: together they reach `N`, the last starts at or below `N`, and there are none for `N <= 0` |
| `Driver.PartitionAt` | plot.py:106-118 | future `j` starts at id `1 + j * B` and has the full size `B` |
| `Driver.PrefixIds` | plot.py:106-118 | the first `m` futures together run ids `1 .. m * B`, in order |
| `Driver.PartitionIds` | plot.py:106-118 | the id ranges are contiguous and disjoint, and cover exactly `1 .. ceil(N / B) * B` |
| `Driver.PartitionExamples` | plot.py:106-118 | `N = 10, B = 5` gives ids 1..5 and 6..10; `N = 1, B = 5` gives one full batch 1..5; `N = 0` submits nothing |
| `Driver.DrainStep` | plot.py:121-130 | draining one more future adds exactly its payoffs and records; a failed future adds nothing |
| `Driver.SubmitBatches` | plot.py:106-118 | the submission loop builds exactly the partition, in `range` order |
| `Driver.CollectPayoffs` | plot.py:124-126 | the inner loop collects exactly the `payoff` of every entry that has one, in order |
| `Driver.AwaitFuture` | plot.py:122-123 | `result()` is the batch's return value, or an exception for a batch that raises or a future that crashed |
| `Driver.RunSimulations` | plot.py:83-148 | `batch_size == 0` raises. Otherwise `all_simulations` is the concatenation of the successful outcomes in completion order. The summary holds the fixed message, the mean of their payoffs (0 when there are none), the requested `simulations` count, the elapsed time and the timestamp |
| `Driver.CompletionOrderIrrelevant` | plot.py:121-132 | any two completion orders give the same average and the same payoffs and records up to order |
| `Driver.SurvivorsBound` | plot.py:121-130 | at most every future survives, and with no crash every one does |
| `Driver.OneCrash` | plot.py:121-130 | one crashed future out of `n` leaves `n - 1` survivors |
| `Driver.OutcomeShape` | plot.py:121-130 | with accepted parameters a future fails exactly when it crashed; a surviving future contributes one payoff per id, in id order, and `steps + 1` records per id |
| `Driver.OutcomeSizes` | plot.py:121-130 | the number of payoffs and records each future contributes |
| `Driver.InOrderStep` | plot.py:121-130 | draining futures in submission order adds each one's contribution in turn |
| `Driver.InOrderCountStep` | plot.py:121-130 | one more future in submission order adds `batch_size` payoffs and `batch_size * (steps + 1)` records when it survives, none when it crashed |
| `Driver.InOrderCounts` | plot.py:121-130 | in submission order the counts are survivors times `batch_size` payoffs and survivors times `batch_size * (steps + 1)` records |
| `Driver.PayoffCount` | plot.py:121-130 | in any completion order there are `batch_size` payoffs and `batch_size * (steps + 1)` records per surviving batch, and none from failed ones |
| `Driver.OneFailedBatch` | plot.py:121-130 | one failed batch out of `n` leaves exactly `(n - 1) * batch_size` collected payoffs. That the run still reaches its summary is `Driver.RunSimulations`' `r.Err? <==> batchSize == 0`, which holds for every set of crashed futures |
| `Driver.InOrderPayoffs` | plot.py:106-130 | with no crash, draining in submission order collects the payoffs of ids `1 .. m * B` in id order |
| `Driver.AllBatchesSucceed` | plot.py:121-132 | with no crash the collected payoffs are exactly one per simulation `1 .. ceil(N / B) * B`, in any order, and the average is their mean |
| `Driver.AverageNonNegativeRun` | plot.py:121-132 | every collected payoff is non-negative, and so is the reported average |
| `Driver.RejectedOutcome` | plot.py:77-81 | with refused parameters (unknown option name, zero steps, or negative `T` with positive steps), a future whose batch has at least one id fails, and one with no ids returns `[]` |
| `Driver.EmptyBatchesUnderRejection` | plot.py:106-123 | `simulations = -10, batch_size = -5` submits futures starting at ids 1 and -4; both batches are empty, so with a bad option name each returns `[]` instead of raising |
| `Driver.RejectedParameters` | plot.py:121-132 | refused parameters (unknown option name, zero steps, or negative `T` with positive steps) make every batch with at least one id raise. Batches with no ids return `[]`, so the run has no payoffs, no records and average 0 |
| `Driver.TenSimulationsInBatchesOfFive` | plot.py:106-132 | 10 call simulations of 12 steps over a non-negative horizon in batches of 5 give two futures, 10 payoffs, 130 records and a non-negative average |
| `Driver.DefaultRun` | plot.py:83-132 | with every default (1000 call simulations of 144 steps in batches of 100) there are ten futures; without a crash they give 1000 payoffs and 145000 records in any completion order, with a non-negative average |
| `Monte.MonteCarloSimulation.Valid` | app/utils/monte.py:10-17 | definition of what `__init__` leaves: nonzero `steps` and `delta_time == T / steps` |
| `Monte.MonteCarloSimulation.NegativeRoot` | app/utils/monte.py:33-36 | definition of the `math.sqrt` failure: the step loop runs and `self.delta_time` is negative |
| `Monte.MonteCarloSimulation.constructor` | app/utils/monte.py:10-17 | stores `stock_value`, `strike`, `sigma = volatility`, `T` and `steps`, sets `risk_free_interest` to 0.02 and `delta_time = T / steps` |
| `Monte.Construct` | app/utils/monte.py:10-17 | creating the object raises ZeroDivisionError exactly for zero steps, and otherwise gives a new object holding the parameters, with `delta_time = T / steps` |
| `Monte.MonteCarloSimulation.PathRows` | app/utils/monte.py:20-51 | a path raises exactly when the loop runs with a negative `delta_time` (ValueError from `math.sqrt` in the first step) or, failing that, when the option name is unknown (ValueError). Otherwise there are `steps + 1` rows, all with the simulation id: price rows with timestamps `0..steps-1`, then a payoff row keyed `simulation` with a non-negative payoff |
| `Monte.MonteCarloSimulation.GeometricBrownianMotion` | app/utils/monte.py:20-51 | the loop that updates `st` and appends to `ans`, raising at `math.sqrt` for a negative `delta_time`, returns exactly `PathRows`. It modifies nothing, so no attribute of the object changes |
| `Monte.PriceRows` | app/utils/monte.py:33-43 | definition of the first `n` price rows of a path, each holding the compounded price and its step number |
| `Monte.PriceRowsStep` | app/utils/monte.py:32-43 | the price rows follow `st *= math.exp(exponent)`: the first is `stock_value` times the first multiplier, and each later one is the previous times its multiplier |
| `Monte.PathRowsRecurrence` | app/utils/monte.py:32-50 | the first price is `stock_value` times the first multiplier, each price is the previous times that step's multiplier, and the payoff is on the last price |
| `Monte.AgreesWithPlot` | app/utils/monte.py:20-51 | the object's path and `plot.py`'s path agree entry for entry on ids, timestamps, prices and payoff, and raise for the same parameters with the same exception; only the payoff entry's keys differ |
| `PlotResult.Ids` | plot_result.py:28-33 | definition of the dict's keys in insertion order: each id appended when it first appears |
| `PlotResult.Members` | plot_result.py:28-33 | definition of one id's list: the entries carrying that id, in input order |
| `PlotResult.GroupsOf` | plot_result.py:37 | definition of the comprehension `[grouped[k] for k in keys]`: one group per selected key, in key order |
| `PlotResult.GroupingStep` | plot_result.py:29-33 | placing one entry adds its id as a new last key if it is new, and appends the entry to its own group only |
| `PlotResult.GroupsMatchStep` | plot_result.py:29-33 | appending an entry to its id's list keeps every id's list equal to that id's entries so far |
| `PlotResult.GroupedStep` | plot_result.py:29-33 | one loop iteration keeps the keys in first-appearance order, the dict's keys equal to them, and each list equal to its id's entries |
| `PlotResult.GroupBySimulation` | plot_result.py:28-33 | the loop builds a dict whose keys, in insertion order, are the ids in first-appearance order, and whose value for each id is that id's entries in input order |
| `PlotResult.Take` | plot_result.py:36 | the slice `s[:k]` is a prefix of `s` of length `min(k, len(s))`, or `max(len(s) + k, 0)` for negative `k` |
| `PlotResult.LoadSimulationData` | plot_result.py:7-39 | a missing file gives `[]`; otherwise we get the groups of the first `num_simulations_to_plot` keys, in key order |
| `PlotResult.LoadSummaryData` | plot_result.py:41-63 | returns the first summary of a non-empty list, and nothing (`{}`) for a missing file or an empty list |
| `PlotResult.SummaryRoundTrip` | plot.py:172-173 | the one-element list that `store_results` writes loads back as the stored summary |
| `PlotResult.IdsDistinct` | plot_result.py:28-33 | the keys are distinct and are exactly the ids that occur in the input |
| `PlotResult.MembersOfAbsent` | plot_result.py:28-33 | an id that does not occur has no group entries |
| `PlotResult.MembersInOrder` | plot_result.py:28-33 | every entry of a group carries the group's id, and grouping a concatenation concatenates the groups, so entries keep their relative order |
| `PlotResult.MembersCarryId` | plot_result.py:28-33 | every entry placed in a group carries that group's id |
| `PlotResult.IdsPrefix` | plot_result.py:28-36 | the keys after any prefix of the input are a prefix of the final keys |
| `PlotResult.GroupOrder` | plot_result.py:28-36 | groups are ordered by first appearance: each occurrence of a later key is preceded by an occurrence of every earlier key |
| `PlotResult.GroupsExtend` | plot_result.py:29-33 | an entry of a known id extends that id's group only |
| `PlotResult.GroupsAddNew` | plot_result.py:29-33 | an entry of a new id adds a new last group holding just that entry |
| `PlotResult.MembersOfNew` | plot_result.py:29-33 | the group of an id that first appears in the last entry holds just that entry |
| `PlotResult.GroupsOfSnoc` | plot_result.py:37 | one more key adds its group at the end |
| `PlotResult.GroupsUnaffected` | plot_result.py:29-33 | an entry does not change the groups of other ids |
| `PlotResult.GroupingPermutation` | plot_result.py:28-33 | concatenating the groups in key order gives a permutation of the input: nothing is lost or duplicated |
| `PlotResult.SelectionBound` | plot_result.py:36-37 | at most `num_simulations_to_plot` groups are selected, and they are the first groups in key order |
| `PlotResult.MembersUniform` | plot_result.py:28-33 | entries that all carry one id form exactly that id's group and no other |
| `PlotResult.IdsAppendFresh` | plot_result.py:28-33 | appending a run of entries of a new id adds that id as the last key |
| `PlotResult.GroupsAppendFresh` | plot_result.py:28-37 | appending a run of entries of a new id adds exactly one group, that run |
| `PlotResult.RoundTripStep` | plot_result.py:28-37 | one more path of the next id extends the keys by that id and the groups by that path |
| `PlotResult.FlattenRoundTrip` | plot_result.py:28-37 | grouping the concatenation of non-empty paths tagged with consecutive ids gives back those ids in order and exactly those paths |
| `PlotResult.BatchRoundTrip` | plot_result.py:28-37 | grouping what one batch wrote gives back its paths: the keys are its ids in ascending order, and each group is that simulation's records |

## Left out

- The Dask client, the scheduler connection and the concurrency behind `as_completed` (plot.py:8-12). Completion order is the input permutation `order`. Cluster-side failures are the input set `crashed`.
- `random.gauss`, `math.exp`, the values of `math.sqrt` and the exponent arithmetic, including `risk_free_interest` and `sigma`. Each step's multiplier is an input, and prices are exact reals with no floating-point rounding. `math.sqrt`'s ValueError for a negative `delta_time` is modelled (`Pricing.MathDomain`). The OverflowError of `math.exp` and of `sigma ** 2` (plot.py:37-39, app/utils/monte.py:35-37) is not; it would fail the path's batch. Infinities and NaN are not modelled either.
- The object's `risk_free_interest` and `sigma` are stored as the source stores them. Nothing in the model reads them, since they only feed the abstracted multiplier; `delta_time` is read only for its sign.
- `time.time()` and `datetime.utcnow().isoformat()`. The payoff entry's timestamp, the start and end times and the summary timestamp are inputs. The unused `timestamp = time.time()` in monte.py's loop is not modelled.
- `workers` (plot.py:83, plot_result.py:7, plot_result.py:41) only names the results files and appears in printed text, so it is not a parameter of the model. The other default arguments are Dafny default parameter values: `option_type="call"` (`Plot.Params`, `Monte.MonteCarloSimulation.PathRows`), `run_simulations`' market, `simulations` and `batch_size` (`Driver.DefaultParams`, `Driver.RunSimulations`), and `num_simulations_to_plot=300` (`PlotResult.LoadSimulationData`).
- `print` output. This includes the per-batch success and error messages, which carry no data out of the run.
- `store_results` (`os.makedirs`, `open`, `json.dump`). File contents are the optional inputs of `LoadSimulationData` and `LoadSummaryData`; no JSON encoding is modelled.
- `plot_simulations` and `main` in plot_result.py (matplotlib and argparse). Also app/utils/data_fetcher.py (network), app/websocket/handlers.py (transport, random values), and the FastAPI wiring in app/api/routes.py and app/main.py.
- `Pricing.Lower` folds only ASCII capitals. Python's `str.lower()` also folds other scripts, but whether a name equals "call" or "put" comes out the same, because no non-ASCII character lowercases to one of those letters.
- Dynamic typing is not modelled. Entries are a datatype, so a stored entry without a `simulation_id` key, which would raise KeyError in `load_simulation_data`, cannot occur. JSON key or value coercions cannot occur either.
- `Monte.MonteCarloSimulation.constructor` requires `steps != 0`, because a Dafny constructor cannot raise. The ZeroDivisionError for zero steps is modelled by `Monte.Construct`.
