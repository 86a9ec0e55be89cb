/** plot.py `run_simulations`: split the run into batches, submit one future
    per batch, drain the futures in the order they complete, average the
    collected payoffs and build the summary.

    The cluster is not modelled. Its only observable effects are the order in
    which `as_completed` yields the futures (`order`, a permutation of the
    future positions) and which futures raise for reasons outside the batch
    function, such as a lost worker (`crashed`). A batch that does run gives
    what `Geometric_Brownian_Motion_Batch` computes. */
module Driver {
  import opened Pricing
  import opened Seqs
  import opened Plot

  /** One submitted future: the batch function's `batch_size` and
      `start_sim_id` arguments. */
  datatype BatchUnit = BatchUnit(startSimId: int, batchSize: int)

  /** `completed_future.result()`: the batch's records, or an exception. */
  datatype Outcome = Done(records: seq<Entry>) | Failed

  /** The summary dictionary (execution time and timestamp are inputs). */
  datatype Summary = Summary(
    message: string,
    averagePayoff: real,
    totalSimulations: int,
    executionTimeSeconds: real,
    timestamp: string)

  /** What the run hands to `store_results`. */
  datatype RunOutput = RunOutput(allSimulations: seq<Entry>, summary: Summary)

  const Message := "All simulations completed."

  /** The futures submitted by `for batch_start in range(0, simulations,
      batch_size)`: each starts at `batch_start + 1` and has the full
      `batch_size`. */
  function Partition(simulations: int, batchSize: int): seq<BatchUnit>
    requires batchSize != 0
  {
    Map((batchStart: int) => BatchUnit(batchStart + 1, batchSize), Range(0, simulations, batchSize))
  }

  /** The simulation ids a unit runs: `range(start_sim_id, start_sim_id + batch_size)`. */
  function UnitIds(u: BatchUnit): (ids: seq<int>)
    ensures |ids| == Iterations(u.batchSize)
  {
    Consecutive(u.startSimId, Iterations(u.batchSize))
  }

  /** With a positive batch size there are `ceil(simulations / batch_size)`
      batches: the last one starts at or below `simulations` and together they
      reach at least `simulations`. */
  lemma PartitionCount(simulations: int, batchSize: int)
    requires batchSize > 0
    ensures var n := |Partition(simulations, batchSize)|;
      && n * batchSize >= simulations
      && (n > 0 ==> 1 + (n - 1) * batchSize <= simulations)
      && (simulations <= 0 ==> n == 0)
  {
    RangeAscending(0, simulations, batchSize);
    var n := |Range(0, simulations, batchSize)|;
    if n > 0 {
      assert Range(0, simulations, batchSize)[n - 1] < simulations;
    }
  }

  /** The batch at position `j` starts at id `1 + j * B` and has the full size `B`. */
  lemma PartitionAt(simulations: int, batchSize: int, j: nat)
    requires batchSize > 0
    requires j < |Partition(simulations, batchSize)|
    ensures Partition(simulations, batchSize)[j] == BatchUnit(1 + j * batchSize, batchSize)
  {
    RangeAscending(0, simulations, batchSize);
    assert Range(0, simulations, batchSize)[j] == j * batchSize;
  }

  /** A running count that stays `survivors * size` when one more future,
      surviving or not, is drained. */
  lemma CountStep(before: int, after: int, survivorsBefore: int, survivorsAfter: int, size: int, crashedHere: bool)
    requires before == survivorsBefore * size
    requires after == before + if crashedHere then 0 else size
    requires survivorsAfter == survivorsBefore + if crashedHere then 0 else 1
    ensures after == survivorsAfter * size
  {
    if !crashedHere {
      MulSucc(survivorsBefore, size);
    }
  }

  /** The id ranges of the first `m` batches, one after the other, are
      exactly `1 .. m * B`. */
  lemma {:induction false} PrefixIds(simulations: int, batchSize: int, m: nat)
    requires batchSize > 0
    requires m <= |Partition(simulations, batchSize)|
    ensures var ids := Flatten(Map(UnitIds, Partition(simulations, batchSize)[..m]));
      |ids| == m * batchSize && forall i :: 0 <= i < |ids| ==> ids[i] == i + 1
    decreases m
  {
    var units := Partition(simulations, batchSize);
    if m > 0 {
      PrefixIds(simulations, batchSize, m - 1);
      PartitionAt(simulations, batchSize, m - 1);
      var before := Map(UnitIds, units[..m - 1]);
      var last := UnitIds(units[m - 1]);
      assert units[..m] == units[..m - 1] + [units[m - 1]];
      MapAppend(UnitIds, units[..m - 1], [units[m - 1]]);
      FlattenSnoc(before, last);
      var base := (m - 1) * batchSize;
      MulSucc(m - 1, batchSize);
      assert units[m - 1].startSimId == 1 + base;
      var ids := Flatten(before) + last;
      forall i | base <= i < |ids|
        ensures ids[i] == i + 1
      {
        assert ids[i] == last[i - base];
      }
    } else {
      assert Map(UnitIds, units[..0]) == [];
    }
  }

  /** The batches' id ranges are contiguous, disjoint and in ascending order,
      and together they cover exactly `1 .. ceil(N / B) * B`: a superset of
      `1 .. N` whenever `B` does not divide `N`. */
  lemma PartitionIds(simulations: int, batchSize: int)
    requires batchSize > 0
    ensures var units := Partition(simulations, batchSize);
      Flatten(Map(UnitIds, units)) == Consecutive(1, |units| * batchSize)
  {
    var units := Partition(simulations, batchSize);
    PrefixIds(simulations, batchSize, |units|);
    assert units[..|units|] == units;
    var ids := Flatten(Map(UnitIds, units));
    assert ids == Consecutive(1, |units| * batchSize);
  }

  /** Ten simulations in batches of five give ids 1..5 and 6..10; one
      simulation in batches of five still submits a full batch, ids 1..5. */
  lemma PartitionExamples()
    ensures Partition(10, 5) == [BatchUnit(1, 5), BatchUnit(6, 5)]
    ensures Partition(1, 5) == [BatchUnit(1, 5)]
    ensures Partition(0, 5) == []
  {
    assert Range(0, 10, 5) == [0, 5];
    assert Range(0, 1, 5) == [0];
  }

  /** What the future at position `j` yields. */
  function OutcomeOf(p: Params, d: Draws, crashed: set<int>, units: seq<BatchUnit>, j: int): Outcome
  {
    if 0 <= j < |units| && j !in crashed then
      match BatchRecords(p, units[j].startSimId, Iterations(units[j].batchSize), d)
      case Ok(records) => Done(records)
      case Err(_) => Failed
    else
      Failed
  }

  function OutcomeFn(p: Params, d: Draws, crashed: set<int>, units: seq<BatchUnit>): int -> Outcome
  {
    j => OutcomeOf(p, d, crashed, units, j)
  }

  /** The outcomes in the order `as_completed` yields them. */
  function Completed(p: Params, d: Draws, crashed: set<int>, units: seq<BatchUnit>, order: seq<int>): seq<Outcome>
  {
    Map(OutcomeFn(p, d, crashed, units), order)
  }

  /** The payoffs one outcome adds: those of a successful batch, none of a failed one. */
  function OutcomePayoffs(o: Outcome): seq<real>
  {
    if o.Done? then PayoffsOf(o.records) else []
  }

  /** The records one outcome adds to `all_simulations`. */
  function OutcomeRecords(o: Outcome): seq<Entry>
  {
    if o.Done? then o.records else []
  }

  function CollectedPayoffs(outcomes: seq<Outcome>): seq<real>
  {
    Flatten(Map(OutcomePayoffs, outcomes))
  }

  function CollectedRecords(outcomes: seq<Outcome>): seq<Entry>
  {
    Flatten(Map(OutcomeRecords, outcomes))
  }

  /** Draining one more future adds what its outcome carries. */
  lemma DrainStep(p: Params, d: Draws, crashed: set<int>, units: seq<BatchUnit>, order: seq<int>, k: nat)
    requires k < |order|
    ensures var o := OutcomeOf(p, d, crashed, units, order[k]);
      && CollectedPayoffs(Completed(p, d, crashed, units, order[..k + 1]))
         == CollectedPayoffs(Completed(p, d, crashed, units, order[..k])) + OutcomePayoffs(o)
      && CollectedRecords(Completed(p, d, crashed, units, order[..k + 1]))
         == CollectedRecords(Completed(p, d, crashed, units, order[..k])) + OutcomeRecords(o)
  {
    var f := OutcomeFn(p, d, crashed, units);
    var before := Completed(p, d, crashed, units, order[..k]);
    var o := OutcomeOf(p, d, crashed, units, order[k]);
    assert order[..k + 1] == order[..k] + [order[k]];
    MapAppend(f, order[..k], [order[k]]);
    assert Completed(p, d, crashed, units, order[..k + 1]) == before + [o];
    MapAppend(OutcomePayoffs, before, [o]);
    FlattenSnoc(Map(OutcomePayoffs, before), OutcomePayoffs(o));
    MapAppend(OutcomeRecords, before, [o]);
    FlattenSnoc(Map(OutcomeRecords, before), OutcomeRecords(o));
  }

  /** The submission loop: one future per `batch_start` of
      `range(0, simulations, batch_size)`, in that order. */
  method SubmitBatches(simulations: int, batchSize: int) returns (futures: seq<BatchUnit>)
    requires batchSize != 0
    ensures futures == Partition(simulations, batchSize)
  {
    futures := [];
    var starts := Range(0, simulations, batchSize);
    for i := 0 to |starts|
      invariant futures == Partition(simulations, batchSize)[..i]
    {
      futures := futures + [BatchUnit(starts[i] + 1, batchSize)];
    }
  }

  /** `for entry in result: if 'payoff' in entry: payoffs.append(entry['payoff'])`. */
  method CollectPayoffs(result: seq<Entry>) returns (found: seq<real>)
    ensures found == PayoffsOf(result)
  {
    found := [];
    assert result[..0] == [];
    for m := 0 to |result|
      invariant found == PayoffsOf(result[..m])
    {
      PayoffsOfSnoc(result, m);
      if result[m].PayoffPoint? {
        found := found + [result[m].payoff];
      }
    }
    assert result[..|result|] == result;
  }

  /** `completed_future.result()` for the future at position `j`: a crashed
      future raises, any other runs its batch. */
  method AwaitFuture(p: Params, d: Draws, crashed: set<int>, futures: seq<BatchUnit>, j: int)
    returns (o: Outcome)
    requires 0 <= j < |futures|
    ensures o == OutcomeOf(p, d, crashed, futures, j)
  {
    if j in crashed {
      return Failed;
    }
    var result := GeometricBrownianMotionBatch(p, futures[j].batchSize, futures[j].startSimId, d);
    o := if result.Ok? then Done(result.value) else Failed;
  }

  /** `run_simulations`' default market: `stock_value=100, strike=103,
      volatility=0.3, steps=144, T=1` and `option_type="call"`. */
  const DefaultParams: Params := Params(100.0, 103.0, 0.3, 144, 1.0)

  /** `run_simulations(stock_value, strike, volatility, steps, T, simulations,
      batch_size, option_type, workers)` up to the call of `store_results`,
      with the same defaults (`simulations=1000, batch_size=100`).
      `startTime`, `endTime` and `now` are the clock readings. */
  method RunSimulations(
    p: Params := DefaultParams, simulations: int := 1000, batchSize: int := 100, d: Draws,
    crashed: set<int>, order: seq<int>,
    startTime: real, endTime: real, now: string)
    returns (r: Result<RunOutput>)
    requires batchSize != 0 ==> IsOrdering(order, |Partition(simulations, batchSize)|)
    ensures r.Err? <==> batchSize == 0
    ensures r.Err? ==> r.error == ZeroRangeStep
    ensures r.Ok? ==>
      var outcomes := Completed(p, d, crashed, Partition(simulations, batchSize), order);
      r.value == RunOutput(
        CollectedRecords(outcomes),
        Summary(Message, Average(CollectedPayoffs(outcomes)), simulations, endTime - startTime, now))
  {
    if batchSize == 0 {
      // range(0, simulations, 0) raises before anything is submitted
      return Err(ZeroRangeStep);
    }
    var payoffs: seq<real> := [];
    var allSimulations: seq<Entry> := [];
    var futures := SubmitBatches(simulations, batchSize);

    for k := 0 to |order|
      invariant payoffs == CollectedPayoffs(Completed(p, d, crashed, futures, order[..k]))
      invariant allSimulations == CollectedRecords(Completed(p, d, crashed, futures, order[..k]))
    {
      OrderingInBounds(order, |futures|, k);
      DrainStep(p, d, crashed, futures, order, k);
      var outcome := AwaitFuture(p, d, crashed, futures, order[k]);
      if outcome.Done? {
        var found := CollectPayoffs(outcome.records);
        payoffs := payoffs + found;
        allSimulations := allSimulations + outcome.records;
      }
      // otherwise the exception is reported and the loop goes on
    }

    assert order[..|order|] == order;
    var averagePayoff := if |payoffs| > 0 then Sum(payoffs) / (|payoffs| as real) else 0.0;
    r := Ok(RunOutput(allSimulations, Summary(Message, averagePayoff, simulations, endTime - startTime, now)));
  }

  /** Completion order does not matter: any two orders in which the futures
      may complete give the same average payoff, and the same records up to
      order. */
  lemma CompletionOrderIrrelevant(
    p: Params, d: Draws, crashed: set<int>, units: seq<BatchUnit>, order1: seq<int>, order2: seq<int>)
    requires multiset(order1) == multiset(order2)
    ensures Average(CollectedPayoffs(Completed(p, d, crashed, units, order1)))
         == Average(CollectedPayoffs(Completed(p, d, crashed, units, order2)))
    ensures multiset(CollectedPayoffs(Completed(p, d, crashed, units, order1)))
         == multiset(CollectedPayoffs(Completed(p, d, crashed, units, order2)))
    ensures multiset(CollectedRecords(Completed(p, d, crashed, units, order1)))
         == multiset(CollectedRecords(Completed(p, d, crashed, units, order2)))
  {
    var c1 := Completed(p, d, crashed, units, order1);
    var c2 := Completed(p, d, crashed, units, order2);
    MapPermutation(OutcomeFn(p, d, crashed, units), order1, order2);
    MapPermutation(OutcomePayoffs, c1, c2);
    FlattenPermutation(Map(OutcomePayoffs, c1), Map(OutcomePayoffs, c2));
    AveragePermutation(CollectedPayoffs(c1), CollectedPayoffs(c2));
    MapPermutation(OutcomeRecords, c1, c2);
    FlattenPermutation(Map(OutcomeRecords, c1), Map(OutcomeRecords, c2));
  }

  /** The number of the first `n` futures that did not crash. */
  function Survivors(n: nat, crashed: set<int>): nat
  {
    if n == 0 then 0 else Survivors(n - 1, crashed) + (if n - 1 in crashed then 0 else 1)
  }

  /** At most every future survives, and without a crash every one does. */
  lemma {:induction false} SurvivorsBound(n: nat, crashed: set<int>)
    ensures Survivors(n, crashed) <= n
    ensures (forall j :: 0 <= j < n ==> j !in crashed) ==> Survivors(n, crashed) == n
    decreases n
  {
    if n > 0 {
      SurvivorsBound(n - 1, crashed);
    }
  }

  /** Exactly one crashed future among `n` leaves `n - 1` survivors. */
  lemma {:induction false} OneCrash(n: nat, j: int)
    requires 0 <= j < n
    ensures Survivors(n, {j}) == n - 1
    decreases n
  {
    if j < n - 1 {
      OneCrash(n - 1, j);
    } else {
      SurvivorsBound(n - 1, {j});
    }
  }

  /** With accepted parameters a future fails exactly when it crashed, and a
      batch that runs contributes one payoff per id, in id order, and
      `steps + 1` records per id. */
  lemma OutcomeShape(p: Params, d: Draws, crashed: set<int>, units: seq<BatchUnit>, j: int)
    requires Accepts(p) && 0 <= j < |units|
    ensures var o := OutcomeOf(p, d, crashed, units, j);
      var n := Iterations(units[j].batchSize);
      && (o.Done? <==> j !in crashed)
      && (o.Done? ==> OutcomePayoffs(o) == PayoffsFrom(p, d, units[j].startSimId, n))
      && (o.Done? ==> |OutcomeRecords(o)| == n * (Iterations(p.steps) + 1))
  {
    var u := units[j];
    BatchPayoffs(p, u.startSimId, Iterations(u.batchSize), d);
    BatchLength(p, u.startSimId, Iterations(u.batchSize), d);
  }

  /** How many payoffs and records the future at position `j` adds. */
  lemma OutcomeSizes(p: Params, d: Draws, crashed: set<int>, units: seq<BatchUnit>, j: int)
    requires Accepts(p) && 0 <= j < |units|
    ensures var o := OutcomeOf(p, d, crashed, units, j);
      var n := Iterations(units[j].batchSize);
      && |OutcomePayoffs(o)| == (if j in crashed then 0 else n)
      && |OutcomeRecords(o)| == (if j in crashed then 0 else n * (Iterations(p.steps) + 1))
  {
    OutcomeShape(p, d, crashed, units, j);
  }

  /** The first `m` futures drained in submission order. */
  lemma InOrderStep(p: Params, d: Draws, crashed: set<int>, units: seq<BatchUnit>, m: nat)
    requires 0 < m
    ensures var o := OutcomeOf(p, d, crashed, units, m - 1);
      && CollectedPayoffs(Completed(p, d, crashed, units, Indices(m)))
         == CollectedPayoffs(Completed(p, d, crashed, units, Indices(m - 1))) + OutcomePayoffs(o)
      && CollectedRecords(Completed(p, d, crashed, units, Indices(m)))
         == CollectedRecords(Completed(p, d, crashed, units, Indices(m - 1))) + OutcomeRecords(o)
  {
    assert Indices(m)[..m - 1] == Indices(m - 1);
    assert Indices(m)[..m] == Indices(m);
    DrainStep(p, d, crashed, units, Indices(m), m - 1);
  }

  /** Draining the future at position `m - 1` in submission order adds
      `batch_size` payoffs and `batch_size * (steps + 1)` records when it
      survived, and none when it crashed. */
  lemma InOrderCountStep(p: Params, d: Draws, crashed: set<int>, units: seq<BatchUnit>, m: nat)
    requires Accepts(p) && 0 < m <= |units| && units[m - 1].batchSize > 0
    ensures var size := units[m - 1].batchSize;
      && |CollectedPayoffs(Completed(p, d, crashed, units, Indices(m)))|
         == |CollectedPayoffs(Completed(p, d, crashed, units, Indices(m - 1)))|
            + (if m - 1 in crashed then 0 else size)
      && |CollectedRecords(Completed(p, d, crashed, units, Indices(m)))|
         == |CollectedRecords(Completed(p, d, crashed, units, Indices(m - 1)))|
            + (if m - 1 in crashed then 0 else size * (Iterations(p.steps) + 1))
  {
    InOrderStep(p, d, crashed, units, m);
    OutcomeSizes(p, d, crashed, units, m - 1);
  }

  /** In submission order, each surviving future adds `batch_size` payoffs
      and `batch_size * (steps + 1)` records. */
  lemma {:induction false} InOrderCounts(p: Params, d: Draws, crashed: set<int>, simulations: int, batchSize: int, m: nat)
    requires Accepts(p) && batchSize > 0
    requires m <= |Partition(simulations, batchSize)|
    ensures |CollectedPayoffs(Completed(p, d, crashed, Partition(simulations, batchSize), Indices(m)))|
         == Survivors(m, crashed) * batchSize
    ensures |CollectedRecords(Completed(p, d, crashed, Partition(simulations, batchSize), Indices(m)))|
         == Survivors(m, crashed) * (batchSize * (Iterations(p.steps) + 1))
    decreases m
  {
    var units := Partition(simulations, batchSize);
    if m == 0 {
      assert Completed(p, d, crashed, units, Indices(0)) == [];
    } else {
      InOrderCounts(p, d, crashed, simulations, batchSize, m - 1);
      PartitionAt(simulations, batchSize, m - 1);
      InOrderCountStep(p, d, crashed, units, m);
      var perPath := batchSize * (Iterations(p.steps) + 1);
      var prefix, whole := Completed(p, d, crashed, units, Indices(m - 1)), Completed(p, d, crashed, units, Indices(m));
      var crashedHere := m - 1 in crashed;
      CountStep(|CollectedPayoffs(prefix)|, |CollectedPayoffs(whole)|, Survivors(m - 1, crashed), Survivors(m, crashed),
                batchSize, crashedHere);
      CountStep(|CollectedRecords(prefix)|, |CollectedRecords(whole)|, Survivors(m - 1, crashed), Survivors(m, crashed),
                perPath, crashedHere);
    }
  }

  /** With accepted parameters, every surviving batch contributes one payoff
      per simulation it runs and failed futures contribute none, whatever the
      completion order. */
  lemma PayoffCount(p: Params, d: Draws, crashed: set<int>, simulations: int, batchSize: int, order: seq<int>)
    requires Accepts(p) && batchSize > 0
    requires IsOrdering(order, |Partition(simulations, batchSize)|)
    ensures var units := Partition(simulations, batchSize);
      var outcomes := Completed(p, d, crashed, units, order);
      && |CollectedPayoffs(outcomes)| == Survivors(|units|, crashed) * batchSize
      && |CollectedRecords(outcomes)| == Survivors(|units|, crashed) * (batchSize * (Iterations(p.steps) + 1))
  {
    var units := Partition(simulations, batchSize);
    var n := |units|;
    CompletionOrderIrrelevant(p, d, crashed, units, order, Indices(n));
    InOrderCounts(p, d, crashed, simulations, batchSize, n);
    var a, b := Completed(p, d, crashed, units, order), Completed(p, d, crashed, units, Indices(n));
    assert |CollectedPayoffs(a)| == |multiset(CollectedPayoffs(a))| == |multiset(CollectedPayoffs(b))|;
    assert |CollectedRecords(a)| == |multiset(CollectedRecords(a))| == |multiset(CollectedRecords(b))|;
  }

  /** One failed batch out of `n` leaves exactly `(n - 1) * batch_size`
      collected payoffs. */
  lemma OneFailedBatch(p: Params, d: Draws, j: int, simulations: int, batchSize: int, order: seq<int>)
    requires Accepts(p) && batchSize > 0
    requires IsOrdering(order, |Partition(simulations, batchSize)|)
    requires 0 <= j < |Partition(simulations, batchSize)|
    ensures var units := Partition(simulations, batchSize);
      |CollectedPayoffs(Completed(p, d, {j}, units, order))| == (|units| - 1) * batchSize
  {
    PayoffCount(p, d, {j}, simulations, batchSize, order);
    OneCrash(|Partition(simulations, batchSize)|, j);
  }

  /** With no crash, draining in submission order collects the payoffs of
      ids `1 .. m * B` in id order. */
  lemma {:induction false} InOrderPayoffs(p: Params, d: Draws, simulations: int, batchSize: int, m: nat)
    requires Accepts(p) && batchSize > 0
    requires m <= |Partition(simulations, batchSize)|
    ensures CollectedPayoffs(Completed(p, d, {}, Partition(simulations, batchSize), Indices(m)))
         == PayoffsFrom(p, d, 1, m * batchSize)
    decreases m
  {
    var units := Partition(simulations, batchSize);
    if m == 0 {
      assert Completed(p, d, {}, units, Indices(0)) == [];
    } else {
      var base := (m - 1) * batchSize;
      InOrderPayoffs(p, d, simulations, batchSize, m - 1);
      InOrderStep(p, d, {}, units, m);
      PartitionAt(simulations, batchSize, m - 1);
      OutcomeShape(p, d, {}, units, m - 1);
      assert OutcomePayoffs(OutcomeOf(p, d, {}, units, m - 1)) == PayoffsFrom(p, d, 1 + base, batchSize);
      MulSucc(m - 1, batchSize);
      assert m * batchSize == base + batchSize;
      PayoffsFromSplit(p, d, 1, base, batchSize);
    }
  }

  /** When no future crashes, the collected payoffs are the payoffs of the
      simulations `1 .. ceil(N / B) * B`, one each, and the average is their
      arithmetic mean, whatever the completion order. */
  lemma AllBatchesSucceed(p: Params, d: Draws, simulations: int, batchSize: int, order: seq<int>)
    requires Accepts(p) && batchSize > 0
    requires IsOrdering(order, |Partition(simulations, batchSize)|)
    ensures var units := Partition(simulations, batchSize);
      var payoffs := CollectedPayoffs(Completed(p, d, {}, units, order));
      && multiset(payoffs) == multiset(PayoffsFrom(p, d, 1, |units| * batchSize))
      && Average(payoffs) == Average(PayoffsFrom(p, d, 1, |units| * batchSize))
  {
    var units := Partition(simulations, batchSize);
    CompletionOrderIrrelevant(p, d, {}, units, order, Indices(|units|));
    InOrderPayoffs(p, d, simulations, batchSize, |units|);
  }

  /** Every collected payoff is non-negative, so the reported average is too. */
  lemma AverageNonNegativeRun(p: Params, d: Draws, crashed: set<int>, units: seq<BatchUnit>, order: seq<int>)
    ensures NonNegative(CollectedPayoffs(Completed(p, d, crashed, units, order)))
    ensures Average(CollectedPayoffs(Completed(p, d, crashed, units, order))) >= 0.0
  {
    var outcomes := Completed(p, d, crashed, units, order);
    var contributions := Map(OutcomePayoffs, outcomes);
    forall k | 0 <= k < |contributions|
      ensures NonNegative(contributions[k])
    {
      var j := order[k];
      var o := OutcomeOf(p, d, crashed, units, j);
      assert contributions[k] == OutcomePayoffs(o);
      if o.Done? {
        var u := units[j];
        var n := Iterations(u.batchSize);
        BatchAtomic(p, u.startSimId, n, d);
        assert Accepts(p) || n == 0;
        if Accepts(p) {
          OutcomeShape(p, d, crashed, units, j);
          var s := PayoffsFrom(p, d, u.startSimId, n);
          assert OutcomePayoffs(o) == s;
          forall i | 0 <= i < n
            ensures s[i] >= 0.0
          {
            assert s[i] == PathPayoff(p, d, u.startSimId + i);
          }
        } else {
          assert PayoffsOf([]) == [];
        }
      }
    }
    FlattenNonNegative(contributions);
    AverageNonNegative(CollectedPayoffs(outcomes));
  }

  /** With parameters a path refuses (zero steps, a negative horizon with
      positive steps, or an option name other than call or put), a future
      whose batch has at least one id fails, and one whose batch has none
      returns `[]` without raising. */
  lemma RejectedOutcome(p: Params, d: Draws, crashed: set<int>, units: seq<BatchUnit>, j: int)
    requires !Accepts(p) && 0 <= j < |units| && j !in crashed
    ensures Iterations(units[j].batchSize) > 0 ==> OutcomeOf(p, d, crashed, units, j) == Failed
    ensures Iterations(units[j].batchSize) == 0 ==> OutcomeOf(p, d, crashed, units, j) == Done([])
  {
    BatchAtomic(p, units[j].startSimId, Iterations(units[j].batchSize), d);
  }

  /** `range(0, -10, -5)` submits two futures, with start ids 1 and -4, and
      `range(1, -4)` is empty: with rejected parameters they return `[]`
      instead of raising. */
  lemma EmptyBatchesUnderRejection(p: Params, d: Draws)
    requires !Accepts(p)
    ensures Partition(-10, -5) == [BatchUnit(1, -5), BatchUnit(-4, -5)]
    ensures OutcomeOf(p, d, {}, Partition(-10, -5), 0) == Done([])
    ensures OutcomeOf(p, d, {}, Partition(-10, -5), 1) == Done([])
  {
    assert Range(0, -10, -5) == [0, -5];
    RejectedOutcome(p, d, {}, Partition(-10, -5), 0);
    RejectedOutcome(p, d, {}, Partition(-10, -5), 1);
  }

  /** With parameters a path refuses (zero steps, a negative horizon with
      positive steps, or an option name other than call or put) every batch
      with at least one id raises and the others return `[]`: nothing is
      collected and the reported average is 0. */
  lemma RejectedParameters(p: Params, d: Draws, crashed: set<int>, units: seq<BatchUnit>, order: seq<int>)
    requires !Accepts(p)
    ensures CollectedPayoffs(Completed(p, d, crashed, units, order)) == []
    ensures CollectedRecords(Completed(p, d, crashed, units, order)) == []
    ensures Average(CollectedPayoffs(Completed(p, d, crashed, units, order))) == 0.0
  {
    var outcomes := Completed(p, d, crashed, units, order);
    forall k | 0 <= k < |outcomes|
      ensures OutcomePayoffs(outcomes[k]) == [] && OutcomeRecords(outcomes[k]) == []
    {
      var j := order[k];
      if 0 <= j < |units| && j !in crashed {
        var u := units[j];
        BatchAtomic(p, u.startSimId, Iterations(u.batchSize), d);
        assert PayoffsOf([]) == [];
      }
    }
    FlattenEmpties(Map(OutcomePayoffs, outcomes));
    FlattenEmpties(Map(OutcomeRecords, outcomes));
  }

  /** The scenario of 10 call simulations of 12 steps over a non-negative
      horizon in batches of 5: two futures, ten payoffs, 130 records (120
      price points and 10 payoffs), and a non-negative average, in either
      completion order. */
  lemma TenSimulationsInBatchesOfFive(p: Params, d: Draws, order: seq<int>)
    requires p.steps == 12 && p.horizon >= 0.0 && ParseOption(p.optionType) == Some(Call)
    requires IsOrdering(order, 2)
    ensures Partition(10, 5) == [BatchUnit(1, 5), BatchUnit(6, 5)]
    ensures var outcomes := Completed(p, d, {}, Partition(10, 5), order);
      && |CollectedPayoffs(outcomes)| == 10
      && |CollectedRecords(outcomes)| == 130
      && Average(CollectedPayoffs(outcomes)) >= 0.0
  {
    PartitionExamples();
    PayoffCount(p, d, {}, 10, 5, order);
    SurvivorsBound(2, {});
    AverageNonNegativeRun(p, d, {}, Partition(10, 5), order);
  }

  /** A run with every default: 1000 call simulations of 144 steps in ten
      batches of 100. Without a crash it collects 1000 payoffs and 145000
      records in any completion order, with a non-negative average. */
  lemma DefaultRun(d: Draws, order: seq<int>)
    requires IsOrdering(order, 10)
    ensures Accepts(DefaultParams) && DefaultParams.optionType == "call"
    ensures |Partition(1000, 100)| == 10
    ensures var outcomes := Completed(DefaultParams, d, {}, Partition(1000, 100), order);
      && |CollectedPayoffs(outcomes)| == 1000
      && |CollectedRecords(outcomes)| == 145000
      && Average(CollectedPayoffs(outcomes)) >= 0.0
  {
    assert Lower("call") == "call";
    PartitionCount(1000, 100);
    var n := |Partition(1000, 100)|;
    assert n == 10;
    SurvivorsBound(10, {});
    PayoffCount(DefaultParams, d, {}, 1000, 100, order);
    AverageNonNegativeRun(DefaultParams, d, {}, Partition(1000, 100), order);
  }
}
