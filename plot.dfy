/** plot.py: one simulated price path with its payoff
    (`Geometric_Brownian_Motion`) and a batch of consecutive paths run as one
    unit of work (`Geometric_Brownian_Motion_Batch`).

    The Gaussian draws and `math.exp` are not modelled: each step's factor
    `math.exp(exponent)` is an input, as is the `time.time()` reading stored
    with the payoff, so a path is determined by its inputs. */
module Plot {
  import opened Pricing
  import opened Seqs

  /** One element of a results list. */
  datatype Entry =
      /** `{"simulation_id", "current_price", "timestamp": step}` */
    | PricePoint(simulationId: int, currentPrice: real, timestamp: int)
      /** `{"simulation_id", "payoff", "final_price", "timestamp": time.time()}` */
    | PayoffPoint(simulationId: int, payoff: real, finalPrice: real, wallClock: real)

  /** The arguments that every path of a run shares. Volatility and horizon
      enter the exponent, which is an input here; of the horizon only its sign
      matters, because a negative `T / steps` makes `math.sqrt` raise. The
      option type defaults to "call", as in both path functions. */
  datatype Params = Params(
    stockValue: real,
    strike: real,
    volatility: real,
    steps: int,
    horizon: real,
    optionType: string := "call")

  /** What one path takes from outside: a multiplier per step and the clock
      reading for its payoff record. */
  datatype PathInputs = PathInputs(factors: seq<real>, clock: real)

  /** The source of those inputs for a whole run: `factor(simulationId, step)`
      and `clock(simulationId)`. */
  datatype Draws = Draws(factor: (int, int) -> real, clock: int -> real)

  function InputsFor(d: Draws, steps: int, simulationId: int): (inputs: PathInputs)
    ensures |inputs.factors| == Iterations(steps)
    ensures forall i :: 0 <= i < Iterations(steps) ==> inputs.factors[i] == d.factor(simulationId, i)
  {
    PathInputs(
      seq(Iterations(steps), i requires 0 <= i < Iterations(steps) => d.factor(simulationId, i)),
      d.clock(simulationId))
  }

  /** The step loop runs and `delta_time = T / steps` is negative, so the
      first step's `math.sqrt(delta_time)` raises. */
  predicate NegativeRoot(p: Params)
  {
    p.steps > 0 && p.horizon < 0.0
  }

  /** The parameters under which a path completes instead of raising. */
  predicate Accepts(p: Params)
  {
    p.steps != 0 && !NegativeRoot(p) && ParseOption(p.optionType).Some?
  }

  /** The exception a path raises under parameters it does not accept: the
      division comes first, then the step loop, then the option name. */
  function Raised(p: Params): (e: Error)
    ensures e == ZeroDivision <==> p.steps == 0
    ensures e == MathDomain <==> NegativeRoot(p)
    ensures e == InvalidOptionType <==> p.steps != 0 && !NegativeRoot(p)
  {
    if p.steps == 0 then ZeroDivision else if NegativeRoot(p) then MathDomain else InvalidOptionType
  }

  /** The first `n` price records of a path. */
  function PricePoints(simulationId: int, s0: real, factors: seq<real>, n: nat): seq<Entry>
    requires n <= |factors|
  {
    seq(n, i requires 0 <= i < n => PricePoint(simulationId, Compound(s0, factors[..i + 1]), i))
  }

  /** What `Geometric_Brownian_Motion` returns, or the exception it raises. */
  function PathRecords(p: Params, simulationId: int, inputs: PathInputs): (r: Result<seq<Entry>>)
    requires |inputs.factors| == Iterations(p.steps)
    ensures r.Err? <==> !Accepts(p)
    ensures r.Err? ==> r.error == Raised(p)
    ensures r.Ok? ==> |r.value| == Iterations(p.steps) + 1
    ensures r.Ok? ==> forall i :: 0 <= i < |r.value| ==> r.value[i].simulationId == simulationId
    ensures r.Ok? ==> forall i :: 0 <= i < |r.value| - 1 ==>
      r.value[i].PricePoint? && r.value[i].timestamp == i
    ensures r.Ok? ==>
      var last := r.value[|r.value| - 1];
      && last.PayoffPoint?
      && last.finalPrice == Compound(p.stockValue, inputs.factors)
      && last.payoff == PayoffFor(ParseOption(p.optionType).value, last.finalPrice, p.strike)
      && last.wallClock == inputs.clock
  {
    if p.steps == 0 then
      Err(ZeroDivision)
    else if NegativeRoot(p) then
      Err(MathDomain)
    else
      var st := Compound(p.stockValue, inputs.factors);
      match ParseOption(p.optionType)
      case None => Err(InvalidOptionType)
      case Some(kind) =>
        Ok(PricePoints(simulationId, p.stockValue, inputs.factors, |inputs.factors|)
           + [PayoffPoint(simulationId, PayoffFor(kind, st, p.strike), st, inputs.clock)])
  }

  /** The record of step `i` holds the price after `i + 1` factors. */
  lemma PathPriceAt(p: Params, simulationId: int, inputs: PathInputs, i: nat)
    requires |inputs.factors| == Iterations(p.steps)
    requires Accepts(p)
    requires i < |inputs.factors|
    ensures PathRecords(p, simulationId, inputs).value[i]
         == PricePoint(simulationId, Compound(p.stockValue, inputs.factors[..i + 1]), i)
  {
    var f := inputs.factors;
    var points := PricePoints(simulationId, p.stockValue, f, |f|);
    assert PathRecords(p, simulationId, inputs).value[..|f|] == points;
    assert points[i] == PricePoint(simulationId, Compound(p.stockValue, f[..i + 1]), i);
  }

  /** One step of the price recurrence: each price after the first is the
      previous price times that step's factor. */
  lemma PathPriceStep(p: Params, simulationId: int, inputs: PathInputs, i: nat)
    requires |inputs.factors| == Iterations(p.steps)
    requires Accepts(p)
    requires i + 1 < |inputs.factors|
    ensures var r := PathRecords(p, simulationId, inputs).value;
      r[i + 1].currentPrice == r[i].currentPrice * inputs.factors[i + 1]
  {
    PathPriceAt(p, simulationId, inputs, i);
    PathPriceAt(p, simulationId, inputs, i + 1);
    CompoundStep(p.stockValue, inputs.factors, i + 1);
  }

  /** The ends of the price recurrence: the first price is the start price
      times the first factor, and the final price is the last recorded price
      (the start price when the loop does not run). */
  lemma PathPriceEnds(p: Params, simulationId: int, inputs: PathInputs)
    requires |inputs.factors| == Iterations(p.steps)
    requires Accepts(p)
    ensures var r, f := PathRecords(p, simulationId, inputs).value, inputs.factors;
      && (|f| >= 1 ==> r[0].currentPrice == p.stockValue * f[0])
      && (|f| >= 1 ==> r[|f|].finalPrice == r[|f| - 1].currentPrice)
      && (|f| == 0 ==> r[|f|].finalPrice == p.stockValue)
  {
    var f := inputs.factors;
    var n := |f|;
    if n >= 1 {
      PathPriceAt(p, simulationId, inputs, 0);
      CompoundStep(p.stockValue, f, 0);
      assert f[..0] == [];
      PathPriceAt(p, simulationId, inputs, n - 1);
      assert f[..n] == f;
    }
  }

  /** With a positive start price and positive factors, every price on the
      path, and the final price, is positive. */
  lemma PathPricesPositive(p: Params, simulationId: int, inputs: PathInputs)
    requires |inputs.factors| == Iterations(p.steps)
    requires Accepts(p)
    requires p.stockValue > 0.0 && AllPositive(inputs.factors)
    ensures var r := PathRecords(p, simulationId, inputs).value;
      && (forall i :: 0 <= i < |r| - 1 ==> r[i].currentPrice > 0.0)
      && r[|r| - 1].finalPrice > 0.0
  {
    var f := inputs.factors;
    var r := PathRecords(p, simulationId, inputs).value;
    forall i | 0 <= i < |r| - 1
      ensures r[i].currentPrice > 0.0
    {
      PathPriceAt(p, simulationId, inputs, i);
      assert AllPositive(f[..i + 1]);
      CompoundPositive(p.stockValue, f[..i + 1]);
    }
    CompoundPositive(p.stockValue, f);
  }

  /** `Geometric_Brownian_Motion(stock_value, strike, volatility, steps, T,
      simulation_id, option_type)`. */
  method GeometricBrownianMotion(p: Params, simulationId: int, inputs: PathInputs)
    returns (r: Result<seq<Entry>>)
    requires |inputs.factors| == Iterations(p.steps)
    ensures r == PathRecords(p, simulationId, inputs)
  {
    if p.steps == 0 {
      // delta_time = T / steps
      return Err(ZeroDivision);
    }
    var deltaTime := p.horizon / (p.steps as real);
    var ans: seq<Entry> := [];
    var st := p.stockValue;
    for step := 0 to Iterations(p.steps)
      invariant step > 0 ==> !NegativeRoot(p)
      invariant st == Compound(p.stockValue, inputs.factors[..step])
      invariant ans == PricePoints(simulationId, p.stockValue, inputs.factors, step)
    {
      // math.sqrt(delta_time)
      QuotientSign(p.horizon, p.steps);
      if deltaTime < 0.0 {
        return Err(MathDomain);
      }
      CompoundStep(p.stockValue, inputs.factors, step);
      st := st * inputs.factors[step];
      ans := ans + [PricePoint(simulationId, st, step)];
    }
    assert inputs.factors[..|inputs.factors|] == inputs.factors;
    var lowered := Lower(p.optionType);
    var payoff: real;
    if lowered == "call" {
      payoff := PayoffFor(Call, st, p.strike);
    } else if lowered == "put" {
      payoff := PayoffFor(Put, st, p.strike);
    } else {
      return Err(InvalidOptionType);
    }
    ans := ans + [PayoffPoint(simulationId, payoff, st, inputs.clock)];
    return Ok(ans);
  }

  /** What `Geometric_Brownian_Motion_Batch` returns for the `n` ids from
      `start` on, in ascending order, or the first exception a path raises. */
  function BatchRecords(p: Params, start: int, n: nat, d: Draws): Result<seq<Entry>>
  {
    if n == 0 then
      Ok([])
    else
      match BatchRecords(p, start, n - 1, d)
      case Err(e) => Err(e)
      case Ok(before) =>
        match PathRecords(p, start + n - 1, InputsFor(d, p.steps, start + n - 1))
        case Err(e) => Err(e)
        case Ok(path) => Ok(before + path)
  }

  /** A batch fails as a whole: it raises exactly when it has at least one
      path and the shared parameters make a path raise, and then it surfaces
      that path's exception and no records. */
  lemma {:induction false} BatchAtomic(p: Params, start: int, n: nat, d: Draws)
    ensures BatchRecords(p, start, n, d).Err? <==> n > 0 && !Accepts(p)
    ensures BatchRecords(p, start, n, d).Err? ==>
      BatchRecords(p, start, n, d).error == Raised(p)
    decreases n
  {
    if n > 0 {
      BatchAtomic(p, start, n - 1, d);
    }
  }

  /** A negative horizon with positive steps fails every path at its first
      step: a batch of five calls of 12 steps with `T = -1` raises the
      `math.sqrt` error and yields no records. */
  lemma NegativeHorizonRaises(d: Draws)
    ensures var p := Params(100.0, 103.0, 0.3, 12, -1.0);
      && !Accepts(p)
      && BatchRecords(p, 1, 5, d) == Err(MathDomain)
  {
    var p := Params(100.0, 103.0, 0.3, 12, -1.0);
    BatchAtomic(p, 1, 5, d);
  }

  /** The records of each path of a batch, in id order. */
  function BatchPaths(p: Params, start: int, n: nat, d: Draws): (paths: seq<seq<Entry>>)
    requires Accepts(p)
    ensures |paths| == n
  {
    seq(n, k requires 0 <= k < n => PathRecords(p, start + k, InputsFor(d, p.steps, start + k)).value)
  }

  /** A successful batch is the in-order concatenation of its paths' records. */
  lemma {:induction false} BatchIsConcatenation(p: Params, start: int, n: nat, d: Draws)
    requires Accepts(p)
    ensures BatchRecords(p, start, n, d) == Ok(Flatten(BatchPaths(p, start, n, d)))
    decreases n
  {
    if n > 0 {
      BatchIsConcatenation(p, start, n - 1, d);
      var paths := BatchPaths(p, start, n, d);
      assert paths[..n - 1] == BatchPaths(p, start, n - 1, d);
    }
  }

  /** A successful batch of `n` paths is the batch of the first `n - 1`
      followed by the path of the next id. */
  lemma BatchSnoc(p: Params, start: int, n: nat, d: Draws)
    requires Accepts(p) && n > 0
    ensures BatchRecords(p, start, n - 1, d).Ok?
    ensures var path := PathRecords(p, start + n - 1, InputsFor(d, p.steps, start + n - 1)).value;
      && BatchRecords(p, start, n, d) == Ok(BatchRecords(p, start, n - 1, d).value + path)
      && BatchPaths(p, start, n, d) == BatchPaths(p, start, n - 1, d) + [path]
  {
    BatchAtomic(p, start, n - 1, d);
    var paths := BatchPaths(p, start, n, d);
    assert paths[..n - 1] == BatchPaths(p, start, n - 1, d);
    assert paths == paths[..n - 1] + [paths[n - 1]];
  }

  /** A successful batch holds `batch_size * (steps + 1)` records. */
  lemma BatchLength(p: Params, start: int, n: nat, d: Draws)
    requires Accepts(p)
    ensures BatchRecords(p, start, n, d).Ok?
    ensures |BatchRecords(p, start, n, d).value| == n * (Iterations(p.steps) + 1)
  {
    BatchIsConcatenation(p, start, n, d);
    var paths := BatchPaths(p, start, n, d);
    forall k | 0 <= k < n
      ensures |paths[k]| == Iterations(p.steps) + 1
    {
      var path := PathRecords(p, start + k, InputsFor(d, p.steps, start + k));
      assert paths[k] == path.value;
    }
    FlattenUniformLength(paths, Iterations(p.steps) + 1);
  }

  /** The payoffs a list of records carries: `entry['payoff']` for every
      entry that has a `payoff` key, in order. */
  function PayoffsOf(entries: seq<Entry>): seq<real>
  {
    Flatten(Map(EntryPayoff, entries))
  }

  function EntryPayoff(e: Entry): seq<real>
  {
    if e.PayoffPoint? then [e.payoff] else []
  }

  lemma PayoffsOfAppend(a: seq<Entry>, b: seq<Entry>)
    ensures PayoffsOf(a + b) == PayoffsOf(a) + PayoffsOf(b)
  {
    MapAppend(EntryPayoff, a, b);
    FlattenAppend(Map(EntryPayoff, a), Map(EntryPayoff, b));
  }

  /** One more entry adds its payoff, if it has one. */
  lemma PayoffsOfSnoc(entries: seq<Entry>, m: nat)
    requires m < |entries|
    ensures PayoffsOf(entries[..m + 1]) == PayoffsOf(entries[..m]) + EntryPayoff(entries[m])
  {
    assert entries[..m + 1] == entries[..m] + [entries[m]];
    assert Map(EntryPayoff, entries[..m + 1]) == Map(EntryPayoff, entries[..m]) + [EntryPayoff(entries[m])];
    FlattenSnoc(Map(EntryPayoff, entries[..m]), EntryPayoff(entries[m]));
  }

  /** The payoff of the path with the given id. */
  function PathPayoff(p: Params, d: Draws, simulationId: int): (payoff: real)
    requires Accepts(p)
    ensures payoff >= 0.0
  {
    PayoffFor(ParseOption(p.optionType).value,
              Compound(p.stockValue, InputsFor(d, p.steps, simulationId).factors), p.strike)
  }

  /** A path carries exactly one payoff: its own. */
  lemma PathPayoffs(p: Params, simulationId: int, d: Draws)
    requires Accepts(p)
    ensures PayoffsOf(PathRecords(p, simulationId, InputsFor(d, p.steps, simulationId)).value)
         == [PathPayoff(p, d, simulationId)]
  {
    var inputs := InputsFor(d, p.steps, simulationId);
    var r := PathRecords(p, simulationId, inputs).value;
    var n := |inputs.factors|;
    assert r == r[..n] + [r[n]];
    PayoffsOfAppend(r[..n], [r[n]]);
    FlattenEmpties(Map(EntryPayoff, r[..n]));
    assert Map(EntryPayoff, [r[n]]) == [[r[n].payoff]];
    assert Flatten([[r[n].payoff]]) == [r[n].payoff] by {
      assert [[r[n].payoff]][..0] == [];
    }
  }

  /** The payoffs of the `n` paths with ids `start ..`, in id order. */
  function PayoffsFrom(p: Params, d: Draws, start: int, n: nat): seq<real>
    requires Accepts(p)
  {
    seq(n, k requires 0 <= k < n => PathPayoff(p, d, start + k))
  }

  /** The payoffs of `a + b` consecutive ids are those of the first `a`
      followed by those of the next `b`. */
  lemma PayoffsFromSplit(p: Params, d: Draws, start: int, a: nat, b: nat)
    requires Accepts(p)
    ensures PayoffsFrom(p, d, start, a + b) == PayoffsFrom(p, d, start, a) + PayoffsFrom(p, d, start + a, b)
  {
    var lhs, rhs := PayoffsFrom(p, d, start, a + b), PayoffsFrom(p, d, start, a) + PayoffsFrom(p, d, start + a, b);
    forall i | a <= i < a + b
      ensures lhs[i] == rhs[i]
    {
      assert rhs[i] == PayoffsFrom(p, d, start + a, b)[i - a];
    }
  }

  /** One more id adds that path's payoff at the end. */
  lemma PayoffsFromSnoc(p: Params, d: Draws, start: int, n: nat)
    requires Accepts(p) && n > 0
    ensures PayoffsFrom(p, d, start, n) == PayoffsFrom(p, d, start, n - 1) + [PathPayoff(p, d, start + n - 1)]
  {
    PayoffsFromSplit(p, d, start, n - 1, 1);
  }

  /** Records whose payoffs are `before`, followed by a path whose only
      payoff is `x`, carry the payoffs `before + [x]`. */
  lemma PayoffsGlue(records: seq<Entry>, path: seq<Entry>, before: seq<real>, x: real)
    requires PayoffsOf(records) == before && PayoffsOf(path) == [x]
    ensures PayoffsOf(records + path) == before + [x]
  {
    PayoffsOfAppend(records, path);
  }

  /** A successful batch carries one payoff per simulation, in id order. */
  lemma {:induction false} BatchPayoffs(p: Params, start: int, n: nat, d: Draws)
    requires Accepts(p)
    ensures BatchRecords(p, start, n, d).Ok?
    ensures PayoffsOf(BatchRecords(p, start, n, d).value) == PayoffsFrom(p, d, start, n)
    decreases n
  {
    if n > 0 {
      BatchPayoffs(p, start, n - 1, d);
      BatchSnoc(p, start, n, d);
      var id := start + n - 1;
      PathPayoffs(p, id, d);
      PayoffsGlue(BatchRecords(p, start, n - 1, d).value, PathRecords(p, id, InputsFor(d, p.steps, id)).value,
                  PayoffsFrom(p, d, start, n - 1), PathPayoff(p, d, id));
      PayoffsFromSnoc(p, d, start, n);
    } else {
      assert PayoffsOf([]) == [];
    }
  }

  /** `Geometric_Brownian_Motion_Batch(..., batch_size, start_sim_id, option_type)`:
      runs the ids `range(start_sim_id, start_sim_id + batch_size)` in order
      and extends one list with their records; an exception ends the batch. */
  method GeometricBrownianMotionBatch(p: Params, batchSize: int, startSimId: int, d: Draws)
    returns (r: Result<seq<Entry>>)
    ensures r == BatchRecords(p, startSimId, Iterations(batchSize), d)
  {
    var allSimulations: seq<Entry> := [];
    for simId := startSimId to startSimId + Iterations(batchSize)
      invariant BatchRecords(p, startSimId, simId - startSimId, d) == Ok(allSimulations)
    {
      var simulationResult := GeometricBrownianMotion(p, simId, InputsFor(d, p.steps, simId));
      if simulationResult.Err? {
        BatchAtomic(p, startSimId, Iterations(batchSize), d);
        return Err(simulationResult.error);
      }
      allSimulations := allSimulations + simulationResult.value;
    }
    return Ok(allSimulations);
  }
}
