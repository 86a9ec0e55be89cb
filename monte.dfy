/** app/utils/monte.py: the object-based simulator. The constructor fixes
    the market parameters; `Geometric_Brownian_Motion` reads them and
    produces one path. The per-step multipliers `math.exp(exponent)` are an
    input, one per step. */
module Monte {
  import opened Pricing
  import Plot

  /** `RISK_FREE_INTEREST`. */
  const RiskFreeInterest: real := 0.02

  /** The entries of one path: price points keyed `simulation_id`,
      `current_price`, `timestamp`, and a last entry keyed `simulation` and
      `payoff` only (no `final_price`, no wall-clock timestamp). */
  datatype Row =
    | PriceRow(simulationId: int, currentPrice: real, timestamp: int)
    | PayoffRow(simulation: int, payoff: real)

  class MonteCarloSimulation {
    var stockValue: real
    var riskFreeInterest: real
    var strike: real
    var sigma: real
    var deltaTime: real
    var horizon: real
    var steps: int

    /** What `__init__` establishes: nonzero steps and `delta_time == T / steps`. */
    predicate Valid()
      reads this
    {
      steps != 0 && deltaTime == horizon / (steps as real)
    }

    /** The step loop runs and `delta_time` is negative, so the first step's
        `math.sqrt(self.delta_time)` raises. */
    predicate NegativeRoot()
      reads this
    {
      Iterations(steps) > 0 && deltaTime < 0.0
    }

    /** `__init__(stock_value, strike, volatility, steps, T)`; `T / steps`
        raises for zero steps, which `Construct` models. */
    constructor (stockValue: real, strike: real, volatility: real, steps: int, horizon: real)
      requires steps != 0
      ensures Valid()
      ensures this.stockValue == stockValue
      ensures this.riskFreeInterest == RiskFreeInterest
      ensures this.strike == strike
      ensures this.sigma == volatility
      ensures this.deltaTime == horizon / (steps as real)
      ensures this.horizon == horizon
      ensures this.steps == steps
    {
      this.stockValue := stockValue;
      this.riskFreeInterest := RiskFreeInterest;
      this.strike := strike;
      this.sigma := volatility;
      this.deltaTime := horizon / (steps as real);
      this.horizon := horizon;
      this.steps := steps;
    }

    /** The rows `Geometric_Brownian_Motion(simulation_id, option_type)`
        returns for the given multipliers, or the `ValueError` it raises: from
        `math.sqrt` in the first step, else for the option name. The option
        type defaults to "call". */
    function PathRows(simulationId: int, optionType: string := "call", factors: seq<real>): (r: Result<seq<Row>>)
      reads this
      requires |factors| == Iterations(steps)
      ensures r.Err? <==> NegativeRoot() || ParseOption(optionType).None?
      ensures r.Err? ==> r.error == if NegativeRoot() then MathDomain else InvalidOptionType
      ensures r.Ok? ==> |r.value| == Iterations(steps) + 1
      ensures r.Ok? ==> forall i :: 0 <= i < Iterations(steps) ==>
        r.value[i].PriceRow? && r.value[i].simulationId == simulationId && r.value[i].timestamp == i
      ensures r.Ok? ==> r.value[Iterations(steps)].PayoffRow?
      ensures r.Ok? ==> r.value[Iterations(steps)].simulation == simulationId
      ensures r.Ok? ==> r.value[Iterations(steps)].payoff >= 0.0
    {
      if NegativeRoot() then
        Err(MathDomain)
      else
        match ParseOption(optionType)
        case None => Err(InvalidOptionType)
        case Some(kind) =>
          Ok(PriceRows(simulationId, stockValue, factors, |factors|)
             + [PayoffRow(simulationId, PayoffFor(kind, Compound(stockValue, factors), strike))])
    }

    /** `Geometric_Brownian_Motion(simulation_id, option_type)`. It has no
        `modifies` clause: no attribute of the object changes. */
    method GeometricBrownianMotion(simulationId: int, optionType: string := "call", factors: seq<real>)
      returns (r: Result<seq<Row>>)
      requires |factors| == Iterations(steps)
      ensures r == PathRows(simulationId, optionType, factors)
    {
      var ans: seq<Row> := [];
      var st := stockValue;
      for step := 0 to Iterations(steps)
        invariant step > 0 ==> !NegativeRoot()
        invariant st == Compound(stockValue, factors[..step])
        invariant ans == PriceRows(simulationId, stockValue, factors, step)
      {
        // math.sqrt(self.delta_time)
        if deltaTime < 0.0 {
          return Err(MathDomain);
        }
        CompoundStep(stockValue, factors, step);
        st := st * factors[step];
        ans := ans + [PriceRow(simulationId, st, step)];
      }
      assert factors[..|factors|] == factors;
      var lowered := Lower(optionType);
      var payoff: real;
      if lowered == "call" {
        payoff := if st - strike > 0.0 then st - strike else 0.0;
      } else if lowered == "put" {
        payoff := if strike - st > 0.0 then strike - st else 0.0;
      } else {
        return Err(InvalidOptionType);
      }
      ans := ans + [PayoffRow(simulationId, payoff)];
      return Ok(ans);
    }
  }

  /** The first `n` price rows of a path from `s0`. */
  function PriceRows(simulationId: int, s0: real, factors: seq<real>, n: nat): seq<Row>
    requires n <= |factors|
  {
    seq(n, i requires 0 <= i < n => PriceRow(simulationId, Compound(s0, factors[..i + 1]), i))
  }

  /** `MonteCarloSimulation(stock_value, strike, volatility, steps, T)` as
      seen by its caller: `ZeroDivisionError` for zero steps, otherwise a
      new object holding the parameters. */
  method Construct(stockValue: real, strike: real, volatility: real, steps: int, horizon: real)
    returns (r: Result<MonteCarloSimulation>)
    ensures r.Err? <==> steps == 0
    ensures r.Err? ==> r.error == ZeroDivision
    ensures r.Ok? ==> fresh(r.value) && r.value.Valid()
    ensures r.Ok? ==> r.value.stockValue == stockValue && r.value.strike == strike
    ensures r.Ok? ==> r.value.sigma == volatility && r.value.steps == steps && r.value.horizon == horizon
    ensures r.Ok? ==> r.value.riskFreeInterest == RiskFreeInterest
    ensures r.Ok? ==> r.value.deltaTime == horizon / (steps as real)
  {
    if steps == 0 {
      return Err(ZeroDivision);
    }
    var sim := new MonteCarloSimulation(stockValue, strike, volatility, steps, horizon);
    return Ok(sim);
  }

  /** Each price is the previous one times that step's multiplier, the first
      is `stock_value` times the first multiplier, and the payoff is the
      option's payoff on the last price. */
  lemma PathRowsRecurrence(sim: MonteCarloSimulation, simulationId: int, optionType: string, factors: seq<real>)
    requires |factors| == Iterations(sim.steps)
    requires !sim.NegativeRoot() && ParseOption(optionType).Some?
    ensures var rows := sim.PathRows(simulationId, optionType, factors).value;
      && (|factors| > 0 ==> rows[0].currentPrice == sim.stockValue * factors[0])
      && (forall i :: 0 <= i < |factors| - 1 ==> rows[i + 1].currentPrice == rows[i].currentPrice * factors[i + 1])
      && rows[|factors|].payoff
         == PayoffFor(ParseOption(optionType).value,
                      if |factors| == 0 then sim.stockValue else rows[|factors| - 1].currentPrice, sim.strike)
  {
    var s0 := sim.stockValue;
    var n := |factors|;
    var prices := PriceRows(simulationId, s0, factors, n);
    var last := PayoffRow(simulationId, PayoffFor(ParseOption(optionType).value, Compound(s0, factors), sim.strike));
    var rows := sim.PathRows(simulationId, optionType, factors).value;
    assert rows == prices + [last];
    if n > 0 {
      PriceRowsStep(simulationId, s0, factors);
      assert factors[..n] == factors;
      assert rows[n - 1] == prices[n - 1];
    }
  }

  /** The price rows follow `st *= factor`: the first is `s0` times the first
      multiplier and each later one is the previous times its multiplier. */
  lemma PriceRowsStep(simulationId: int, s0: real, factors: seq<real>)
    requires |factors| > 0
    ensures var prices := PriceRows(simulationId, s0, factors, |factors|);
      && prices[0].currentPrice == s0 * factors[0]
      && forall i :: 0 <= i < |factors| - 1 ==> prices[i + 1].currentPrice == prices[i].currentPrice * factors[i + 1]
  {
    var prices := PriceRows(simulationId, s0, factors, |factors|);
    CompoundStep(s0, factors, 0);
    assert factors[..0] == [];
    forall i | 0 <= i < |factors| - 1
      ensures prices[i + 1].currentPrice == prices[i].currentPrice * factors[i + 1]
    {
      CompoundStep(s0, factors, i + 1);
      assert prices[i + 1].currentPrice == Compound(s0, factors[..i + 2]);
      assert prices[i].currentPrice == Compound(s0, factors[..i + 1]);
    }
  }

  /** The object's path is `plot.py`'s path for the same parameters: the same
      number of entries, the same ids and step timestamps, the same prices,
      and the same payoff; only the payoff entry's keys differ. Both raise for
      the same parameters, with the same exception (the object already
      refused zero steps). */
  lemma AgreesWithPlot(sim: MonteCarloSimulation, p: Plot.Params, simulationId: int, inputs: Plot.PathInputs)
    requires sim.Valid()
    requires p == Plot.Params(sim.stockValue, sim.strike, sim.sigma, sim.steps, sim.horizon, p.optionType)
    requires |inputs.factors| == Iterations(sim.steps)
    ensures var rows := sim.PathRows(simulationId, p.optionType, inputs.factors);
      var entries := Plot.PathRecords(p, simulationId, inputs);
      && (rows.Err? <==> entries.Err?)
      && (rows.Err? ==> rows.error == entries.error)
      && (rows.Ok? ==>
            && |rows.value| == |entries.value|
            && (forall i :: 0 <= i < |inputs.factors| ==>
                  rows.value[i] == PriceRow(entries.value[i].simulationId, entries.value[i].currentPrice,
                                            entries.value[i].timestamp))
            && rows.value[|inputs.factors|]
               == PayoffRow(entries.value[|inputs.factors|].simulationId, entries.value[|inputs.factors|].payoff))
  {
    if sim.steps > 0 {
      QuotientSign(sim.horizon, sim.steps);
    }
  }
}
