/** The administrator's price simulation in `render-deploy/server.js`: a coin's
    price is driven linearly from its current value to a target over a chosen
    number of minutes ("rising"), snapped to the target when it gets there, then
    drawn back over 30 minutes towards the market price ("falling"), after which
    the simulation is removed. Each coin has at most one simulation and one
    repeating timer. The periodic market refresh leaves simulated coins alone.

    The clock (`Date.now()`) and the market-price fetch are parameters: `now` in
    milliseconds, and `reference`, the price the fetch returns (0 when it fails
    or the coin is unknown to the market API). The coin table and the price
    history table are kept as a map from coin id to price and an append-only
    sequence of rows. */
module PriceSimulation {
  import opened Wrappers

  type CoinId = string

  const MinuteMs: real := 60000.0
  /** Length of the falling phase, in minutes. */
  const FallMinutes: real := 30.0
  /** Longest simulation the start route accepts, in minutes (one week). */
  const MaxDurationMinutes: real := 10080.0

  datatype Phase = Rising | Falling(fallStartTime: int, fallStartPrice: real)

  datatype Simulation = Simulation(
    coinId: CoinId,
    startPrice: real,
    targetPrice: real,
    startTime: int,
    endTime: real,
    rate: real,          // price change per minute
    isActive: bool,
    phase: Phase)

  /** A row of the price history table. `priceChange` is None where the
      source's percentage is not a finite number (a start price of 0). */
  datatype PriceRow = PriceRow(coinId: CoinId, price: real, priceChange: Option<real>, marketCap: real, volume: real)

  /** One coin of the market refresh response, with missing fields read as 0. */
  datatype Quote = Quote(coinId: CoinId, price: real, priceChange: real, marketCap: real, volume: real)

  // ---------------------------------------------------------------------
  // The arithmetic of a simulation

  function ElapsedMinutes(from: int, now: int): real {
    (now - from) as real / MinuteMs
  }

  /** The simulation `startSimulation` stores for a coin priced `startPrice`. */
  function NewSimulation(coinId: CoinId, startPrice: real, targetPrice: real, durationMinutes: real, now: int): (s: Simulation)
    requires durationMinutes > 0.0
    ensures s.coinId == coinId && s.startPrice == startPrice && s.targetPrice == targetPrice
    ensures s.startTime == now && s.isActive && s.phase == Rising
    ensures s.rate * durationMinutes == targetPrice - startPrice
    ensures s.endTime == now as real + durationMinutes * MinuteMs
  {
    Simulation(coinId, startPrice, targetPrice, now, now as real + durationMinutes * MinuteMs,
               (targetPrice - startPrice) / durationMinutes, true, Rising)
  }

  /** Price during the rising phase: linear in the time since the start. */
  function RisingPrice(s: Simulation, now: int): real {
    s.startPrice + s.rate * ElapsedMinutes(s.startTime, now)
  }

  /** The target counts as reached once the price has moved to or past it in
      the direction the simulation is moving; a zero rate never reaches it. */
  predicate TargetReached(rate: real, price: real, target: real) {
    (rate > 0.0 && price >= target) || (rate < 0.0 && price <= target)
  }

  /** Price during the falling phase, `fallElapsed` minutes into it. */
  function FallingPrice(fallStartPrice: real, reference: real, fallElapsed: real): real {
    fallStartPrice + (reference - fallStartPrice) * (fallElapsed / FallMinutes)
  }

  /** `(price - startPrice) / startPrice * 100`, or None where that is not finite. */
  function PercentChange(startPrice: real, price: real): (r: Option<real>)
    ensures r.None? <==> startPrice == 0.0
    ensures r.Some? ==> r.value * startPrice == (price - startPrice) * 100.0
  {
    if startPrice == 0.0 then None else Some((price - startPrice) / startPrice * 100.0)
  }

  /** What one timer tick does to an active simulation: write a new price
      (and possibly move to the falling phase), or end the simulation. */
  datatype TickResult = Write(sim: Simulation, price: real) | Finish

  function TickOutcome(s: Simulation, now: int, reference: real): (r: TickResult)
    ensures r.Finish? <==> s.phase.Falling? && ElapsedMinutes(s.phase.fallStartTime, now) >= FallMinutes
    ensures r.Write? ==> r.sim == s.(phase := r.sim.phase)
    ensures r.Write? && s.phase.Falling? ==> r.sim == s
    ensures r.Write? && r.sim.phase.Rising? ==> s.phase.Rising?
  {
    match s.phase
    case Rising =>
      var price := RisingPrice(s, now);
      if TargetReached(s.rate, price, s.targetPrice) then
        Write(s.(phase := Falling(now, s.targetPrice)), s.targetPrice)
      else
        Write(s, price)
    case Falling(fallStartTime, fallStartPrice) =>
      var fallElapsed := ElapsedMinutes(fallStartTime, now);
      if fallElapsed >= FallMinutes then Finish
      else Write(s, FallingPrice(fallStartPrice, reference, fallElapsed))
  }

  /** `db.updateCoin(id, {price})`: an UPDATE, so an unknown coin is left absent. */
  function UpdateCoin(prices: map<CoinId, real>, coinId: CoinId, price: real): (r: map<CoinId, real>)
    ensures r.Keys == prices.Keys
    ensures coinId in prices ==> r[coinId] == price
    ensures forall c :: c in prices && c != coinId ==> r[c] == prices[c]
  {
    if coinId in prices then prices[coinId := price] else prices
  }

  /** Prices after `stopSimulation`: written only for a positive reference. */
  function StopPrices(prices: map<CoinId, real>, coinId: CoinId, reference: real): map<CoinId, real> {
    if reference > 0.0 then UpdateCoin(prices, coinId, reference) else prices
  }

  /** History rows `stopSimulation` appends. */
  function StopRows(coinId: CoinId, reference: real): (r: seq<PriceRow>)
    ensures |r| <= 1
    ensures r != [] <==> reference > 0.0
  {
    if reference > 0.0 then [PriceRow(coinId, reference, Some(0.0), 0.0, 0.0)] else []
  }

  /** The history row written for a simulated price. */
  function TickRow(s: Simulation, price: real): PriceRow {
    PriceRow(s.coinId, price, PercentChange(s.startPrice, price), 0.0, 0.0)
  }

  /** Prices after the periodic refresh: every quoted coin that is not being
      simulated is saved with its quoted price; simulated coins are skipped. */
  function RefreshedPrices(prices: map<CoinId, real>, quotes: seq<Quote>, simulated: set<CoinId>): map<CoinId, real>
    decreases |quotes|
  {
    if quotes == [] then prices
    else
      var before := RefreshedPrices(prices, quotes[..|quotes| - 1], simulated);
      var q := quotes[|quotes| - 1];
      if q.coinId in simulated then before else before[q.coinId := q.price]
  }

  /** History rows written by the periodic refresh, in quote order. */
  function RefreshRows(quotes: seq<Quote>, simulated: set<CoinId>): seq<PriceRow>
    decreases |quotes|
  {
    if quotes == [] then []
    else
      var before := RefreshRows(quotes[..|quotes| - 1], simulated);
      var q := quotes[|quotes| - 1];
      if q.coinId in simulated then before
      else before + [PriceRow(q.coinId, q.price, Some(q.priceChange), q.marketCap, q.volume)]
  }

  // ---------------------------------------------------------------------
  // Properties of the arithmetic

  /** A simulation with a nonzero price change reaches its target exactly when
      the configured duration has passed, i.e. at its recorded end time. */
  lemma ReachesTargetAtEndTime(coinId: CoinId, startPrice: real, targetPrice: real, durationMinutes: real, start: int, now: int)
    requires durationMinutes > 0.0 && targetPrice != startPrice
    ensures var s := NewSimulation(coinId, startPrice, targetPrice, durationMinutes, start);
            TargetReached(s.rate, RisingPrice(s, now), s.targetPrice) <==> now as real >= s.endTime
  {
    var s := NewSimulation(coinId, startPrice, targetPrice, durationMinutes, start);
    var e := ElapsedMinutes(start, now);
    var k := targetPrice - startPrice;
    // price - target == k * (e - d) / d
    assert s.rate * durationMinutes == k;
    assert RisingPrice(s, now) - targetPrice == s.rate * (e - durationMinutes);
    assert now as real >= s.endTime <==> e >= durationMinutes by {
      assert e * MinuteMs == (now - start) as real;
      assert s.endTime - now as real == (durationMinutes - e) * MinuteMs;
      SignOfProduct(durationMinutes - e, MinuteMs);
    }
    assert s.rate > 0.0 <==> k > 0.0 by { SignOfProduct(s.rate, durationMinutes); }
    assert s.rate < 0.0 <==> k < 0.0 by { SignOfProduct(-s.rate, durationMinutes); }
    if k > 0.0 {
      SignOfProduct(e - durationMinutes, s.rate);
    } else {
      SignOfProduct(durationMinutes - e, -s.rate);
    }
  }

  /** With a positive factor `y`, `x * y` has the sign of `x`. */
  lemma SignOfProduct(x: real, y: real)
    requires y > 0.0
    ensures x > 0.0 <==> x * y > 0.0
    ensures x >= 0.0 <==> x * y >= 0.0
  {
    if x > 0.0 {
      assert x * y > 0.0;
    } else if x < 0.0 {
      assert (-x) * y > 0.0;
    }
  }

  /** When the target equals the start price the rate is zero, and a rising
      tick then writes the start price and never moves to the falling phase. */
  lemma ZeroRateNeverFalls(s: Simulation, now: int, reference: real)
    requires s.phase == Rising && s.rate == 0.0
    ensures TickOutcome(s, now, reference) == Write(s, s.startPrice)
  {
  }

  /** Reaching the target snaps the price to exactly the target and starts the
      falling phase from it at the current time. */
  lemma SnapsToTarget(s: Simulation, now: int, reference: real)
    requires s.phase == Rising && TargetReached(s.rate, RisingPrice(s, now), s.targetPrice)
    ensures TickOutcome(s, now, reference) == Write(s.(phase := Falling(now, s.targetPrice)), s.targetPrice)
  {
  }

  /** Before the target is reached a rising price has not passed it. */
  lemma RisingStaysShortOfTarget(s: Simulation, now: int, reference: real)
    requires s.phase == Rising && !TargetReached(s.rate, RisingPrice(s, now), s.targetPrice)
    ensures TickOutcome(s, now, reference) == Write(s, RisingPrice(s, now))
    ensures s.rate > 0.0 ==> RisingPrice(s, now) < s.targetPrice
    ensures s.rate < 0.0 ==> RisingPrice(s, now) > s.targetPrice
  {
  }

  /** The rising price moves monotonically in the direction of the rate. */
  lemma RisingMonotone(s: Simulation, now1: int, now2: int)
    requires now1 <= now2
    ensures s.rate >= 0.0 ==> RisingPrice(s, now1) <= RisingPrice(s, now2)
    ensures s.rate <= 0.0 ==> RisingPrice(s, now1) >= RisingPrice(s, now2)
  {
    var e1, e2 := ElapsedMinutes(s.startTime, now1), ElapsedMinutes(s.startTime, now2);
    assert e2 - e1 == (now2 - now1) as real / MinuteMs;
    assert e2 - e1 >= 0.0;
    assert RisingPrice(s, now2) - RisingPrice(s, now1) == s.rate * (e2 - e1);
    if s.rate >= 0.0 {
      MulNonNegative(s.rate, e2 - e1);
    }
    if s.rate <= 0.0 {
      MulNonNegative(-s.rate, e2 - e1);
    }
  }

  lemma MulNonNegative(x: real, y: real)
    requires x >= 0.0 && y >= 0.0
    ensures x * y >= 0.0
  {
  }

  /** During the 30 falling minutes the price lies between the price the fall
      started from and the reference price. */
  lemma FallingPriceBetween(fallStartPrice: real, reference: real, fallElapsed: real)
    requires 0.0 <= fallElapsed <= FallMinutes
    ensures fallStartPrice <= reference ==>
              fallStartPrice <= FallingPrice(fallStartPrice, reference, fallElapsed) <= reference
    ensures reference <= fallStartPrice ==>
              reference <= FallingPrice(fallStartPrice, reference, fallElapsed) <= fallStartPrice
  {
    var t := fallElapsed / FallMinutes;
    assert 0.0 <= t <= 1.0;
    var d := reference - fallStartPrice;
    if d >= 0.0 {
      MulNonNegative(d, t);
      MulNonNegative(d, 1.0 - t);
    } else {
      MulNonNegative(-d, t);
      MulNonNegative(-d, 1.0 - t);
    }
  }

  /** A failed fetch reads as reference price 0, so the fall heads to 0. */
  lemma FailedFetchFallsTowardZero(s: Simulation, now: int)
    requires s.phase.Falling? && s.phase.fallStartPrice >= 0.0
    requires 0.0 <= ElapsedMinutes(s.phase.fallStartTime, now) < FallMinutes
    ensures TickOutcome(s, now, 0.0).Write?
    ensures 0.0 <= TickOutcome(s, now, 0.0).price <= s.phase.fallStartPrice
  {
    FallingPriceBetween(s.phase.fallStartPrice, 0.0, ElapsedMinutes(s.phase.fallStartTime, now));
  }

  /** The phases only move forward: a falling simulation keeps its fall start
      on every tick until it finishes. */
  lemma FallingIsFinal(s: Simulation, now: int, reference: real)
    requires s.phase.Falling?
    ensures TickOutcome(s, now, reference).Write? ==> TickOutcome(s, now, reference).sim.phase == s.phase
  {
  }

  /** The refresh never saves a price for a coin under simulation, and writes
      no history row for one. */
  lemma {:induction false} RefreshSkipsSimulated(prices: map<CoinId, real>, quotes: seq<Quote>, simulated: set<CoinId>, c: CoinId)
    requires c in simulated
    ensures c in RefreshedPrices(prices, quotes, simulated) <==> c in prices
    ensures c in prices ==> RefreshedPrices(prices, quotes, simulated)[c] == prices[c]
    ensures forall row :: row in RefreshRows(quotes, simulated) ==> row.coinId != c
    decreases |quotes|
  {
    if quotes != [] {
      RefreshSkipsSimulated(prices, quotes[..|quotes| - 1], simulated, c);
    }
  }

  /** A quoted coin that is not simulated ends up with the price of its last quote. */
  lemma {:induction false} RefreshSavesUnsimulated(prices: map<CoinId, real>, quotes: seq<Quote>, simulated: set<CoinId>, i: int)
    requires 0 <= i < |quotes| && quotes[i].coinId !in simulated
    requires forall j :: i < j < |quotes| ==> quotes[j].coinId != quotes[i].coinId
    ensures quotes[i].coinId in RefreshedPrices(prices, quotes, simulated)
    ensures RefreshedPrices(prices, quotes, simulated)[quotes[i].coinId] == quotes[i].price
    decreases |quotes|
  {
    if i < |quotes| - 1 {
      var init := quotes[..|quotes| - 1];
      assert init[i] == quotes[i];
      RefreshSavesUnsimulated(prices, init, simulated, i);
    }
  }

  // ---------------------------------------------------------------------
  // The engine: the two global maps and the tables they write to

  datatype StartError = InvalidTargetPrice | InvalidDuration | CoinNotFound | AlreadyActive
  datatype StopError = NotActive

  /** What the status route reports for a coin. */
  datatype SimulationView = SimulationView(coinId: CoinId, isActive: bool, phase: Phase, startPrice: real,
                                           targetPrice: real, startTime: int, rate: real)

  class Engine {
    /** `activeSimulations`. */
    var simulations: map<CoinId, Simulation>
    /** The coins that have a timer in `simulationIntervals`. */
    var intervals: set<CoinId>
    /** The coin table: current price per coin id. */
    var prices: map<CoinId, real>
    /** The price history table, oldest row first. */
    var history: seq<PriceRow>

    /** Every simulation has exactly one timer, is stored under its own coin's
        id, and belongs to a coin of the table. */
    ghost predicate Valid()
      reads this
    {
      intervals == simulations.Keys &&
      simulations.Keys <= prices.Keys &&
      forall c :: c in simulations ==> simulations[c].coinId == c
    }

    constructor (prices: map<CoinId, real>)
      ensures Valid()
      ensures this.prices == prices && simulations == map[] && intervals == {} && history == []
    {
      this.prices := prices;
      simulations := map[];
      intervals := {};
      history := [];
    }

    /** `stopSimulation`: clears the timer and the entry, then writes the
        reference price when it is positive. */
    method Stop(coinId: CoinId, reference: real)
      requires Valid()
      modifies this
      ensures Valid()
      ensures simulations == old(simulations) - {coinId}
      ensures intervals == old(intervals) - {coinId}
      ensures prices == StopPrices(old(prices), coinId, reference)
      ensures history == old(history) + StopRows(coinId, reference)
    {
      if coinId in intervals {
        intervals := intervals - {coinId};
      }
      simulations := simulations - {coinId};
      if reference > 0.0 {
        prices := UpdateCoin(prices, coinId, reference);
        history := history + [PriceRow(coinId, reference, Some(0.0), 0.0, 0.0)];
      }
    }

    /** `updateSimulationPrice`, one timer tick at time `now`; `reference` is
        what the market fetch returns if the tick makes one. */
    method Tick(coinId: CoinId, now: int, reference: real)
      requires Valid()
      modifies this
      ensures Valid()
      ensures coinId !in old(simulations) || !old(simulations)[coinId].isActive ==>
                simulations == old(simulations) && intervals == old(intervals) &&
                prices == old(prices) && history == old(history)
      ensures coinId in old(simulations) && old(simulations)[coinId].isActive ==>
                match TickOutcome(old(simulations)[coinId], now, reference)
                case Write(s, p) =>
                  simulations == old(simulations)[coinId := s] && intervals == old(intervals) &&
                  prices == old(prices)[coinId := p] && history == old(history) + [TickRow(s, p)]
                case Finish =>
                  simulations == old(simulations) - {coinId} && intervals == old(intervals) - {coinId} &&
                  prices == StopPrices(old(prices), coinId, reference) &&
                  history == old(history) + StopRows(coinId, reference)
    {
      if coinId !in simulations || !simulations[coinId].isActive {
        return;
      }
      var sim := simulations[coinId];
      assert coinId in prices;
      var elapsed := ElapsedMinutes(sim.startTime, now);
      var newPrice: real;
      match sim.phase {
        case Rising =>
          newPrice := sim.startPrice + sim.rate * elapsed;
          if (sim.rate > 0.0 && newPrice >= sim.targetPrice) || (sim.rate < 0.0 && newPrice <= sim.targetPrice) {
            newPrice := sim.targetPrice;
            sim := sim.(phase := Falling(now, sim.targetPrice));
            simulations := simulations[coinId := sim];
          }
        case Falling(fallStartTime, fallStartPrice) =>
          var fallElapsed := ElapsedMinutes(fallStartTime, now);
          if fallElapsed >= FallMinutes {
            Stop(coinId, reference);
            return;
          }
          newPrice := fallStartPrice + (reference - fallStartPrice) * (fallElapsed / FallMinutes);
      }
      prices := UpdateCoin(prices, coinId, newPrice);
      history := history + [PriceRow(coinId, newPrice, PercentChange(sim.startPrice, newPrice), 0.0, 0.0)];
      assert TickOutcome(old(simulations)[coinId], now, reference) == Write(sim, newPrice);
    }

    /** `startSimulation`: reads the coin's current price, stores a rising
        simulation, registers its timer and runs the first tick at `tickNow`.
        Returns false, changing nothing, when the coin is not in the table. */
    method StartSimulation(coinId: CoinId, targetPrice: real, durationMinutes: real, now: int, tickNow: int)
      returns (ok: bool)
      requires Valid() && durationMinutes > 0.0
      modifies this
      ensures Valid()
      ensures ok <==> coinId in old(prices)
      ensures !ok ==> simulations == old(simulations) && intervals == old(intervals) &&
                      prices == old(prices) && history == old(history)
      ensures ok ==>
                var s := NewSimulation(coinId, old(prices)[coinId], targetPrice, durationMinutes, now);
                TickOutcome(s, tickNow, 0.0).Write? &&
                simulations == old(simulations)[coinId := TickOutcome(s, tickNow, 0.0).sim] &&
                intervals == old(intervals) + {coinId} &&
                prices == old(prices)[coinId := TickOutcome(s, tickNow, 0.0).price] &&
                history == old(history) + [TickRow(TickOutcome(s, tickNow, 0.0).sim, TickOutcome(s, tickNow, 0.0).price)]
    {
      if coinId !in prices {
        return false;
      }
      var startPrice := prices[coinId];
      var endTime := now as real + durationMinutes * MinuteMs;
      var rate := (targetPrice - startPrice) / durationMinutes;
      simulations := simulations[coinId := Simulation(coinId, startPrice, targetPrice, now, endTime, rate, true, Rising)];
      intervals := intervals + {coinId};
      // A rising tick makes no market fetch, so the reference passed is unused.
      Tick(coinId, tickNow, 0.0);
      return true;
    }

    /** The start route: validates the request, then starts the simulation.
        On success it answers with the coin's price at the start. */
    method StartRoute(coinId: CoinId, targetPrice: real, timeMinutes: real, now: int, tickNow: int)
      returns (r: Result<real, StartError>)
      requires Valid()
      modifies this
      ensures Valid()
      ensures r.Success? <==> targetPrice > 0.0 && 0.0 < timeMinutes <= MaxDurationMinutes &&
                              coinId in old(prices) && coinId !in old(simulations)
      ensures r.Failure? ==> simulations == old(simulations) && intervals == old(intervals) &&
                             prices == old(prices) && history == old(history)
      ensures r == Failure(InvalidTargetPrice) <==> targetPrice <= 0.0
      ensures r == Failure(AlreadyActive) ==> coinId in old(simulations)
      ensures r.Success? ==> r.value == old(prices)[coinId] && coinId in simulations &&
                             simulations[coinId].targetPrice == targetPrice &&
                             simulations[coinId].startPrice == old(prices)[coinId] &&
                             intervals == old(intervals) + {coinId}
      ensures r.Success? ==>
                var s := NewSimulation(coinId, old(prices)[coinId], targetPrice, timeMinutes, now);
                TickOutcome(s, tickNow, 0.0).Write? &&
                simulations == old(simulations)[coinId := TickOutcome(s, tickNow, 0.0).sim] &&
                prices == old(prices)[coinId := TickOutcome(s, tickNow, 0.0).price] &&
                history == old(history) + [TickRow(TickOutcome(s, tickNow, 0.0).sim, TickOutcome(s, tickNow, 0.0).price)]
    {
      if targetPrice <= 0.0 {
        return Failure(InvalidTargetPrice);
      }
      if timeMinutes <= 0.0 || timeMinutes > MaxDurationMinutes {
        return Failure(InvalidDuration);
      }
      if coinId !in prices {
        return Failure(CoinNotFound);
      }
      if coinId in simulations {
        return Failure(AlreadyActive);
      }
      var startPrice := prices[coinId];
      var ok := StartSimulation(coinId, targetPrice, timeMinutes, now, tickNow);
      // The coin was found just above, so the 500 answer for `false` cannot occur.
      assert ok;
      return Success(startPrice);
    }

    /** The stop route: refuses a coin without a simulation. */
    method StopRoute(coinId: CoinId, reference: real) returns (r: Result<(), StopError>)
      requires Valid()
      modifies this
      ensures Valid()
      ensures r.Failure? <==> coinId !in old(simulations)
      ensures r.Failure? ==> simulations == old(simulations) && intervals == old(intervals) &&
                             prices == old(prices) && history == old(history)
      ensures r.Success? ==> simulations == old(simulations) - {coinId} && intervals == old(intervals) - {coinId} &&
                             prices == StopPrices(old(prices), coinId, reference) &&
                             history == old(history) + StopRows(coinId, reference)
    {
      if coinId !in simulations {
        return Failure(NotActive);
      }
      Stop(coinId, reference);
      return Success(());
    }

    /** The status route. */
    function Status(coinId: CoinId): (r: Option<SimulationView>)
      reads this
      ensures r.None? <==> coinId !in simulations
      ensures r.Some? ==> r.value.phase == simulations[coinId].phase &&
                          r.value.targetPrice == simulations[coinId].targetPrice &&
                          r.value.startPrice == simulations[coinId].startPrice
    {
      if coinId in simulations then
        var s := simulations[coinId];
        Some(SimulationView(coinId, s.isActive, s.phase, s.startPrice, s.targetPrice, s.startTime, s.rate))
      else None
    }

    /** The periodic market refresh (`fetchCoinPrices`): saves each quoted coin
        and a history row for it, skipping every coin under simulation. */
    method RefreshPrices(quotes: seq<Quote>)
      requires Valid()
      modifies this
      ensures Valid()
      ensures simulations == old(simulations) && intervals == old(intervals)
      ensures prices == RefreshedPrices(old(prices), quotes, simulations.Keys)
      ensures history == old(history) + RefreshRows(quotes, simulations.Keys)
    {
      var i := 0;
      while i < |quotes|
        invariant 0 <= i <= |quotes|
        invariant simulations == old(simulations) && intervals == old(intervals)
        invariant prices == RefreshedPrices(old(prices), quotes[..i], simulations.Keys)
        invariant history == old(history) + RefreshRows(quotes[..i], simulations.Keys)
        invariant old(prices).Keys <= prices.Keys
      {
        var q := quotes[i];
        assert quotes[..i + 1][..i] == quotes[..i];
        if q.coinId !in simulations {
          prices := prices[q.coinId := q.price];
          history := history + [PriceRow(q.coinId, q.price, Some(q.priceChange), q.marketCap, q.volume)];
        }
        i := i + 1;
      }
      assert quotes[..i] == quotes;
    }
  }
}
