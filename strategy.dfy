/**
 * The ActiveDCA decision engine: a two-phase decision table over a mutable
 * (cash, position) pair. Amounts, prices and thresholds are exact reals.
 */
module Strategy {

  /** The four labels the engine reports. */
  datatype Action = Hold | Buy | Sell | DipBuy

  /** What one call reports: the label and the amount of money attached to it. */
  datatype Decision = Decision(action: Action, amount: real)

  /** The six parameters fixed at construction. They are not validated. */
  datatype Config = Config(
    stopInvesting: real,
    sellThreshold: real,
    dipBuyThreshold: real,
    investPercentage: real,
    dailyInvestment: real,
    weightCoefficient: real)

  /** Cash held and quantity of the asset held. */
  datatype Portfolio = Portfolio(cash: real, position: real)

  /** The state after a call together with what the call reports. */
  datatype Outcome = Outcome(state: Portfolio, decision: Decision)

  /** An (indicator, price) pair as an external indicator provider delivers it. */
  datatype Reading = Reading(indicator: real, price: real)

  datatype Option<T> = None | Some(value: T)

  /** The parameters one gets when only the initial cash is given. */
  const DefaultConfig := Config(1.10, 1.85, 0.6, 0.7, 100.0, 1.0)

  /** The buy amount, scaled inversely with the indicator. */
  function DynamicInvestment(cfg: Config, indicator: real): real
    requires indicator > 0.0
  {
    cfg.dailyInvestment * (cfg.weightCoefficient / indicator)
  }

  /** True when the dip overlay fires on the state left by phase 1. */
  predicate DipFires(cfg: Config, afterPhaseOne: Portfolio, indicator: real)
  {
    indicator < cfg.dipBuyThreshold && afterPhaseOne.cash > 0.0
  }

  /** Phase 1: at most one of Buy, Hold-with-saving, Sell; otherwise nothing happens. */
  function PhaseOne(cfg: Config, st: Portfolio, price: real, indicator: real): Outcome
    requires price > 0.0 && indicator > 0.0
  {
    var dyn := DynamicInvestment(cfg, indicator);
    if indicator < cfg.stopInvesting then
      Outcome(Portfolio(st.cash, st.position + dyn / price), Decision(Buy, dyn))
    else if cfg.stopInvesting <= indicator < cfg.sellThreshold then
      Outcome(Portfolio(st.cash + cfg.dailyInvestment, st.position), Decision(Hold, 0.0))
    else if indicator >= cfg.sellThreshold && st.position > 0.0 then
      Outcome(Portfolio(st.cash + st.position * price, 0.0), Decision(Sell, st.position * price))
    else
      Outcome(st, Decision(Hold, 0.0))
  }

  /** Phase 2: the dip overlay, which replaces whatever phase 1 reported. */
  function PhaseTwo(cfg: Config, o: Outcome, price: real, indicator: real): Outcome
    requires price > 0.0
  {
    if DipFires(cfg, o.state, indicator) then
      var invest := o.state.cash * cfg.investPercentage;
      Outcome(Portfolio(o.state.cash - invest, o.state.position + invest / price), Decision(DipBuy, invest))
    else
      o
  }

  /** One full call of the engine, as a function of the configuration and the old state. */
  function Step(cfg: Config, st: Portfolio, price: real, indicator: real): Outcome
    requires price > 0.0 && indicator > 0.0
  {
    PhaseTwo(cfg, PhaseOne(cfg, st, price, indicator), price, indicator)
  }

  /** The parameter regime under which cash and position stay non-negative. */
  predicate NonNegativeRegime(cfg: Config)
  {
    0.0 <= cfg.investPercentage <= 1.0 && cfg.dailyInvestment >= 0.0 && cfg.weightCoefficient >= 0.0
  }

  predicate NonNegative(st: Portfolio)
  {
    st.cash >= 0.0 && st.position >= 0.0
  }

  /** Buy branch: position grows by the dynamic investment over the price, cash is not debited. */
  lemma BuyBranch(cfg: Config, st: Portfolio, price: real, indicator: real)
    requires price > 0.0 && indicator > 0.0
    requires indicator < cfg.stopInvesting
    ensures PhaseOne(cfg, st, price, indicator).state
         == Portfolio(st.cash, st.position + cfg.dailyInvestment * (cfg.weightCoefficient / indicator) / price)
    ensures !DipFires(cfg, st, indicator) ==>
      Step(cfg, st, price, indicator)
        == Outcome(Portfolio(st.cash, st.position + DynamicInvestment(cfg, indicator) / price),
                   Decision(Buy, cfg.dailyInvestment * (cfg.weightCoefficient / indicator)))
  {
  }

  /** Hold branch: exactly the daily investment is saved; nothing is bought. */
  lemma HoldBranch(cfg: Config, st: Portfolio, price: real, indicator: real)
    requires price > 0.0 && indicator > 0.0
    requires cfg.stopInvesting <= indicator < cfg.sellThreshold
    ensures PhaseOne(cfg, st, price, indicator).state == Portfolio(st.cash + cfg.dailyInvestment, st.position)
    ensures !DipFires(cfg, Portfolio(st.cash + cfg.dailyInvestment, st.position), indicator) ==>
      Step(cfg, st, price, indicator)
        == Outcome(Portfolio(st.cash + cfg.dailyInvestment, st.position), Decision(Hold, 0.0))
  {
  }

  /** Sell branch: the whole position turns into cash and the proceeds are reported. */
  lemma SellBranch(cfg: Config, st: Portfolio, price: real, indicator: real)
    requires price > 0.0 && indicator > 0.0
    requires cfg.stopInvesting <= indicator && indicator >= cfg.sellThreshold && st.position > 0.0
    ensures PhaseOne(cfg, st, price, indicator)
         == Outcome(Portfolio(st.cash + st.position * price, 0.0), Decision(Sell, st.position * price))
    ensures !DipFires(cfg, Portfolio(st.cash + st.position * price, 0.0), indicator) ==>
      var o := Step(cfg, st, price, indicator);
      o.state.position == 0.0 && o.decision.action == Sell && o.state.cash - st.cash == o.decision.amount
  {
  }

  /** Fallthrough: at or above the sell line with nothing held, and no dip, nothing changes. */
  lemma FallthroughBranch(cfg: Config, st: Portfolio, price: real, indicator: real)
    requires price > 0.0 && indicator > 0.0
    requires cfg.stopInvesting <= indicator && indicator >= cfg.sellThreshold && st.position <= 0.0
    requires !DipFires(cfg, st, indicator)
    ensures Step(cfg, st, price, indicator) == Outcome(st, Decision(Hold, 0.0))
  {
  }

  /**
   * Dip overlay: when it fires on the state left by phase 1, it spends the
   * invested fraction of that cash, adds the bought quantity on top of phase 1's,
   * and reports only its own amount.
   */
  lemma DipOverlay(cfg: Config, st: Portfolio, price: real, indicator: real)
    requires price > 0.0 && indicator > 0.0
    requires DipFires(cfg, PhaseOne(cfg, st, price, indicator).state, indicator)
    ensures var mid := PhaseOne(cfg, st, price, indicator).state;
      Step(cfg, st, price, indicator)
        == Outcome(Portfolio(mid.cash * (1.0 - cfg.investPercentage),
                             mid.position + mid.cash * cfg.investPercentage / price),
                   Decision(DipBuy, mid.cash * cfg.investPercentage))
  {
  }

  /** When no dip fires, the step is phase 1 alone. */
  lemma NoDipOverlay(cfg: Config, st: Portfolio, price: real, indicator: real)
    requires price > 0.0 && indicator > 0.0
    requires !DipFires(cfg, PhaseOne(cfg, st, price, indicator).state, indicator)
    ensures Step(cfg, st, price, indicator) == PhaseOne(cfg, st, price, indicator)
  {
  }

  /** The reported action is DipBuy exactly when the overlay fires. */
  lemma DipBuyReportedIff(cfg: Config, st: Portfolio, price: real, indicator: real)
    requires price > 0.0 && indicator > 0.0
    ensures Step(cfg, st, price, indicator).decision.action == DipBuy
        <==> DipFires(cfg, PhaseOne(cfg, st, price, indicator).state, indicator)
  {
  }

  /** Every call keeps cash and position non-negative in the non-negative regime. */
  lemma StepNonNegative(cfg: Config, st: Portfolio, price: real, indicator: real)
    requires price > 0.0 && indicator > 0.0
    requires NonNegativeRegime(cfg) && NonNegative(st)
    ensures NonNegative(Step(cfg, st, price, indicator).state)
    ensures Step(cfg, st, price, indicator).decision.amount >= 0.0
  {
    var dyn := DynamicInvestment(cfg, indicator);
    assert cfg.weightCoefficient / indicator >= 0.0;
    assert dyn >= 0.0;
    assert dyn / price >= 0.0;
    var mid := PhaseOne(cfg, st, price, indicator);
    assert NonNegative(mid.state) && mid.decision.amount >= 0.0;
    if DipFires(cfg, mid.state, indicator) {
      var invest := mid.state.cash * cfg.investPercentage;
      assert 0.0 <= invest <= mid.state.cash;
      assert invest / price >= 0.0;
    }
  }

  /**
   * A Buy or DipBuy report never lowers the position in the non-negative regime,
   * from any starting state, unless the dip line is above both the stop-investing
   * and the sell lines: only then can a day sell everything and then dip-buy less
   * back (see UnorderedThresholdsSellThenDipBuy).
   */
  lemma BuyingRaisesPosition(cfg: Config, st: Portfolio, price: real, indicator: real)
    requires price > 0.0 && indicator > 0.0
    requires NonNegativeRegime(cfg)
    requires cfg.dipBuyThreshold <= cfg.sellThreshold || cfg.dipBuyThreshold <= cfg.stopInvesting
    requires Step(cfg, st, price, indicator).decision.action in {Buy, DipBuy}
    ensures Step(cfg, st, price, indicator).state.position >= st.position
    ensures Step(cfg, st, price, indicator).decision.amount > 0.0 ==>
      Step(cfg, st, price, indicator).state.position > st.position
  {
    var dyn := DynamicInvestment(cfg, indicator);
    assert cfg.weightCoefficient / indicator >= 0.0;
    assert dyn / price >= 0.0;
    assert dyn > 0.0 ==> dyn / price > 0.0;
    var mid := PhaseOne(cfg, st, price, indicator);
    if DipFires(cfg, mid.state, indicator) {
      var invest := mid.state.cash * cfg.investPercentage;
      assert invest / price >= 0.0;
      assert invest > 0.0 ==> invest / price > 0.0;
      assert mid.state.position >= st.position || mid.decision.action == Sell;
    }
  }

  /** A reported Buy means cash was not touched and the position grew by the amount over the price. */
  lemma BuyReported(cfg: Config, st: Portfolio, price: real, indicator: real)
    requires price > 0.0 && indicator > 0.0
    requires Step(cfg, st, price, indicator).decision.action == Buy
    ensures var o := Step(cfg, st, price, indicator);
      o.state.cash == st.cash && o.state.position == st.position + o.decision.amount / price
  {
  }

  /** A reported Sell means the whole old position was turned into cash at the price. */
  lemma SellReported(cfg: Config, st: Portfolio, price: real, indicator: real)
    requires price > 0.0 && indicator > 0.0
    requires Step(cfg, st, price, indicator).decision.action == Sell
    ensures Step(cfg, st, price, indicator).state == Portfolio(st.cash + st.position * price, 0.0)
    ensures Step(cfg, st, price, indicator).decision.amount == st.position * price
  {
  }

  /**
   * The thresholds are not validated: with the dip line above both the
   * stop-investing and the sell lines a
   * single call sells the whole position and then dip-buys a fraction back, and
   * the DipBuy report comes with a smaller position than before.
   */
  lemma UnorderedThresholdsSellThenDipBuy()
    ensures Step(Config(1.0, 2.0, 3.0, 0.5, 100.0, 1.0), Portfolio(0.0, 1.0), 10.0, 2.5)
         == Outcome(Portfolio(5.0, 0.5), Decision(DipBuy, 5.0))
  {
    var cfg := Config(1.0, 2.0, 3.0, 0.5, 100.0, 1.0);
    assert PhaseOne(cfg, Portfolio(0.0, 1.0), 10.0, 2.5) == Outcome(Portfolio(10.0, 0.0), Decision(Sell, 10.0));
  }

  /**
   * With the dip line above the sell line but not above the stop-investing line,
   * a day past the sell line still takes the Buy branch, so the dip-buy adds to it.
   */
  lemma DipAboveSellBelowStop()
    ensures Step(Config(5.0, 2.0, 3.0, 0.5, 100.0, 1.0), Portfolio(10.0, 1.0), 10.0, 2.5)
         == Outcome(Portfolio(5.0, 5.5), Decision(DipBuy, 5.0))
  {
    var cfg := Config(5.0, 2.0, 3.0, 0.5, 100.0, 1.0);
    assert PhaseOne(cfg, Portfolio(10.0, 1.0), 10.0, 2.5) == Outcome(Portfolio(10.0, 5.0), Decision(Buy, 40.0));
  }

  /** Undervalued day with default parameters: a plain Buy of 100 / 0.9. */
  lemma ScenarioBuy()
    ensures Step(DefaultConfig, Portfolio(10000.0, 0.0), 50000.0, 0.9)
         == Outcome(Portfolio(10000.0, 1.0 / 450.0), Decision(Buy, 1000.0 / 9.0))
  {
  }

  /** Neutral day with default parameters: the daily amount is saved. */
  lemma ScenarioHold()
    ensures Step(DefaultConfig, Portfolio(10000.0, 0.0), 50000.0, 1.5)
         == Outcome(Portfolio(10100.0, 0.0), Decision(Hold, 0.0))
  {
  }

  /** Overvalued day holding one unit: everything is sold at the price. */
  lemma ScenarioSell(cash: real)
    ensures Step(DefaultConfig, Portfolio(cash, 1.0), 60000.0, 2.0)
         == Outcome(Portfolio(cash + 60000.0, 0.0), Decision(Sell, 60000.0))
  {
  }

  /** Deep dip: phase 1 buys 200 worth, phase 2 spends 700 of the cash and is the only one reported. */
  lemma ScenarioDipBuy()
    ensures Step(DefaultConfig, Portfolio(1000.0, 0.0), 50000.0, 0.5)
         == Outcome(Portfolio(300.0, 200.0 / 50000.0 + 700.0 / 50000.0), Decision(DipBuy, 700.0))
  {
  }

  /** The strategy object: fixed parameters and the mutable portfolio. */
  class ActiveDCA {
    const stopInvesting: real
    const sellThreshold: real
    const dipBuyThreshold: real
    const investPercentage: real
    const dailyInvestment: real
    const weightCoefficient: real
    var position: real
    var cash: real

    function Cfg(): Config
    {
      Config(stopInvesting, sellThreshold, dipBuyThreshold, investPercentage, dailyInvestment, weightCoefficient)
    }

    function State(): Portfolio
      reads this
    {
      Portfolio(cash, position)
    }

    /** Stores the parameters unchanged, starts with no position and the given cash. */
    constructor (cash: real, stopInvesting: real := 1.10, sellThreshold: real := 1.85,
                 dipBuyThreshold: real := 0.6, investPercentage: real := 0.7,
                 dailyInvestment: real := 100.0, weightCoefficient: real := 1.0)
      ensures Cfg() == Config(stopInvesting, sellThreshold, dipBuyThreshold,
                              investPercentage, dailyInvestment, weightCoefficient)
      ensures this.position == 0.0 && this.cash == cash
    {
      this.stopInvesting := stopInvesting;
      this.sellThreshold := sellThreshold;
      this.dipBuyThreshold := dipBuyThreshold;
      this.investPercentage := investPercentage;
      this.dailyInvestment := dailyInvestment;
      this.weightCoefficient := weightCoefficient;
      this.position := 0.0;
      this.cash := cash;
    }

    /** One decision with both inputs supplied: phase 1, then the dip overlay. */
    method ExecuteStrategy(price: real, indicator: real) returns (action: Action, amount: real)
      requires price > 0.0 && indicator > 0.0
      modifies this
      ensures Outcome(State(), Decision(action, amount)) == Step(Cfg(), old(State()), price, indicator)
    {
      ghost var before := State();
      ghost var cfg := Cfg();
      ghost var phaseOne := PhaseOne(cfg, before, price, indicator);
      var dynamicInvestment := dailyInvestment * (weightCoefficient / indicator);
      assert dynamicInvestment == DynamicInvestment(cfg, indicator);
      action := Hold;
      amount := 0.0;

      if indicator < stopInvesting {
        position := position + dynamicInvestment / price;
        action := Buy;
        amount := dynamicInvestment;
        assert Outcome(State(), Decision(action, amount)) == phaseOne;
      } else if stopInvesting <= indicator < sellThreshold {
        cash := cash + dailyInvestment;
        action := Hold;
        assert Outcome(State(), Decision(action, amount)) == phaseOne;
      } else if indicator >= sellThreshold && position > 0.0 {
        var sellAmount := position * price;
        cash := cash + sellAmount;
        position := 0.0;
        action := Sell;
        amount := sellAmount;
        assert Outcome(State(), Decision(action, amount)) == phaseOne;
      } else {
        assert Outcome(State(), Decision(action, amount)) == phaseOne;
      }

      if indicator < dipBuyThreshold && cash > 0.0 {
        var investAmount := cash * investPercentage;
        position := position + investAmount / price;
        cash := cash - investAmount;
        action := DipBuy;
        amount := investAmount;
        assert Outcome(State(), Decision(action, amount)) == PhaseTwo(cfg, phaseOne, price, indicator);
      } else {
        assert Outcome(State(), Decision(action, amount)) == PhaseTwo(cfg, phaseOne, price, indicator);
      }
    }

    /**
     * The entry point with optional inputs. When either input is missing, both
     * are taken from the provider's reading; a failed reading (None) makes no
     * decision and leaves the portfolio as it was.
     */
    method Execute(reading: Option<Reading>, price: Option<real> := None, indicator: Option<real> := None)
      returns (r: Option<Decision>)
      requires price.Some? && indicator.Some? ==> price.value > 0.0 && indicator.value > 0.0
      requires (price.None? || indicator.None?) && reading.Some? ==>
        reading.value.price > 0.0 && reading.value.indicator > 0.0
      modifies this
      ensures price.Some? && indicator.Some? ==>
        var o := Step(Cfg(), old(State()), price.value, indicator.value);
        r == Some(o.decision) && State() == o.state
      ensures (price.None? || indicator.None?) && reading.None? ==>
        r == None && State() == old(State())
      ensures (price.None? || indicator.None?) && reading.Some? ==>
        var o := Step(Cfg(), old(State()), reading.value.price, reading.value.indicator);
        r == Some(o.decision) && State() == o.state
    {
      var p, v;
      if price.None? || indicator.None? {
        if reading.None? {
          return None;
        }
        v, p := reading.value.indicator, reading.value.price;
      } else {
        p, v := price.value, indicator.value;
      }
      var action, amount := ExecuteStrategy(p, v);
      r := Some(Decision(action, amount));
    }
  }
}
