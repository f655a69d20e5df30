/**
 * The backtest runner: a strict left-to-right fold of the strategy over a
 * series of samples, one ledger record per sample, plus the cumulative
 * investment series computed from the ledger.
 */
module Backtesting {
  import opened Strategy

  /** One input row. The date is kept as the YYYYMMDD number it is read from. */
  datatype Sample = Sample(date: int, price: real, indicator: real)

  /** One output row, unrounded. */
  datatype Record = Record(
    date: int,
    price: real,
    indicator: real,
    cash: real,
    position: real,
    action: Action,
    amount: real,
    value: real)

  /** Every sample has a positive price and a positive indicator. */
  predicate WellFormed(samples: seq<Sample>)
  {
    forall i :: 0 <= i < |samples| ==> samples[i].price > 0.0 && samples[i].indicator > 0.0
  }

  /** Total value of the portfolio at a price. */
  function PortfolioValue(position: real, price: real, cash: real): real
  {
    cash + position * price
  }

  /** The record written for a sample, from the state after its decision. */
  function Entry(s: Sample, o: Outcome): Record
  {
    Record(s.date, s.price, s.indicator, o.state.cash, o.state.position,
           o.decision.action, o.decision.amount, PortfolioValue(o.state.position, s.price, o.state.cash))
  }

  /** The portfolio after folding the strategy over the samples, from `start`. */
  function StateAfter(cfg: Config, start: Portfolio, samples: seq<Sample>): Portfolio
    requires WellFormed(samples)
    decreases |samples|
  {
    if |samples| == 0 then start
    else
      var last := samples[|samples| - 1];
      Step(cfg, StateAfter(cfg, start, samples[..|samples| - 1]), last.price, last.indicator).state
  }

  /** The records the fold writes, in input order. */
  function Ledger(cfg: Config, start: Portfolio, samples: seq<Sample>): seq<Record>
    requires WellFormed(samples)
    decreases |samples|
  {
    if |samples| == 0 then []
    else
      var prefix := samples[..|samples| - 1];
      var last := samples[|samples| - 1];
      Ledger(cfg, start, prefix)
        + [Entry(last, Step(cfg, StateAfter(cfg, start, prefix), last.price, last.indicator))]
  }

  /**
   * Record i is the entry for sample i computed from the state left by the
   * first i samples: one record per sample, in order, each a left-fold step.
   */
  lemma {:induction false} LedgerAt(cfg: Config, start: Portfolio, samples: seq<Sample>, i: nat)
    requires WellFormed(samples)
    requires i < |samples|
    ensures |Ledger(cfg, start, samples)| == |samples|
    ensures WellFormed(samples[..i])
    ensures Ledger(cfg, start, samples)[i]
         == Entry(samples[i], Step(cfg, StateAfter(cfg, start, samples[..i]), samples[i].price, samples[i].indicator))
    decreases |samples|
  {
    var n := |samples|;
    var prefix := samples[..n - 1];
    if i == n - 1 {
      LedgerLength(cfg, start, prefix);
      assert samples[..i] == prefix;
    } else {
      LedgerAt(cfg, start, prefix, i);
      assert prefix[..i] == samples[..i];
    }
  }

  /** The ledger has exactly one record per sample. */
  lemma {:induction false} LedgerLength(cfg: Config, start: Portfolio, samples: seq<Sample>)
    requires WellFormed(samples)
    ensures |Ledger(cfg, start, samples)| == |samples|
    decreases |samples|
  {
    if |samples| > 0 {
      LedgerLength(cfg, start, samples[..|samples| - 1]);
    }
  }

  /** Each record copies its sample and carries the state after that sample's decision. */
  lemma LedgerRecordsPostDecisionState(cfg: Config, start: Portfolio, samples: seq<Sample>, i: nat)
    requires WellFormed(samples)
    requires i < |samples|
    ensures |Ledger(cfg, start, samples)| == |samples|
    ensures WellFormed(samples[..i + 1])
    ensures var r := Ledger(cfg, start, samples)[i];
      r.date == samples[i].date && r.price == samples[i].price && r.indicator == samples[i].indicator
      && Portfolio(r.cash, r.position) == StateAfter(cfg, start, samples[..i + 1])
  {
    LedgerAt(cfg, start, samples, i);
    assert samples[..i + 1] == samples[..i] + [samples[i]];
    StateAfterSnoc(cfg, start, samples[..i], samples[i]);
  }

  /** Each record's value is its cash plus its position times that same row's price. */
  lemma LedgerValuation(cfg: Config, start: Portfolio, samples: seq<Sample>, i: nat)
    requires WellFormed(samples)
    requires i < |samples|
    ensures |Ledger(cfg, start, samples)| == |samples|
    ensures var r := Ledger(cfg, start, samples)[i]; r.value == PortfolioValue(r.position, r.price, r.cash)
  {
    LedgerAt(cfg, start, samples, i);
  }

  /** Folding over one more sample is one more step from the state already reached. */
  lemma StateAfterSnoc(cfg: Config, start: Portfolio, samples: seq<Sample>, s: Sample)
    requires WellFormed(samples) && s.price > 0.0 && s.indicator > 0.0
    ensures WellFormed(samples + [s])
    ensures StateAfter(cfg, start, samples + [s])
         == Step(cfg, StateAfter(cfg, start, samples), s.price, s.indicator).state
    ensures Ledger(cfg, start, samples + [s])
         == Ledger(cfg, start, samples) + [Entry(s, Step(cfg, StateAfter(cfg, start, samples), s.price, s.indicator))]
  {
    assert (samples + [s])[..|samples|] == samples;
  }

  /** In the non-negative regime every state reached, and every record, is non-negative. */
  lemma {:induction false} RunNonNegative(cfg: Config, start: Portfolio, samples: seq<Sample>)
    requires WellFormed(samples)
    requires NonNegativeRegime(cfg) && NonNegative(start)
    ensures NonNegative(StateAfter(cfg, start, samples))
    ensures forall r :: r in Ledger(cfg, start, samples) ==> r.cash >= 0.0 && r.position >= 0.0 && r.amount >= 0.0
    decreases |samples|
  {
    if |samples| > 0 {
      var prefix := samples[..|samples| - 1];
      var last := samples[|samples| - 1];
      RunNonNegative(cfg, start, prefix);
      StepNonNegative(cfg, StateAfter(cfg, start, prefix), last.price, last.indicator);
    }
  }

  /** What a record adds to the cumulative investment: its amount on Buy rows only. */
  function Contribution(r: Record): real
  {
    if r.action == Buy then r.amount else 0.0
  }

  /** The cumulative investment after the given records, starting from `start`. */
  function Invested(start: real, records: seq<Record>): real
    decreases |records|
  {
    if |records| == 0 then start
    else Invested(start, records[..|records| - 1]) + Contribution(records[|records| - 1])
  }

  /** Every Buy row reports a non-negative amount. */
  predicate BuyAmountsNonNegative(records: seq<Record>)
  {
    forall k :: 0 <= k < |records| && records[k].action == Buy ==> records[k].amount >= 0.0
  }

  /** With non-negative Buy amounts the cumulative investment never decreases. */
  lemma {:induction false} InvestedMonotone(start: real, records: seq<Record>, i: nat, j: nat)
    requires BuyAmountsNonNegative(records)
    requires i <= j <= |records|
    ensures Invested(start, records[..i]) <= Invested(start, records[..j])
    decreases j - i
  {
    if i < j {
      InvestedMonotone(start, records, i, j - 1);
      assert records[..j][..j - 1] == records[..j - 1];
      assert records[..j][j - 1] == records[j - 1];
    }
  }

  /** With no Buy rows the cumulative investment stays at the initial cash. */
  lemma {:induction false} InvestedWithoutBuys(start: real, records: seq<Record>)
    requires forall k :: 0 <= k < |records| ==> records[k].action != Buy
    ensures Invested(start, records) == start
    decreases |records|
  {
    if |records| > 0 {
      InvestedWithoutBuys(start, records[..|records| - 1]);
    }
  }

  /** Any ledger the runner writes in the non-negative regime has non-negative Buy amounts. */
  lemma LedgerBuyAmountsNonNegative(cfg: Config, start: Portfolio, samples: seq<Sample>)
    requires WellFormed(samples)
    requires NonNegativeRegime(cfg) && NonNegative(start)
    ensures BuyAmountsNonNegative(Ledger(cfg, start, samples))
  {
    RunNonNegative(cfg, start, samples);
    var rs := Ledger(cfg, start, samples);
    forall k | 0 <= k < |rs| && rs[k].action == Buy
      ensures rs[k].amount >= 0.0
    {
      assert rs[k] in rs;
    }
  }

  /**
   * The cumulative-investment series: one value per record, the running total
   * from the initial cash of the Buy amounts seen so far. The chart code runs
   * this loop over a runner's own fields, so callers pass a `Backtest`'s
   * `initialCash` and `dailyActions`.
   */
  method CumulativeInvestment(initialCash: real, actions: seq<Record>) returns (cumulative: seq<real>)
    ensures |cumulative| == |actions|
    ensures forall i :: 0 <= i < |actions| ==> cumulative[i] == Invested(initialCash, actions[..i + 1])
    ensures BuyAmountsNonNegative(actions) ==>
      forall i, j :: 0 <= i <= j < |cumulative| ==> initialCash <= cumulative[i] <= cumulative[j]
  {
    cumulative := [];
    var current := initialCash;
    for idx := 0 to |actions|
      invariant |cumulative| == idx
      invariant current == Invested(initialCash, actions[..idx])
      invariant forall i :: 0 <= i < idx ==> cumulative[i] == Invested(initialCash, actions[..i + 1])
    {
      if actions[idx].action == Buy {
        current := current + actions[idx].amount;
      }
      assert actions[..idx + 1][..idx] == actions[..idx];
      cumulative := cumulative + [current];
    }
    if BuyAmountsNonNegative(actions) {
      forall i, j | 0 <= i <= j < |cumulative|
        ensures initialCash <= cumulative[i] <= cumulative[j]
      {
        InvestedMonotone(initialCash, actions, 0, i + 1);
        InvestedMonotone(initialCash, actions, i + 1, j + 1);
        assert actions[..0] == [];
      }
    }
  }

  /** The runner: the strategy it drives, the records written so far, and the cash it started with. */
  class Backtest {
    const strategy: ActiveDCA
    var dailyActions: seq<Record>
    const initialCash: real

    /** Holds the strategy, starts with no records, and remembers the strategy's cash. */
    constructor (strategy: ActiveDCA)
      ensures this.strategy == strategy && dailyActions == [] && initialCash == strategy.cash
    {
      this.strategy := strategy;
      this.dailyActions := [];
      this.initialCash := strategy.cash;
    }

    /** Appends one record with the strategy's current cash and position. */
    method RecordAction(date: int, price: real, indicator: real, action: Action, amount: real, value: real)
      modifies this
      ensures dailyActions
           == old(dailyActions) + [Record(date, price, indicator, strategy.cash, strategy.position, action, amount, value)]
    {
      dailyActions := dailyActions
        + [Record(date, price, indicator, strategy.cash, strategy.position, action, amount, value)];
    }

    /**
     * Runs the strategy over the samples in order, appending one record per
     * sample; the strategy ends in the state the fold reaches.
     */
    method RunBacktest(samples: seq<Sample>)
      requires WellFormed(samples)
      modifies this, strategy
      ensures dailyActions == old(dailyActions) + Ledger(strategy.Cfg(), old(strategy.State()), samples)
      ensures strategy.State() == StateAfter(strategy.Cfg(), old(strategy.State()), samples)
    {
      ghost var start := strategy.State();
      ghost var before := dailyActions;
      var i := 0;
      while i < |samples|
        invariant 0 <= i <= |samples|
        invariant WellFormed(samples[..i])
        invariant strategy.State() == StateAfter(strategy.Cfg(), start, samples[..i])
        invariant dailyActions == before + Ledger(strategy.Cfg(), start, samples[..i])
      {
        var s := samples[i];
        var action, amount := strategy.ExecuteStrategy(s.price, s.indicator);
        var value := PortfolioValue(strategy.position, s.price, strategy.cash);
        RecordAction(s.date, s.price, s.indicator, action, amount, value);
        assert samples[..i + 1] == samples[..i] + [s];
        StateAfterSnoc(strategy.Cfg(), start, samples[..i], s);
        i := i + 1;
      }
      assert samples[..i] == samples;
    }
  }

  /** Replaying a series through a fresh strategy and runner: the ledger is the fold from the initial cash. */
  method FreshRun(cash: real, samples: seq<Sample>) returns (ledger: seq<Record>, final: Portfolio)
    requires WellFormed(samples)
    ensures ledger == Ledger(DefaultConfig, Portfolio(cash, 0.0), samples)
    ensures final == StateAfter(DefaultConfig, Portfolio(cash, 0.0), samples)
    ensures |ledger| == |samples|
    ensures cash >= 0.0 ==> NonNegative(final)
  {
    var strategy := new ActiveDCA(cash);
    var backtest := new Backtest(strategy);
    backtest.RunBacktest(samples);
    ledger := backtest.dailyActions;
    final := strategy.State();
    LedgerLength(DefaultConfig, Portfolio(cash, 0.0), samples);
    if cash >= 0.0 {
      RunNonNegative(DefaultConfig, Portfolio(cash, 0.0), samples);
    }
  }
}
