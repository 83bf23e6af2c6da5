/**
 * Properties that span the services: the seeded configuration table agrees with
 * the risk engine's built-in defaults, a forecast generated by the forecast
 * engine always clears the default confidence threshold, and an approved signal
 * yields a bounded order in the execution engine.
 */
module Pipeline {
  import opened Common
  import opened Messages
  import opened DecimalText
  import StrategyConfigStore
  import opened Risk
  import Execution
  import Forecasting

  /** The seeded text for 1.0 reads as 1.0. */
  lemma ParsesOne()
    ensures ParseDecimal("1.0") == Some(1.0)
  {
    assert PointValue("1", "0") == 1.0 by {
      assert DigitsValue("0") == 0 && DigitsValue("1") == 1 && Pow10(1) == 10;
    }
    ParsePointForm("1", "0");
    assert "1" + "." + "0" == "1.0";
  }

  /** The seeded text for 0.1 reads as 0.1. */
  lemma ParsesOneTenth()
    ensures ParseDecimal("0.1") == Some(0.1)
  {
    assert PointValue("0", "1") == 0.1 by {
      assert DigitsValue("0") == 0 && DigitsValue("1") == 1 && Pow10(1) == 10;
    }
    ParsePointForm("0", "1");
    assert "0" + "." + "1" == "0.1";
  }

  /** The seeded text for 0.7 reads as 0.7. */
  lemma ParsesSevenTenths()
    ensures ParseDecimal("0.7") == Some(0.7)
  {
    assert PointValue("0", "7") == 0.7 by {
      assert DigitsValue("0") == 0 && DigitsValue("7") == 7 && Pow10(1) == 10;
    }
    ParsePointForm("0", "7");
    assert "0" + "." + "7" == "0.7";
  }

  /** The seeded text for 0.05 reads as 0.05. */
  lemma ParsesFiveHundredths()
    ensures ParseDecimal("0.05") == Some(0.05)
  {
    assert PointValue("0", "05") == 0.05 by {
      assert "05"[..1] == "0";
      assert DigitsValue("0") == 0 && DigitsValue("05") == 5 && Pow10(2) == 100;
    }
    ParsePointForm("0", "05");
    assert "0" + "." + "05" == "0.05";
  }

  /** Every seeded value parses to the built-in value of the parameter it names. */
  lemma SeededValuesParse()
    ensures forall i :: 0 <= i < |StrategyConfigStore.DefaultConfig| ==>
      var row := StrategyConfigStore.DefaultConfig[i];
      IsParamKey(row.0) && ParseDecimal(row.1) == Some(FieldOf(DefaultParams, row.0))
  {
    var rows := StrategyConfigStore.DefaultConfig;
    forall i | 0 <= i < |rows|
      ensures IsParamKey(rows[i].0) && ParseDecimal(rows[i].1) == Some(FieldOf(DefaultParams, rows[i].0))
    {
      if i == 0 {
        assert rows[i] == (RiskFactorKey, "1.0");
        ParsesOne();
      } else if i == 1 {
        assert rows[i] == (PositionSizeLimitKey, "0.1");
        ParsesOneTenth();
      } else if i == 2 {
        assert rows[i] == (ConfidenceThresholdKey, "0.7");
        ParsesSevenTenths();
      } else if i == 3 {
        assert rows[i] == (MaxDrawdownLimitKey, "0.05");
        ParsesFiveHundredths();
      } else {
        assert rows[i] == (VolatilityMultiplierKey, "1.0");
        ParsesOne();
      }
    }
  }

  /** Row j of the seeded table decides its parameter, which ends up at the built-in value. */
  lemma SeededRowDecides(p: StrategyParams, j: nat)
    requires j < |StrategyConfigStore.DefaultConfig|
    ensures var rows := StrategyConfigStore.DefaultConfig;
      IsParamKey(rows[j].0) && FieldOf(Load(p, rows).params, rows[j].0) == FieldOf(DefaultParams, rows[j].0)
  {
    var rows := StrategyConfigStore.DefaultConfig;
    SeededValuesParse();
    StrategyConfigStore.DefaultConfigDistinct();
    LoadOkIffAllNumeric(p, rows);
    LoadLastRowWins(p, rows, j);
  }

  /**
   * Loading the seeded rows, from any starting parameters, succeeds and yields
   * exactly the built-in defaults: the two sources of defaults agree.
   */
  lemma SeededConfigLoadsDefaults(p: StrategyParams)
    ensures Load(p, StrategyConfigStore.DefaultConfig) == LoadResult(DefaultParams, true)
  {
    var rows := StrategyConfigStore.DefaultConfig;
    SeededValuesParse();
    LoadOkIffAllNumeric(p, rows);
    var q := Load(p, rows).params;
    SeededRowDecides(p, 0);
    SeededRowDecides(p, 1);
    SeededRowDecides(p, 2);
    SeededRowDecides(p, 3);
    SeededRowDecides(p, 4);
    assert rows[0].0 == RiskFactorKey && rows[1].0 == PositionSizeLimitKey && rows[2].0 == ConfidenceThresholdKey;
    assert rows[3].0 == MaxDrawdownLimitKey && rows[4].0 == VolatilityMultiplierKey;
  }

  /** A forecast from the forecast engine never trips the default confidence check. */
  lemma GeneratedForecastClearsDefaultThreshold(
    trained: bool, asset: string, horizon: string, d: Forecasting.AssetDraw, volatility: real)
    requires Forecasting.ValidDraw(d)
    requires Forecasting.Generate(trained, asset, horizon, d).forecast.Some?
    ensures var f := Forecasting.Generate(trained, asset, horizon, d).forecast.value;
      && ConfidenceOf(DefaultParams, f).Scored?
      && LowConfidence(f.confidence, DefaultParams.confidenceThreshold)
         !in EvaluateForecastRisk(DefaultParams, f, volatility).value.reasons
  {
    var f := Forecasting.Generate(trained, asset, horizon, d).forecast.value;
    ReasonsInOrder(DefaultParams, f, volatility);
  }

  /**
   * Under parameters with a non-negative risk factor, a positive limit and a
   * non-negative volatility adjustment, an approved signal leads to an order of
   * between 0 and 1000 times the limit, on the side of the prediction, and the
   * simulated fill stays within that order.
   */
  lemma ApprovedSignalOrderBounded(p: StrategyParams, f: Forecast, volatility: real, d: Execution.FillDraw)
    requires p.riskFactor >= 0.0 && p.positionSizeLimit > 0.0
    requires volatility * p.volatilityMultiplier >= 0.0
    requires Execution.ValidDraw(d)
    requires f.prediction != 0.0
    ensures var s := SignalOf(EvaluateForecastRisk(p, f, volatility).value);
      var size := Execution.OrderSize(s.positionSize);
      var side := Execution.TradeSide(s.prediction);
      var fill := Execution.SimulateTradeExecution(Execution.TradeDetails(s.asset, side.value, size, s.prediction, s.confidence), d);
      && 0.0 <= size <= Execution.OrderSizeScale * p.positionSizeLimit
      && (side == Some(Execution.Buy) <==> f.prediction > 0.0)
      && 0.0 <= fill.filledSize <= fill.orderedSize == size
  {
    SizeConjunctHolds(p, f, volatility);
    var s := SignalOf(EvaluateForecastRisk(p, f, volatility).value);
    assert 0.0 <= s.positionSize <= p.positionSizeLimit;
    MulMonotone(Execution.OrderSizeScale, 0.0, s.positionSize);
    MulMonotone(Execution.OrderSizeScale, s.positionSize, p.positionSizeLimit);
  }
}
