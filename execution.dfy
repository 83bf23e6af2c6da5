/**
 * The execution engine: turns an approved trade signal into an order side and
 * size, runs the simulated broker fill, and saves the result. The two random
 * draws of the simulator (fill ratio and price slippage) are bounded inputs.
 */
module Execution {
  import opened Common
  import opened Messages

  datatype Side = Buy | Sell

  /** The fixed scaling from a position-size fraction to an order size. */
  const OrderSizeScale := 1000.0

  /** The price every simulated order is placed at. */
  const ReferencePrice := 100.0

  /** The simulator reports every order as filled. */
  datatype Status = Filled

  /** The order handed to the simulator. */
  datatype TradeDetails = TradeDetails(asset: string, side: Side, size: real, prediction: real, confidence: real)

  datatype ExecutionResult = ExecutionResult(
    asset: string,
    side: Side,
    orderedSize: real,
    filledSize: real,
    orderedPrice: real,
    averageFillPrice: real,
    status: Status)

  /** The two uniform draws of the simulator: the filled fraction and the price factor. */
  datatype FillDraw = FillDraw(fillRatio: real, priceFactor: real)

  predicate ValidDraw(d: FillDraw)
  {
    0.9 <= d.fillRatio <= 1.0 && 0.99 <= d.priceFactor <= 1.01
  }

  /** The side of the order, from the sign of the prediction; None for a zero prediction. */
  function TradeSide(prediction: real): (s: Option<Side>)
    ensures s == Some(Buy) <==> prediction > 0.0
    ensures s == Some(Sell) <==> prediction < 0.0
    ensures s == None <==> prediction == 0.0
  {
    if prediction > 0.0 then Some(Buy)
    else if prediction < 0.0 then Some(Sell)
    else None
  }

  /** The order size keeps the sign of the position size, and a fraction in [0, 1] stays within the scale. */
  function OrderSize(positionSize: real): (r: real)
    ensures r > 0.0 <==> positionSize > 0.0
    ensures r == 0.0 <==> positionSize == 0.0
    ensures 0.0 <= positionSize <= 1.0 ==> 0.0 <= r <= OrderSizeScale
  {
    positionSize * OrderSizeScale
  }

  /** A fill ratio in [0.9, 1.0] puts the filled size between 90% and 100% of the order. */
  lemma FillWithinOrder(size: real, ratio: real)
    requires 0.9 <= ratio <= 1.0
    ensures size >= 0.0 ==> 0.9 * size <= size * ratio <= size
    ensures size <= 0.0 ==> size <= size * ratio <= size * 0.9
  {
    MulBetween(size, 0.9, ratio, 1.0);
  }

  /** The simulated broker: fills 90-100% of the order at 100 within 1% slippage. */
  function SimulateTradeExecution(t: TradeDetails, d: FillDraw): (r: ExecutionResult)
    requires ValidDraw(d)
    ensures r.asset == t.asset && r.side == t.side && r.status == Filled
    ensures r.orderedSize == t.size && r.orderedPrice == 100.0
    ensures 99.0 <= r.averageFillPrice <= 101.0
    ensures t.size >= 0.0 ==> 0.9 * t.size <= r.filledSize <= r.orderedSize
    ensures t.size <= 0.0 ==> r.orderedSize <= r.filledSize <= t.size * 0.9
  {
    FillWithinOrder(t.size, d.fillRatio);
    MulBetween(ReferencePrice, 0.99, d.priceFactor, 1.01);
    ExecutionResult(
      t.asset, t.side, t.size, t.size * d.fillRatio,
      ReferencePrice, ReferencePrice * d.priceFactor, Filled)
  }

  /** The externally visible steps of one trade: the broker call and the save. */
  datatype Effect = Simulated(details: TradeDetails) | Saved(result: ExecutionResult)

  /**
   * The handler of one trade signal. A zero prediction returns before any
   * broker call; otherwise the order is simulated once and its result saved once.
   */
  method ExecuteTrade(signal: TradeSignal, d: FillDraw) returns (effects: seq<Effect>)
    requires ValidDraw(d)
    ensures signal.prediction == 0.0 <==> effects == []
    ensures signal.prediction != 0.0 ==>
      && |effects| == 2
      && effects[0].Simulated?
      && effects[1] == Saved(SimulateTradeExecution(effects[0].details, d))
    ensures signal.prediction != 0.0 ==>
      var t := effects[0].details;
      && t.asset == signal.asset
      && t.prediction == signal.prediction
      && t.confidence == signal.confidence
      && t.size == signal.positionSize * 1000.0
      && (t.side == Buy <==> signal.prediction > 0.0)
      && t.side == TradeSide(signal.prediction).value
  {
    var side := TradeSide(signal.prediction);
    if side.None? {
      return [];
    }
    var size := OrderSize(signal.positionSize);
    var details := TradeDetails(signal.asset, side.value, size, signal.prediction, signal.confidence);
    effects := [Simulated(details)];
    var result := SimulateTradeExecution(details, d);
    effects := effects + [Saved(result)];
  }
}
