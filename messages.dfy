/**
 * The payloads carried on the two bus topics: forecasts from the forecast
 * engine to the risk engine, and trade signals from the risk engine to the
 * execution engine. Timestamps are not modelled.
 */
module Messages {

  /** A prediction for one asset over one horizon ("1h", "4h", ...). */
  datatype Forecast = Forecast(asset: string, horizon: string, prediction: real, confidence: real)

  /** The approved part of a risk assessment, handed to the execution engine. */
  datatype TradeSignal = TradeSignal(
    asset: string,
    horizon: string,
    prediction: real,
    positionSize: real,
    confidence: real,
    riskScore: real)
}
