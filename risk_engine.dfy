/**
 * The risk engine: scores each incoming forecast, decides approval, turns an
 * approved assessment into a trade signal, and now and then adapts the risk
 * factor. The random volatility estimate, the random performance indicator and
 * the random "adjust now" draw are inputs; database and bus calls are
 * succeed/fail inputs.
 */
module Risk {
  import opened Common
  import opened Messages
  import opened DecimalText

  // ---------------------------------------------------------------------------
  // Strategy parameters and their keys in the configuration table

  datatype StrategyParams = StrategyParams(
    riskFactor: real,
    positionSizeLimit: real,
    confidenceThreshold: real,
    maxDrawdownLimit: real,
    volatilityMultiplier: real)

  /** The built-in values the engine starts from before any row is loaded. */
  const DefaultParams := StrategyParams(1.0, 0.1, 0.7, 0.05, 1.0)

  const RiskFactorKey := "risk_factor"
  const PositionSizeLimitKey := "position_size_limit"
  const ConfidenceThresholdKey := "confidence_threshold"
  const MaxDrawdownLimitKey := "max_drawdown_limit"
  const VolatilityMultiplierKey := "volatility_multiplier"

  predicate IsParamKey(key: string)
  {
    || key == RiskFactorKey
    || key == PositionSizeLimitKey
    || key == ConfidenceThresholdKey
    || key == MaxDrawdownLimitKey
    || key == VolatilityMultiplierKey
  }

  function FieldOf(p: StrategyParams, key: string): real
    requires IsParamKey(key)
  {
    if key == RiskFactorKey then p.riskFactor
    else if key == PositionSizeLimitKey then p.positionSizeLimit
    else if key == ConfidenceThresholdKey then p.confidenceThreshold
    else if key == MaxDrawdownLimitKey then p.maxDrawdownLimit
    else p.volatilityMultiplier
  }

  /** The parameters with the field named by key replaced. */
  function WithField(p: StrategyParams, key: string, v: real): (q: StrategyParams)
    requires IsParamKey(key)
    ensures FieldOf(q, key) == v
    ensures forall k :: IsParamKey(k) && k != key ==> FieldOf(q, k) == FieldOf(p, k)
  {
    if key == RiskFactorKey then p.(riskFactor := v)
    else if key == PositionSizeLimitKey then p.(positionSizeLimit := v)
    else if key == ConfidenceThresholdKey then p.(confidenceThreshold := v)
    else if key == MaxDrawdownLimitKey then p.(maxDrawdownLimit := v)
    else p.(volatilityMultiplier := v)
  }

  // ---------------------------------------------------------------------------
  // Loading the configuration rows

  /** One row of the load loop: None when a recognised key has a non-numeric value. */
  function ApplyRow(p: StrategyParams, row: (string, string)): (r: Option<StrategyParams>)
    ensures r.None? <==> IsParamKey(row.0) && ParseDecimal(row.1).None?
    ensures !IsParamKey(row.0) ==> r == Some(p)
    ensures r.Some? && IsParamKey(row.0) ==>
      && FieldOf(r.value, row.0) == ParseDecimal(row.1).value
      && forall k :: IsParamKey(k) && k != row.0 ==> FieldOf(r.value, k) == FieldOf(p, k)
  {
    if !IsParamKey(row.0) then Some(p)
    else match ParseDecimal(row.1)
      case None => None
      case Some(v) => Some(WithField(p, row.0, v))
  }

  /** The parameters after the load, and whether it finished without an error. */
  datatype LoadResult = LoadResult(params: StrategyParams, ok: bool)

  /**
   * The load loop over the fetched rows. It stops at the first recognised key
   * whose value is not numeric; rows already applied stay applied.
   */
  function Load(p: StrategyParams, rows: seq<(string, string)>): (r: LoadResult)
    ensures r.ok ==> forall i :: 0 <= i < |rows| ==> RowNumeric(rows[i])
    decreases |rows|
  {
    if rows == [] then LoadResult(p, true)
    else match ApplyRow(p, rows[0])
      case None => LoadResult(p, false)
      case Some(q) =>
        assert forall i :: 1 <= i < |rows| ==> rows[i] == rows[1..][i - 1];
        Load(q, rows[1..])
  }

  predicate RowNumeric(row: (string, string))
  {
    IsParamKey(row.0) ==> ParseDecimal(row.1).Some?
  }

  /**
   * load_strategy_config as a whole: opening the cursor, running the query and
   * fetching either deliver the rows or fail (None), and a failure applies nothing.
   */
  function FetchAndLoad(p: StrategyParams, fetched: Option<seq<(string, string)>>): (r: LoadResult)
    ensures fetched.None? ==> r == LoadResult(p, false)
    ensures r.ok ==> fetched.Some? && forall i :: 0 <= i < |fetched.value| ==> RowNumeric(fetched.value[i])
  {
    match fetched
    case None => LoadResult(p, false)
    case Some(rows) => Load(p, rows)
  }

  /** Rows whose keys are not parameter names change nothing. */
  lemma {:induction false} LoadIgnoresUnknownKeys(p: StrategyParams, rows: seq<(string, string)>)
    requires forall i :: 0 <= i < |rows| ==> !IsParamKey(rows[i].0)
    ensures Load(p, rows) == LoadResult(p, true)
    decreases |rows|
  {
    if rows != [] {
      LoadIgnoresUnknownKeys(p, rows[1..]);
    }
  }

  /** A parameter that no row names keeps its value (the built-in default on startup). */
  lemma {:induction false} LoadKeepsUnnamedField(p: StrategyParams, rows: seq<(string, string)>, key: string)
    requires IsParamKey(key)
    requires forall i :: 0 <= i < |rows| ==> rows[i].0 != key
    ensures FieldOf(Load(p, rows).params, key) == FieldOf(p, key)
    decreases |rows|
  {
    if rows != [] {
      match ApplyRow(p, rows[0])
      case None =>
      case Some(q) =>
        LoadKeepsUnnamedField(q, rows[1..], key);
    }
  }

  /** The load succeeds exactly when every row with a parameter key holds a numeric value. */
  lemma {:induction false} LoadOkIffAllNumeric(p: StrategyParams, rows: seq<(string, string)>)
    ensures Load(p, rows).ok <==> forall i :: 0 <= i < |rows| ==> RowNumeric(rows[i])
    decreases |rows|
  {
    if rows != [] {
      match ApplyRow(p, rows[0])
      case None =>
      case Some(q) =>
        LoadOkIffAllNumeric(q, rows[1..]);
        assert forall i :: 1 <= i < |rows| ==> rows[i] == rows[1..][i - 1];
    }
  }

  /** On a successful load, the last row naming a parameter decides its value. */
  lemma {:induction false} LoadLastRowWins(p: StrategyParams, rows: seq<(string, string)>, j: nat)
    requires Load(p, rows).ok
    requires j < |rows| && IsParamKey(rows[j].0)
    requires forall i :: j < i < |rows| ==> rows[i].0 != rows[j].0
    ensures ParseDecimal(rows[j].1).Some?
    ensures FieldOf(Load(p, rows).params, rows[j].0) == ParseDecimal(rows[j].1).value
    decreases |rows|
  {
    match ApplyRow(p, rows[0])
    case None =>
    case Some(q) =>
      if j == 0 {
        LoadKeepsUnnamedField(q, rows[1..], rows[0].0);
      } else {
        assert rows[1..][j - 1] == rows[j];
        LoadLastRowWins(q, rows[1..], j - 1);
      }
  }

  /**
   * The first non-numeric value of a parameter stops the load with an error,
   * and the parameters set by the rows before it stay set (no rollback).
   */
  lemma {:induction false} LoadStopsAtFirstNonNumeric(p: StrategyParams, rows: seq<(string, string)>, j: nat)
    requires j < |rows| && !RowNumeric(rows[j])
    requires forall i :: 0 <= i < j ==> RowNumeric(rows[i])
    ensures Load(p, rows) == LoadResult(Load(p, rows[..j]).params, false)
    decreases |rows|
  {
    if j > 0 {
      assert RowNumeric(rows[0]);
      var q := ApplyRow(p, rows[0]).value;
      assert rows[..j][1..] == rows[1..][..j - 1];
      forall i | 0 <= i < j - 1 ensures RowNumeric(rows[1..][i]) {
        assert rows[1..][i] == rows[i + 1];
      }
      assert rows[1..][j - 1] == rows[j];
      LoadStopsAtFirstNonNumeric(q, rows[1..], j - 1);
    }
  }

  // ---------------------------------------------------------------------------
  // Scoring a forecast

  /** Why an assessment was marked down, and its final verdict. */
  datatype Reason =
    | LowConfidence(confidence: real, threshold: real)
    | LargePredictionMagnitude(magnitude: real)
    | PositionSizeExceedsLimit(size: real, limit: real)
    | HighVolatility(volatility: real)
    | AssessmentPassed
    | AssessmentFailed

  datatype RiskAssessment = RiskAssessment(
    asset: string,
    horizon: string,
    prediction: real,
    confidence: real,
    approved: bool,
    riskScore: real,
    positionSize: real,
    reasons: seq<Reason>)

  /** Evaluation divides by the position-size limit, which raises when it is zero. */
  datatype RiskError = DivisionByZero

  const ConfidenceWeight := 0.3
  const MagnitudeWeight := 0.2
  const PositionWeight := 0.3
  const VolatilityWeight := 0.2
  const MagnitudeCap := 0.1
  const VolatilityCap := 0.03
  const ApprovalScore := 0.5

  /** Each check either records a reason or contributes its weighted term, never both. */
  datatype Check = Flagged(reason: Reason) | Scored(term: real)

  function ConfidenceCheck(p: StrategyParams, confidence: real): Check
  {
    if confidence < p.confidenceThreshold then Flagged(LowConfidence(confidence, p.confidenceThreshold))
    else Scored(confidence * ConfidenceWeight)
  }

  function MagnitudeCheck(prediction: real): Check
  {
    var m := Abs(prediction);
    if m > MagnitudeCap then Flagged(LargePredictionMagnitude(m))
    else Scored((1.0 - m) * MagnitudeWeight)
  }

  function PositionSizeCheck(p: StrategyParams, size: real): Check
    requires p.positionSizeLimit != 0.0
  {
    if size > p.positionSizeLimit then Flagged(PositionSizeExceedsLimit(size, p.positionSizeLimit))
    else Scored((1.0 - size / p.positionSizeLimit) * PositionWeight)
  }

  function VolatilityCheck(volatility: real): Check
  {
    if volatility > VolatilityCap then Flagged(HighVolatility(volatility))
    else Scored((1.0 - volatility / VolatilityCap) * VolatilityWeight)
  }

  function Contribution(c: Check): real
  {
    if c.Scored? then c.term else 0.0
  }

  function Flag(c: Check): seq<Reason>
  {
    if c.Flagged? then [c.reason] else []
  }

  /** The magnitude scaled by the risk factor, capped at the limit. */
  function RawPositionSize(p: StrategyParams, prediction: real): real
  {
    Min(Abs(prediction) * p.riskFactor, p.positionSizeLimit)
  }

  /** The raw size reduced in proportion to volatility times its multiplier. */
  function AdjustedPositionSize(p: StrategyParams, prediction: real, volatility: real): real
  {
    RawPositionSize(p, prediction) * (1.0 - volatility * p.volatilityMultiplier)
  }

  function ConfidenceOf(p: StrategyParams, f: Forecast): Check { ConfidenceCheck(p, f.confidence) }
  function MagnitudeOf(f: Forecast): Check { MagnitudeCheck(f.prediction) }
  function PositionOf(p: StrategyParams, f: Forecast): Check
    requires p.positionSizeLimit != 0.0
  {
    PositionSizeCheck(p, RawPositionSize(p, f.prediction))
  }

  /** The accumulated score before it is capped at 1.0. */
  function RawScore(p: StrategyParams, f: Forecast, volatility: real): real
    requires p.positionSizeLimit != 0.0
  {
    Contribution(ConfidenceOf(p, f)) + Contribution(MagnitudeOf(f))
    + Contribution(PositionOf(p, f)) + Contribution(VolatilityCheck(volatility))
  }

  /** The three-part approval rule, on the uncapped score. */
  predicate Approves(p: StrategyParams, f: Forecast, volatility: real)
    requires p.positionSizeLimit != 0.0
  {
    && f.confidence >= p.confidenceThreshold
    && AdjustedPositionSize(p, f.prediction, volatility) <= p.positionSizeLimit
    && RawScore(p, f, volatility) >= ApprovalScore
  }

  /** The assessment of one forecast under one parameter snapshot and one volatility sample. */
  function EvaluateForecastRisk(p: StrategyParams, f: Forecast, volatility: real): (r: Result<RiskAssessment, RiskError>)
    ensures r.Err? <==> p.positionSizeLimit == 0.0
    ensures r.Ok? ==> r.value.asset == f.asset && r.value.horizon == f.horizon
                      && r.value.prediction == f.prediction && r.value.confidence == f.confidence
  {
    if p.positionSizeLimit == 0.0 then Err(DivisionByZero)
    else
      var approved := Approves(p, f, volatility);
      Ok(RiskAssessment(
        f.asset, f.horizon, f.prediction, f.confidence,
        approved,
        Min(RawScore(p, f, volatility), 1.0),
        Max(0.0, AdjustedPositionSize(p, f.prediction, volatility)),
        Flag(ConfidenceOf(p, f)) + Flag(MagnitudeOf(f)) + Flag(PositionOf(p, f))
        + Flag(VolatilityCheck(volatility))
        + [if approved then AssessmentPassed else AssessmentFailed]))
  }

  /** The capped raw size never exceeds the limit, so its check always scores. */
  lemma PositionCheckAlwaysScores(p: StrategyParams, f: Forecast)
    requires p.positionSizeLimit != 0.0
    ensures RawPositionSize(p, f.prediction) <= p.positionSizeLimit
    ensures PositionOf(p, f).Scored?
  {
  }

  /**
   * The reasons, in order: low confidence, large magnitude and high volatility
   * exactly when their tests hold, never "position size exceeds limit", and
   * last a single verdict that agrees with the approval.
   */
  lemma ReasonsInOrder(p: StrategyParams, f: Forecast, volatility: real)
    requires p.positionSizeLimit != 0.0
    ensures var a := EvaluateForecastRisk(p, f, volatility).value;
      a.reasons ==
        (if f.confidence < p.confidenceThreshold then [LowConfidence(f.confidence, p.confidenceThreshold)] else [])
        + (if Abs(f.prediction) > MagnitudeCap then [LargePredictionMagnitude(Abs(f.prediction))] else [])
        + (if volatility > VolatilityCap then [HighVolatility(volatility)] else [])
        + [if a.approved then AssessmentPassed else AssessmentFailed]
    ensures var a := EvaluateForecastRisk(p, f, volatility).value;
      && (forall i :: 0 <= i < |a.reasons| ==> !a.reasons[i].PositionSizeExceedsLimit?)
      && (forall i :: 0 <= i < |a.reasons| - 1 ==> !a.reasons[i].AssessmentPassed? && !a.reasons[i].AssessmentFailed?)
  {
    PositionCheckAlwaysScores(p, f);
  }

  /** The weighted score, term by term: a flagged check adds nothing. */
  lemma ScoreTerms(p: StrategyParams, f: Forecast, volatility: real)
    requires p.positionSizeLimit != 0.0
    ensures RawScore(p, f, volatility) ==
      (if f.confidence < p.confidenceThreshold then 0.0 else f.confidence * 0.3)
      + (if Abs(f.prediction) > 0.1 then 0.0 else (1.0 - Abs(f.prediction)) * 0.2)
      + (1.0 - RawPositionSize(p, f.prediction) / p.positionSizeLimit) * 0.3
      + (if volatility > 0.03 then 0.0 else (1.0 - volatility / 0.03) * 0.2)
  {
    PositionCheckAlwaysScores(p, f);
  }

  /** The stored score never exceeds 1.0 and the stored size is never negative. */
  lemma StoredBounds(p: StrategyParams, f: Forecast, volatility: real)
    requires p.positionSizeLimit != 0.0
    ensures EvaluateForecastRisk(p, f, volatility).value.riskScore <= 1.0
    ensures EvaluateForecastRisk(p, f, volatility).value.positionSize >= 0.0
  {
  }

  /** With a positive limit and a non-negative confidence no term is negative, so the score is at least 0. */
  lemma ScoreNonNegative(p: StrategyParams, f: Forecast, volatility: real)
    requires p.positionSizeLimit > 0.0 && f.confidence >= 0.0
    ensures RawScore(p, f, volatility) >= 0.0
    ensures 0.0 <= EvaluateForecastRisk(p, f, volatility).value.riskScore <= 1.0
  {
    var raw := RawPositionSize(p, f.prediction);
    var limit := p.positionSizeLimit;
    assert raw <= limit;
    assert raw / limit <= 1.0 by {
      assert raw / limit * limit == raw;
    }
    ScoreTerms(p, f, volatility);
  }

  /**
   * For inputs in their nominal ranges (confidence at most 1, non-negative
   * risk factor and volatility, positive limit) every term is at most its
   * weight, so the cap at 1.0 changes nothing.
   */
  lemma NominalScoreNeedsNoCap(p: StrategyParams, f: Forecast, volatility: real)
    requires f.confidence <= 1.0 && p.riskFactor >= 0.0 && p.positionSizeLimit > 0.0 && volatility >= 0.0
    ensures RawScore(p, f, volatility) <= 1.0
    ensures EvaluateForecastRisk(p, f, volatility).value.riskScore == RawScore(p, f, volatility)
  {
    var raw := RawPositionSize(p, f.prediction);
    var limit := p.positionSizeLimit;
    var m := Abs(f.prediction);
    assert m >= 0.0;
    assert m * p.riskFactor >= 0.0 by {
      if m > 0.0 && p.riskFactor > 0.0 { assert m * p.riskFactor > 0.0; }
    }
    assert raw >= 0.0;
    assert raw / limit >= 0.0;
    ScoreTerms(p, f, volatility);
  }

  /** The weights sum to 1.0: a certain, flat, calm forecast scores exactly 1.0. */
  lemma PerfectForecastScoresOne(p: StrategyParams, asset: string, horizon: string)
    requires p.confidenceThreshold <= 1.0 && p.positionSizeLimit > 0.0
    ensures EvaluateForecastRisk(p, Forecast(asset, horizon, 0.0, 1.0), 0.0).value.riskScore == 1.0
  {
    ScoreTerms(p, Forecast(asset, horizon, 0.0, 1.0), 0.0);
  }

  /**
   * Approval holds exactly when the confidence reaches the threshold, the
   * adjusted size is within the limit and the score reaches 0.5; it makes no
   * difference whether the capped or the uncapped score is compared.
   */
  lemma ApprovalRule(p: StrategyParams, f: Forecast, volatility: real)
    requires p.positionSizeLimit != 0.0
    ensures var a := EvaluateForecastRisk(p, f, volatility).value;
      a.approved <==>
        && f.confidence >= p.confidenceThreshold
        && AdjustedPositionSize(p, f.prediction, volatility) <= p.positionSizeLimit
        && a.riskScore >= 0.5
    ensures var a := EvaluateForecastRisk(p, f, volatility).value;
      a.approved <==>
        && f.confidence >= p.confidenceThreshold
        && AdjustedPositionSize(p, f.prediction, volatility) <= p.positionSizeLimit
        && RawScore(p, f, volatility) >= 0.5
  {
  }

  /**
   * With a non-negative risk factor, a positive limit and a non-negative
   * volatility-times-multiplier, the size part of the approval rule always holds,
   * and the stored size of an approved assessment lies within the limit.
   */
  lemma SizeConjunctHolds(p: StrategyParams, f: Forecast, volatility: real)
    requires p.riskFactor >= 0.0 && p.positionSizeLimit > 0.0
    requires volatility * p.volatilityMultiplier >= 0.0
    ensures 0.0 <= AdjustedPositionSize(p, f.prediction, volatility) || volatility * p.volatilityMultiplier > 1.0
    ensures AdjustedPositionSize(p, f.prediction, volatility) <= p.positionSizeLimit
    ensures 0.0 <= EvaluateForecastRisk(p, f, volatility).value.positionSize <= p.positionSizeLimit
  {
    var raw := RawPositionSize(p, f.prediction);
    var k := 1.0 - volatility * p.volatilityMultiplier;
    assert 0.0 <= raw <= p.positionSizeLimit;
    assert k <= 1.0;
    assert raw * k <= raw by {
      assert raw * k == raw - raw * (volatility * p.volatilityMultiplier);
      assert raw * (volatility * p.volatilityMultiplier) >= 0.0;
    }
    assert k >= 0.0 ==> raw * k >= 0.0;
  }

  /** The premise on the risk factor is needed: a negative factor can push the size past the limit. */
  lemma SizeConjunctCanFailWithNegativeRiskFactor()
    ensures var p := DefaultParams.(riskFactor := -1.0, volatilityMultiplier := 100.0);
      && AdjustedPositionSize(p, 1.0, 0.02) == 1.0
      && AdjustedPositionSize(p, 1.0, 0.02) > p.positionSizeLimit
  {
  }

  /** Confidence below the threshold always rejects, whatever the other checks say. */
  lemma LowConfidenceRejects(p: StrategyParams, f: Forecast, volatility: real)
    requires p.positionSizeLimit != 0.0 && f.confidence < p.confidenceThreshold
    ensures var a := EvaluateForecastRisk(p, f, volatility).value;
      && !a.approved
      && a.reasons[0] == LowConfidence(f.confidence, p.confidenceThreshold)
      && a.reasons[|a.reasons| - 1] == AssessmentFailed
      && Contribution(ConfidenceOf(p, f)) == 0.0
  {
  }

  /** The approval example with default parameters: score 0.27 + 0.196 + 0.24 + 2/15. */
  lemma ApprovalExample()
    ensures var f := Forecast("BTCUSD", "1h", 0.02, 0.9);
      var a := EvaluateForecastRisk(DefaultParams, f, 0.01).value;
      && RawPositionSize(DefaultParams, 0.02) == 0.02
      && AdjustedPositionSize(DefaultParams, 0.02, 0.01) == 0.0198
      && a.riskScore == 0.27 + 0.196 + 0.24 + 2.0 / 15.0
      && a.positionSize == 0.0198
      && a.approved
      && a.reasons == [AssessmentPassed]
  {
    var f := Forecast("BTCUSD", "1h", 0.02, 0.9);
    ScoreTerms(DefaultParams, f, 0.01);
  }

  /** The rejection example: same parameters, confidence 0.5. */
  lemma LowConfidenceExample()
    ensures var f := Forecast("BTCUSD", "1h", 0.02, 0.5);
      var a := EvaluateForecastRisk(DefaultParams, f, 0.01).value;
      && !a.approved
      && a.reasons == [LowConfidence(0.5, 0.7), AssessmentFailed]
  {
  }

  // ---------------------------------------------------------------------------
  // Adaptive adjustment of the risk factor

  const LowWatermark := 0.3
  const HighWatermark := 0.7
  const MinRiskFactor := 0.1
  const MaxRiskFactor := 2.0

  /** The new risk factor for one performance reading: shrink by 10% or grow by 10%, clamped. */
  function AdjustedRiskFactor(rf: real, performance: real): (r: real)
    ensures performance < LowWatermark ==> MinRiskFactor <= r && (rf >= MinRiskFactor ==> r <= rf)
    ensures performance > HighWatermark ==> r <= MaxRiskFactor && (0.0 <= rf <= MaxRiskFactor ==> rf <= r)
    ensures LowWatermark <= performance <= HighWatermark ==> r == rf
    ensures MinRiskFactor <= rf <= MaxRiskFactor ==> MinRiskFactor <= r <= MaxRiskFactor
  {
    if performance < LowWatermark then Max(MinRiskFactor, rf * 0.9)
    else if performance > HighWatermark then Min(MaxRiskFactor, rf * 1.1)
    else rf
  }

  /**
   * The risk factor after an adjustment attempt, the value persisted to the
   * configuration table (if any) and whether the attempt succeeded.
   */
  datatype AdjustResult = AdjustResult(riskFactor: real, persisted: Option<real>, ok: bool)

  /**
   * writeOk: the cursor opens and, when a change is due, the upsert runs.
   * commitOk: the commit succeeds. A failed commit is rolled back in the table
   * but the in-memory factor keeps its new value.
   */
  function Adjust(rf: real, performance: real, writeOk: bool, commitOk: bool): (r: AdjustResult)
    ensures r.ok <==> writeOk && commitOk
    ensures r.riskFactor == if writeOk then AdjustedRiskFactor(rf, performance) else rf
  {
    var due := performance < LowWatermark || performance > HighWatermark;
    if !writeOk then AdjustResult(rf, None, false)
    else if due then
      var r := AdjustedRiskFactor(rf, performance);
      AdjustResult(r, if commitOk then Some(r) else None, commitOk)
    else AdjustResult(rf, None, commitOk)
  }

  /** The adjustment keeps the risk factor in [0.1, 2.0], whatever the indicator and the outcomes. */
  lemma AdjustKeepsRange(rf: real, performance: real, writeOk: bool, commitOk: bool)
    requires MinRiskFactor <= rf <= MaxRiskFactor
    ensures MinRiskFactor <= Adjust(rf, performance, writeOk, commitOk).riskFactor <= MaxRiskFactor
  {
  }

  /**
   * What the table receives is what the engine holds, and only when the
   * attempt succeeded; a failed upsert leaves the factor as it was, a failed
   * commit does not.
   */
  lemma AdjustPersistence(rf: real, performance: real, writeOk: bool, commitOk: bool)
    ensures var a := Adjust(rf, performance, writeOk, commitOk);
      && (a.persisted.Some? ==> a.ok && a.persisted.value == a.riskFactor)
      && (!writeOk ==> a.riskFactor == rf && !a.ok)
      && (a.riskFactor != rf ==> writeOk && (performance < LowWatermark || performance > HighWatermark))
  {
  }

  // ---------------------------------------------------------------------------
  // Handling one forecast message

  /** The trade signal built from an approved assessment. */
  function SignalOf(a: RiskAssessment): (s: TradeSignal)
    ensures s.asset == a.asset && s.horizon == a.horizon && s.prediction == a.prediction
    ensures s.positionSize == a.positionSize && s.confidence == a.confidence && s.riskScore == a.riskScore
  {
    TradeSignal(a.asset, a.horizon, a.prediction, a.positionSize, a.confidence, a.riskScore)
  }

  /** The random draws and the outcomes of the external calls during one message. */
  datatype UpdateInputs = UpdateInputs(
    volatility: real,
    publishOk: bool,
    adjustDue: bool,
    performance: real,
    writeOk: bool,
    commitOk: bool,
    storeRows: Option<seq<(string, string)>>)

  /** The assessment, the signal handed to the bus (if any), the new parameters and success. */
  datatype HandleOutcome = HandleOutcome(
    assessment: Result<RiskAssessment, RiskError>,
    signal: Option<TradeSignal>,
    params: StrategyParams,
    ok: bool)

  /**
   * Evaluate, publish when approved, then with the adjust draw adjust and
   * reload. Any failure ends the handling at that point.
   */
  function HandleForecastUpdateSpec(p: StrategyParams, f: Forecast, inputs: UpdateInputs): (h: HandleOutcome)
    ensures h.signal.Some? ==> h.assessment.Ok? && h.assessment.value.approved
    ensures h.ok ==> h.assessment.Ok? && (h.signal.Some? ==> inputs.publishOk)
    ensures h.ok && inputs.adjustDue ==> inputs.writeOk && inputs.commitOk && inputs.storeRows.Some?
  {
    match EvaluateForecastRisk(p, f, inputs.volatility)
    case Err(e) => HandleOutcome(Err(e), None, p, false)
    case Ok(a) =>
      var signal := if a.approved then Some(SignalOf(a)) else None;
      if a.approved && !inputs.publishOk then HandleOutcome(Ok(a), signal, p, false)
      else if !inputs.adjustDue then HandleOutcome(Ok(a), signal, p, true)
      else
        var adj := Adjust(p.riskFactor, inputs.performance, inputs.writeOk, inputs.commitOk);
        var adjusted := p.(riskFactor := adj.riskFactor);
        if !adj.ok then HandleOutcome(Ok(a), signal, adjusted, false)
        else
          var loaded := FetchAndLoad(adjusted, inputs.storeRows);
          HandleOutcome(Ok(a), signal, loaded.params, loaded.ok)
  }

  /** A signal goes out exactly for an approved assessment, and it carries the assessment's fields. */
  lemma SignalIffApproved(p: StrategyParams, f: Forecast, inputs: UpdateInputs)
    ensures var h := HandleForecastUpdateSpec(p, f, inputs);
      && (h.signal.Some? <==> h.assessment.Ok? && h.assessment.value.approved)
      && (h.signal.Some? ==>
            var s := h.signal.value;
            var a := h.assessment.value;
            && s.asset == a.asset && s.horizon == a.horizon && s.prediction == a.prediction
            && s.positionSize == a.positionSize && s.confidence == a.confidence
            && s.riskScore == a.riskScore)
  {
  }

  /** Without the adjust draw the cached parameters do not change. */
  lemma ParamsChangeOnlyOnAdjust(p: StrategyParams, f: Forecast, inputs: UpdateInputs)
    ensures var h := HandleForecastUpdateSpec(p, f, inputs);
      && (!inputs.adjustDue ==> h.params == p)
      && (h.assessment.Err? ==> h.params == p && !h.ok && h.signal.None?)
  {
  }

  /** A completed adjustment is followed by a reload of every row from the table. */
  lemma AdjustThenReload(p: StrategyParams, f: Forecast, inputs: UpdateInputs)
    requires p.positionSizeLimit != 0.0
    requires inputs.adjustDue && inputs.publishOk
    requires Adjust(p.riskFactor, inputs.performance, inputs.writeOk, inputs.commitOk).ok
    ensures var h := HandleForecastUpdateSpec(p, f, inputs);
      var rf := Adjust(p.riskFactor, inputs.performance, inputs.writeOk, inputs.commitOk).riskFactor;
      h.params == FetchAndLoad(p.(riskFactor := rf), inputs.storeRows).params
  {
  }

  /**
   * The reload reads back the risk factor just written: when the fetched rows
   * are all numeric and the last risk-factor row holds text that reads as the
   * new factor, the handler succeeds and ends with that factor.
   */
  lemma ReloadReadsBackRiskFactor(p: StrategyParams, f: Forecast, inputs: UpdateInputs, j: nat)
    requires p.positionSizeLimit != 0.0
    requires inputs.adjustDue && inputs.publishOk
    requires Adjust(p.riskFactor, inputs.performance, inputs.writeOk, inputs.commitOk).ok
    requires inputs.storeRows.Some?
    requires forall i :: 0 <= i < |inputs.storeRows.value| ==> RowNumeric(inputs.storeRows.value[i])
    requires j < |inputs.storeRows.value| && inputs.storeRows.value[j].0 == RiskFactorKey
    requires forall i :: j < i < |inputs.storeRows.value| ==> inputs.storeRows.value[i].0 != RiskFactorKey
    requires ParseDecimal(inputs.storeRows.value[j].1)
             == Some(Adjust(p.riskFactor, inputs.performance, inputs.writeOk, inputs.commitOk).riskFactor)
    ensures var h := HandleForecastUpdateSpec(p, f, inputs);
      h.ok && h.params.riskFactor == Adjust(p.riskFactor, inputs.performance, inputs.writeOk, inputs.commitOk).riskFactor
  {
    var rows := inputs.storeRows.value;
    var q := p.(riskFactor := Adjust(p.riskFactor, inputs.performance, inputs.writeOk, inputs.commitOk).riskFactor);
    AdjustThenReload(p, f, inputs);
    LoadOkIffAllNumeric(q, rows);
    LoadLastRowWins(q, rows, j);
  }

  // ---------------------------------------------------------------------------
  // The engine object

  class RiskEngine {
    var riskFactor: real
    var positionSizeLimit: real
    var confidenceThreshold: real
    var maxDrawdownLimit: real
    var volatilityMultiplier: real

    function Params(): StrategyParams
      reads this
    {
      StrategyParams(riskFactor, positionSizeLimit, confidenceThreshold, maxDrawdownLimit, volatilityMultiplier)
    }

    /** The built-in defaults, before the startup load. */
    constructor ()
      ensures Params() == DefaultParams
    {
      riskFactor := 1.0;
      positionSizeLimit := 0.1;
      confidenceThreshold := 0.7;
      maxDrawdownLimit := 0.05;
      volatilityMultiplier := 1.0;
    }

    /**
     * RiskEngine(): the built-in defaults, then the startup load. A failed load
     * raises out of the constructor, so no engine results.
     */
    static method Start(fetched: Option<seq<(string, string)>>) returns (engine: Option<RiskEngine>)
      ensures engine.Some? <==> FetchAndLoad(DefaultParams, fetched).ok
      ensures engine.Some? ==> fresh(engine.value) && engine.value.Params() == FetchAndLoad(DefaultParams, fetched).params
    {
      var e := new RiskEngine();
      var ok := e.LoadStrategyConfig(fetched);
      engine := if ok then Some(e) else None;
    }

    /** load_strategy_config: a failed fetch changes nothing; otherwise the rows are applied. */
    method LoadStrategyConfig(fetched: Option<seq<(string, string)>>) returns (ok: bool)
      modifies this
      ensures LoadResult(Params(), ok) == FetchAndLoad(old(Params()), fetched)
    {
      if fetched.None? {
        return false;
      }
      ok := ApplyRows(fetched.value);
    }

    /** Fold the fetched rows into the fields; stop with ok == false at a non-numeric value. */
    method ApplyRows(rows: seq<(string, string)>) returns (ok: bool)
      modifies this
      ensures LoadResult(Params(), ok) == Load(old(Params()), rows)
    {
      ghost var initial := Params();
      var i := 0;
      while i < |rows|
        invariant 0 <= i <= |rows|
        invariant Load(initial, rows) == Load(Params(), rows[i..])
      {
        var key, value := rows[i].0, rows[i].1;
        assert rows[i..][1..] == rows[i + 1..];
        if IsParamKey(key) {
          var parsed := ParseDecimal(value);
          if parsed.None? {
            ok := false;
            return;
          }
          if key == RiskFactorKey {
            riskFactor := parsed.value;
          } else if key == PositionSizeLimitKey {
            positionSizeLimit := parsed.value;
          } else if key == ConfidenceThresholdKey {
            confidenceThreshold := parsed.value;
          } else if key == MaxDrawdownLimitKey {
            maxDrawdownLimit := parsed.value;
          } else {
            volatilityMultiplier := parsed.value;
          }
        }
        i := i + 1;
      }
      ok := true;
    }

    /** One adaptation step of the risk factor; no other field is touched. */
    method AdjustStrategyParameters(performance: real, writeOk: bool, commitOk: bool)
      returns (ok: bool, persisted: Option<real>)
      modifies this`riskFactor
      ensures AdjustResult(riskFactor, persisted, ok) == Adjust(old(riskFactor), performance, writeOk, commitOk)
      ensures MinRiskFactor <= old(riskFactor) <= MaxRiskFactor ==> MinRiskFactor <= riskFactor <= MaxRiskFactor
    {
      persisted := None;
      if !writeOk {
        ok := false;
        return;
      }
      if performance < LowWatermark {
        riskFactor := Max(MinRiskFactor, riskFactor * 0.9);
      } else if performance > HighWatermark {
        riskFactor := Min(MaxRiskFactor, riskFactor * 1.1);
      }
      ok := commitOk;
      if ok && (performance < LowWatermark || performance > HighWatermark) {
        persisted := Some(riskFactor);
      }
    }

    /** The handler of one forecast message. */
    method HandleForecastUpdate(f: Forecast, inputs: UpdateInputs)
      returns (assessment: Result<RiskAssessment, RiskError>, signal: Option<TradeSignal>, ok: bool)
      modifies this
      ensures HandleOutcome(assessment, signal, Params(), ok) == HandleForecastUpdateSpec(old(Params()), f, inputs)
    {
      assessment := EvaluateForecastRisk(Params(), f, inputs.volatility);
      signal := None;
      if assessment.Err? {
        ok := false;
        return;
      }
      if assessment.value.approved {
        signal := Some(SignalOf(assessment.value));
        if !inputs.publishOk {
          ok := false;
          return;
        }
      }
      if inputs.adjustDue {
        var persisted;
        ok, persisted := AdjustStrategyParameters(inputs.performance, inputs.writeOk, inputs.commitOk);
        if !ok {
          return;
        }
        ok := LoadStrategyConfig(inputs.storeRows);
      } else {
        ok := true;
      }
    }
  }
}
