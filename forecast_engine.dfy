/**
 * The forecast engine: one shared "trained" flag, lazy training before the
 * first forecast, and a cycle over the tracked assets in which each asset's
 * generate, save and publish steps run in order and a failure only ends that
 * asset's steps. Training, prediction, the database insert and the bus publish
 * are abstract succeed/fail outcomes; the random confidence draw is an input.
 */
module Forecasting {
  import opened Common
  import opened Messages

  /** How a training run ends: before the fit completes, after it, or not at all. */
  datatype TrainOutcome = FailsBeforeFit | FailsAfterFit | Fits

  /** The outcomes of every external step for one asset in one cycle. */
  datatype AssetDraw = AssetDraw(
    train: TrainOutcome,
    prediction: Option<real>,
    confidenceDraw: real,
    saveOk: bool,
    publishOk: bool)

  predicate ValidDraw(d: AssetDraw)
  {
    0.0 <= d.confidenceDraw < 1.0
  }

  predicate ValidDraws(draws: seq<AssetDraw>)
  {
    forall i :: 0 <= i < |draws| ==> ValidDraw(draws[i])
  }

  const DefaultHorizon := "1h"
  /** The assets that run trains up front and then cycles over. */
  const DefaultAssets := ["BTCUSD", "ETHUSD", "SOLUSD"]

  /** The placeholder confidence: 0.7 plus 0.3 times a uniform draw in [0, 1). */
  function Confidence(r: real): (c: real)
    requires 0.0 <= r < 1.0
    ensures 0.7 <= c < 1.0
  {
    0.7 + r * 0.3
  }

  /** The externally visible steps of a cycle, in the order they happen. */
  datatype Event =
    | TrainAttempt(asset: string, outcome: TrainOutcome)
    | Generated(forecast: Forecast)
    | Saved(forecast: Forecast)
    | Published(forecast: Forecast)
    | Failed(asset: string)

  /** The flag after generation, the training attempt made (if any), and the forecast (if any). */
  datatype Generation = Generation(trainedAfter: bool, trainEvents: seq<Event>, forecast: Option<Forecast>)

  /**
   * generate_forecast: train first when the shared flag is off (the flag is set
   * once the fit completes), then predict. A training or prediction failure
   * yields no forecast.
   */
  function Generate(trained: bool, asset: string, horizon: string, d: AssetDraw): (g: Generation)
    requires ValidDraw(d)
    ensures g.forecast.Some? ==>
      && d.prediction.Some?
      && g.forecast.value.asset == asset
      && g.forecast.value.horizon == horizon
      && g.forecast.value.prediction == d.prediction.value
      && 0.7 <= g.forecast.value.confidence < 1.0
  {
    var trainedAfter := trained || d.train != FailsBeforeFit;
    var trainEvents := if trained then [] else [TrainAttempt(asset, d.train)];
    var trainOk := trained || d.train == Fits;
    if !trainOk || d.prediction.None? then Generation(trainedAfter, trainEvents, None)
    else Generation(trainedAfter, trainEvents,
                    Some(Forecast(asset, horizon, d.prediction.value, Confidence(d.confidenceDraw))))
  }

  /**
   * The events that follow generate_forecast: the forecast (if any) is reported
   * as generated, then saved, then published; a failure ends the asset's steps.
   */
  function SaveAndPublishEvents(asset: string, forecast: Option<Forecast>, d: AssetDraw): (r: seq<Event>)
    ensures |r| > 0
    ensures r[|r| - 1] == if forecast.Some? && d.saveOk && d.publishOk then Published(forecast.value) else Failed(asset)
    ensures forall k :: 0 <= k < |r| - 1 ==> r[k].Generated? || r[k].Saved?
  {
    match forecast
    case None => [Failed(asset)]
    case Some(f) =>
      if !d.saveOk then [Generated(f), Failed(asset)]
      else if !d.publishOk then [Generated(f), Saved(f), Failed(asset)]
      else [Generated(f), Saved(f), Published(f)]
  }

  datatype CycleState = CycleState(trained: bool, trace: seq<Event>)

  /** One asset of the cycle: the trace only grows, and the flag is set once a fit completes. */
  function Step(s: CycleState, asset: string, d: AssetDraw): (r: CycleState)
    requires ValidDraw(d)
    ensures r.trained <==> s.trained || d.train != FailsBeforeFit
    ensures |s.trace| < |r.trace| && r.trace[..|s.trace|] == s.trace
  {
    var g := Generate(s.trained, asset, DefaultHorizon, d);
    CycleState(g.trainedAfter, s.trace + g.trainEvents + SaveAndPublishEvents(asset, g.forecast, d))
  }

  /** run_forecast_cycle: every asset in list order, each with its own draw. */
  function Cycle(s: CycleState, assets: seq<string>, draws: seq<AssetDraw>): (r: CycleState)
    requires |assets| == |draws| && ValidDraws(draws)
    ensures s.trained ==> r.trained
    ensures |s.trace| + |assets| <= |r.trace|
    decreases |assets|
  {
    if assets == [] then s
    else Cycle(Step(s, assets[0], draws[0]), assets[1..], draws[1..])
  }

  // ---------------------------------------------------------------------------
  // Properties of the cycle

  /** The assets whose steps ended, in the order they ended: a failure or a publish. */
  function Attempted(trace: seq<Event>): seq<string>
  {
    if trace == [] then []
    else
      var head := if trace[0].Failed? then [trace[0].asset]
                  else if trace[0].Published? then [trace[0].forecast.asset]
                  else [];
      head + Attempted(trace[1..])
  }

  lemma {:induction false} AttemptedAppend(x: seq<Event>, y: seq<Event>)
    ensures Attempted(x + y) == Attempted(x) + Attempted(y)
    decreases |x|
  {
    if x == [] {
      assert x + y == y;
    } else {
      assert (x + y)[0] == x[0];
      assert (x + y)[1..] == x[1..] + y;
      AttemptedAppend(x[1..], y);
    }
  }

  lemma AttemptedSingle(e: Event)
    ensures Attempted([e]) == if e.Failed? then [e.asset] else if e.Published? then [e.forecast.asset] else []
  {
    assert [e][1..] == [];
  }

  /** The steps after generation end exactly once, with the asset's failure or publish. */
  lemma SaveAndPublishEndsOnce(asset: string, forecast: Option<Forecast>, d: AssetDraw)
    requires forecast.Some? ==> forecast.value.asset == asset
    ensures Attempted(SaveAndPublishEvents(asset, forecast, d)) == [asset]
  {
    AttemptedSingle(Failed(asset));
    match forecast
    case None =>
    case Some(f) =>
      AttemptedSingle(Generated(f));
      AttemptedSingle(Saved(f));
      AttemptedSingle(Published(f));
      if !d.saveOk {
        AttemptedAppend([Generated(f)], [Failed(asset)]);
      } else if !d.publishOk {
        AttemptedAppend([Generated(f)], [Saved(f)]);
        AttemptedAppend([Generated(f), Saved(f)], [Failed(asset)]);
      } else {
        AttemptedAppend([Generated(f)], [Saved(f)]);
        AttemptedAppend([Generated(f), Saved(f)], [Published(f)]);
      }
  }

  /** Each asset's steps end exactly once, with that asset's own failure or publish. */
  lemma StepAttemptsAsset(s: CycleState, asset: string, d: AssetDraw)
    requires ValidDraw(d)
    ensures Attempted(Step(s, asset, d).trace) == Attempted(s.trace) + [asset]
  {
    var g := Generate(s.trained, asset, DefaultHorizon, d);
    var after := SaveAndPublishEvents(asset, g.forecast, d);
    assert Attempted(g.trainEvents) == [] by {
      if g.trainEvents != [] {
        AttemptedSingle(g.trainEvents[0]);
        assert g.trainEvents == [g.trainEvents[0]];
      }
    }
    SaveAndPublishEndsOnce(asset, g.forecast, d);
    AttemptedAppend(s.trace + g.trainEvents, after);
    AttemptedAppend(s.trace, g.trainEvents);
  }

  /** Every asset is attempted, in list order: no failure ends the cycle early. */
  lemma {:induction false} CycleAttemptsEveryAsset(s: CycleState, assets: seq<string>, draws: seq<AssetDraw>)
    requires |assets| == |draws| && ValidDraws(draws)
    ensures Attempted(Cycle(s, assets, draws).trace) == Attempted(s.trace) + assets
    decreases |assets|
  {
    if assets != [] {
      StepAttemptsAsset(s, assets[0], draws[0]);
      CycleAttemptsEveryAsset(Step(s, assets[0], draws[0]), assets[1..], draws[1..]);
      assert [assets[0]] + assets[1..] == assets;
    }
  }

  /** A save follows the generation of the same forecast, and a publish follows its save. */
  ghost predicate StepsInOrder(trace: seq<Event>)
  {
    forall k {:trigger trace[k]} :: 0 <= k < |trace| ==>
      && (trace[k].Saved? ==> k > 0 && trace[k - 1] == Generated(trace[k].forecast))
      && (trace[k].Published? ==> k > 0 && trace[k - 1] == Saved(trace[k].forecast))
  }

  lemma StepsInOrderAppend(x: seq<Event>, y: seq<Event>)
    requires StepsInOrder(x) && StepsInOrder(y)
    requires y != [] ==> !y[0].Saved? && !y[0].Published?
    ensures StepsInOrder(x + y)
  {
    var z := x + y;
    forall k | 0 <= k < |z|
      ensures && (z[k].Saved? ==> k > 0 && z[k - 1] == Generated(z[k].forecast))
              && (z[k].Published? ==> k > 0 && z[k - 1] == Saved(z[k].forecast))
    {
      if k >= |x| {
        var j := k - |x|;
        assert z[k] == y[j];
        if j > 0 { assert z[k - 1] == y[j - 1]; }
      } else {
        assert z[k] == x[k];
        if k > 0 { assert z[k - 1] == x[k - 1]; }
      }
    }
  }

  lemma StepKeepsOrder(s: CycleState, asset: string, d: AssetDraw)
    requires ValidDraw(d) && StepsInOrder(s.trace)
    ensures StepsInOrder(Step(s, asset, d).trace)
  {
    var g := Generate(s.trained, asset, DefaultHorizon, d);
    var after := SaveAndPublishEvents(asset, g.forecast, d);
    StepsInOrderAppend(s.trace, g.trainEvents);
    StepsInOrderAppend(s.trace + g.trainEvents, after);
  }

  /** In the whole trace, saving happens only after generation and publishing only after saving. */
  lemma {:induction false} CycleKeepsStepOrder(s: CycleState, assets: seq<string>, draws: seq<AssetDraw>)
    requires |assets| == |draws| && ValidDraws(draws)
    requires StepsInOrder(s.trace)
    ensures StepsInOrder(Cycle(s, assets, draws).trace)
    decreases |assets|
  {
    if assets != [] {
      StepKeepsOrder(s, assets[0], draws[0]);
      CycleKeepsStepOrder(Step(s, assets[0], draws[0]), assets[1..], draws[1..]);
    }
  }

  /** The shared flag is set after the cycle iff it was set before or some training run got past its fit. */
  lemma {:induction false} CycleTrainedFlag(s: CycleState, assets: seq<string>, draws: seq<AssetDraw>)
    requires |assets| == |draws| && ValidDraws(draws)
    ensures Cycle(s, assets, draws).trained
            <==> s.trained || exists j :: 0 <= j < |draws| && draws[j].train != FailsBeforeFit
    decreases |assets|
  {
    if assets != [] {
      var s' := Step(s, assets[0], draws[0]);
      CycleTrainedFlag(s', assets[1..], draws[1..]);
      if exists j :: 0 <= j < |draws| && draws[j].train != FailsBeforeFit {
        var j :| 0 <= j < |draws| && draws[j].train != FailsBeforeFit;
        if j > 0 { assert draws[1..][j - 1] == draws[j]; }
      }
      if exists j :: 0 <= j < |draws[1..]| && draws[1..][j].train != FailsBeforeFit {
        var j :| 0 <= j < |draws[1..]| && draws[1..][j].train != FailsBeforeFit;
        assert draws[j + 1] == draws[1..][j];
      }
    }
  }

  /** Once the flag is set, no later asset starts a training run. */
  lemma {:induction false} NoTrainingOnceTrained(s: CycleState, assets: seq<string>, draws: seq<AssetDraw>)
    requires |assets| == |draws| && ValidDraws(draws)
    requires s.trained
    ensures var t := Cycle(s, assets, draws).trace;
      && |s.trace| <= |t| && t[..|s.trace|] == s.trace
      && forall k :: |s.trace| <= k < |t| ==> !t[k].TrainAttempt?
    decreases |assets|
  {
    if assets != [] {
      var s' := Step(s, assets[0], draws[0]);
      NoTrainingOnceTrained(s', assets[1..], draws[1..]);
      var t := Cycle(s, assets, draws).trace;
      assert s'.trace[..|s.trace|] == s.trace;
      forall k | |s.trace| <= k < |t| ensures !t[k].TrainAttempt? {
        if k < |s'.trace| { assert t[k] == s'.trace[k]; }
      }
    }
  }

  /** After a training run that got past its fit, no further training run starts. */
  ghost predicate TrainsUntilFitted(trace: seq<Event>)
  {
    forall i, j {:trigger trace[i], trace[j]} ::
      0 <= i < j < |trace| && trace[i].TrainAttempt? && trace[i].outcome != FailsBeforeFit
      ==> !trace[j].TrainAttempt?
  }

  ghost predicate FitRecorded(trace: seq<Event>)
  {
    exists i :: 0 <= i < |trace| && trace[i].TrainAttempt? && trace[i].outcome != FailsBeforeFit
  }

  /** The flag agrees with the trace: once a fit is recorded, the flag is on. */
  ghost predicate TrainingConsistent(s: CycleState)
  {
    TrainsUntilFitted(s.trace) && (FitRecorded(s.trace) ==> s.trained)
  }

  lemma StepKeepsTrainingConsistent(s: CycleState, asset: string, d: AssetDraw)
    requires ValidDraw(d) && TrainingConsistent(s)
    ensures TrainingConsistent(Step(s, asset, d))
  {
    var g := Generate(s.trained, asset, DefaultHorizon, d);
    var after := SaveAndPublishEvents(asset, g.forecast, d);
    var t := Step(s, asset, d).trace;
    var n := |s.trace| + |g.trainEvents|;
    assert t == s.trace + g.trainEvents + after;
    assert forall k :: n <= k < |t| ==> t[k] == after[k - n];
    assert forall k :: 0 <= k < |after| ==> !after[k].TrainAttempt?;
    forall k | 0 <= k < |s.trace| ensures t[k] == s.trace[k] { }
    if s.trained {
      assert g.trainEvents == [];
      forall i, j | 0 <= i < j < |t| && t[i].TrainAttempt? && t[i].outcome != FailsBeforeFit
        ensures !t[j].TrainAttempt?
      {
        if j < |s.trace| {
          assert s.trace[i] == t[i] && s.trace[j] == t[j];
        }
      }
    } else {
      assert !FitRecorded(s.trace);
      assert t[|s.trace|] == TrainAttempt(asset, d.train);
      if FitRecorded(t) {
        var i :| 0 <= i < |t| && t[i].TrainAttempt? && t[i].outcome != FailsBeforeFit;
        assert i == |s.trace|;
      }
    }
  }

  /** Training is lazy across the whole cycle: it stops for good once a run gets past its fit. */
  lemma {:induction false} CycleTrainsUntilFitted(s: CycleState, assets: seq<string>, draws: seq<AssetDraw>)
    requires |assets| == |draws| && ValidDraws(draws)
    requires TrainingConsistent(s)
    ensures TrainingConsistent(Cycle(s, assets, draws))
    decreases |assets|
  {
    if assets != [] {
      StepKeepsTrainingConsistent(s, assets[0], draws[0]);
      CycleTrainsUntilFitted(Step(s, assets[0], draws[0]), assets[1..], draws[1..]);
    }
  }

  /** The trace only grows: earlier events are never rewritten. */
  lemma {:induction false} CycleExtendsTrace(s: CycleState, assets: seq<string>, draws: seq<AssetDraw>)
    requires |assets| == |draws| && ValidDraws(draws)
    ensures var t := Cycle(s, assets, draws).trace; |s.trace| <= |t| && t[..|s.trace|] == s.trace
    decreases |assets|
  {
    if assets != [] {
      var s' := Step(s, assets[0], draws[0]);
      CycleExtendsTrace(s', assets[1..], draws[1..]);
      assert s'.trace[..|s.trace|] == s.trace;
    }
  }

  /** The cycle over a list is the cycle over its first i assets followed by the rest. */
  lemma {:induction false} CycleSplit(s: CycleState, assets: seq<string>, draws: seq<AssetDraw>, i: nat)
    requires |assets| == |draws| && ValidDraws(draws) && i <= |assets|
    ensures ValidDraws(draws[..i]) && ValidDraws(draws[i..])
    ensures Cycle(s, assets, draws) == Cycle(Cycle(s, assets[..i], draws[..i]), assets[i..], draws[i..])
    decreases i
  {
    if i > 0 {
      var s' := Step(s, assets[0], draws[0]);
      CycleSplit(s', assets[1..], draws[1..], i - 1);
      assert assets[..i][1..] == assets[1..][..i - 1];
      assert draws[..i][1..] == draws[1..][..i - 1];
      assert assets[1..][i - 1..] == assets[i..];
      assert draws[1..][i - 1..] == draws[i..];
    }
  }

  /**
   * Failure isolation: an asset whose own prediction, save and publish succeed
   * is published, whatever happened to the assets before it, provided the model
   * was trained by then or its own training run fits.
   */
  lemma SucceedingAssetIsPublished(s: CycleState, assets: seq<string>, draws: seq<AssetDraw>, i: nat)
    requires |assets| == |draws| && ValidDraws(draws) && i < |assets|
    requires draws[i].prediction.Some? && draws[i].saveOk && draws[i].publishOk
    requires s.trained || (exists j :: 0 <= j < i && draws[j].train != FailsBeforeFit) || draws[i].train == Fits
    ensures Published(Forecast(assets[i], DefaultHorizon, draws[i].prediction.value, Confidence(draws[i].confidenceDraw)))
            in Cycle(s, assets, draws).trace
  {
    var f := Forecast(assets[i], DefaultHorizon, draws[i].prediction.value, Confidence(draws[i].confidenceDraw));
    CycleSplit(s, assets, draws, i);
    var si := Cycle(s, assets[..i], draws[..i]);
    CycleTrainedFlag(s, assets[..i], draws[..i]);
    if exists j :: 0 <= j < i && draws[j].train != FailsBeforeFit {
      var j :| 0 <= j < i && draws[j].train != FailsBeforeFit;
      PrefixKeepsDraw(draws, i, j);
    }
    var s1 := Step(si, assets[i], draws[i]);
    StepPublishes(si, assets[i], draws[i]);
    assert assets[i..][0] == assets[i] && draws[i..][0] == draws[i];
    assert assets[i..][1..] == assets[i + 1..] && draws[i..][1..] == draws[i + 1..];
    CycleExtendsTrace(s1, assets[i + 1..], draws[i + 1..]);
    var t := Cycle(s1, assets[i + 1..], draws[i + 1..]).trace;
    assert t[|s1.trace| - 1] == s1.trace[|s1.trace| - 1];
  }

  lemma PrefixKeepsDraw(draws: seq<AssetDraw>, i: nat, j: nat)
    requires j < i <= |draws|
    ensures draws[..i][j] == draws[j]
  {
  }

  /** A step whose training is done or fits, with a prediction, a save and a publish, ends in its publish. */
  lemma StepPublishes(s: CycleState, asset: string, d: AssetDraw)
    requires ValidDraw(d) && (s.trained || d.train == Fits)
    requires d.prediction.Some? && d.saveOk && d.publishOk
    ensures var t := Step(s, asset, d).trace;
            t[|t| - 1] == Published(Forecast(asset, DefaultHorizon, d.prediction.value, Confidence(d.confidenceDraw)))
  {
    var g := Generate(s.trained, asset, DefaultHorizon, d);
    var e := SaveAndPublishEvents(asset, g.forecast, d);
    assert Step(s, asset, d).trace == (s.trace + g.trainEvents) + e;
  }

  /** While the flag is off, an asset's steps start with a training run for that asset. */
  lemma StepTrainsWhenUntrained(s: CycleState, asset: string, d: AssetDraw)
    requires ValidDraw(d) && !s.trained
    ensures var t := Step(s, asset, d).trace; |s.trace| < |t| && t[|s.trace|] == TrainAttempt(asset, d.train)
  {
    var t := Step(s, asset, d).trace;
    assert t[|s.trace|] == TrainAttempt(asset, d.train);
  }

  /**
   * The other half of lazy training: an asset reached while no earlier training
   * run of the cycle got past its fit (and the flag was off at the start) starts
   * a training run of its own.
   */
  lemma CycleTrainsWhenUntrained(s: CycleState, assets: seq<string>, draws: seq<AssetDraw>, i: nat)
    requires |assets| == |draws| && ValidDraws(draws) && i < |assets|
    requires !s.trained && forall j :: 0 <= j < i ==> draws[j].train == FailsBeforeFit
    ensures TrainAttempt(assets[i], draws[i].train) in Cycle(s, assets, draws).trace
  {
    CycleSplit(s, assets, draws, i);
    var si := Cycle(s, assets[..i], draws[..i]);
    CycleTrainedFlag(s, assets[..i], draws[..i]);
    assert !si.trained by {
      forall j | 0 <= j < |draws[..i]| ensures draws[..i][j].train == FailsBeforeFit {
        assert draws[..i][j] == draws[j];
      }
    }
    var s1 := Step(si, assets[i], draws[i]);
    StepTrainsWhenUntrained(si, assets[i], draws[i]);
    assert assets[i..][0] == assets[i] && draws[i..][0] == draws[i];
    assert assets[i..][1..] == assets[i + 1..] && draws[i..][1..] == draws[i + 1..];
    CycleExtendsTrace(s1, assets[i + 1..], draws[i + 1..]);
    var t := Cycle(s1, assets[i + 1..], draws[i + 1..]).trace;
    assert t[|si.trace|] == s1.trace[|si.trace|];
  }

  /** What came before a cycle neither affects it nor is changed by it. */
  lemma {:induction false} CycleIgnoresEarlierTrace(s: CycleState, prefix: seq<Event>, assets: seq<string>, draws: seq<AssetDraw>)
    requires |assets| == |draws| && ValidDraws(draws)
    ensures var c := Cycle(s, assets, draws);
      Cycle(CycleState(s.trained, prefix + s.trace), assets, draws) == CycleState(c.trained, prefix + c.trace)
    decreases |assets|
  {
    if assets != [] {
      var s' := Step(s, assets[0], draws[0]);
      var g := Generate(s.trained, assets[0], DefaultHorizon, draws[0]);
      var after := SaveAndPublishEvents(assets[0], g.forecast, draws[0]);
      assert prefix + s.trace + g.trainEvents + after == prefix + (s.trace + g.trainEvents + after);
      CycleIgnoresEarlierTrace(s', prefix, assets[1..], draws[1..]);
    }
  }

  // ---------------------------------------------------------------------------
  // The initial training of run

  /**
   * run's initial training: one training run per asset, in list order, whatever
   * the flag says; a failure is logged and the next asset is trained.
   */
  function TrainEach(s: CycleState, assets: seq<string>, outcomes: seq<TrainOutcome>): (r: CycleState)
    requires |assets| == |outcomes|
    ensures |r.trace| == |s.trace| + |assets|
    ensures s.trained ==> r.trained
    decreases |assets|
  {
    if assets == [] then s
    else
      var s' := CycleState(s.trained || outcomes[0] != FailsBeforeFit, s.trace + [TrainAttempt(assets[0], outcomes[0])]);
      TrainEach(s', assets[1..], outcomes[1..])
  }

  /**
   * The initial training is eager: it appends exactly one training run per asset,
   * even when the flag is already on, and the flag ends up set iff it was set or
   * some run got past its fit.
   */
  lemma {:induction false} TrainEachIsEager(s: CycleState, assets: seq<string>, outcomes: seq<TrainOutcome>)
    requires |assets| == |outcomes|
    ensures var r := TrainEach(s, assets, outcomes);
      && r.trace[..|s.trace|] == s.trace
      && (forall k :: 0 <= k < |assets| ==> r.trace[|s.trace| + k] == TrainAttempt(assets[k], outcomes[k]))
      && (r.trained <==> s.trained || exists j :: 0 <= j < |outcomes| && outcomes[j] != FailsBeforeFit)
    decreases |assets|
  {
    if assets != [] {
      var s' := CycleState(s.trained || outcomes[0] != FailsBeforeFit, s.trace + [TrainAttempt(assets[0], outcomes[0])]);
      TrainEachIsEager(s', assets[1..], outcomes[1..]);
      var r := TrainEach(s, assets, outcomes);
      assert r == TrainEach(s', assets[1..], outcomes[1..]);
      assert r.trace[..|s'.trace|] == s'.trace;
      assert r.trace[..|s.trace|] == s'.trace[..|s.trace|];
      forall k | 0 <= k < |assets| ensures r.trace[|s.trace| + k] == TrainAttempt(assets[k], outcomes[k]) {
        if k == 0 {
          assert r.trace[|s.trace|] == s'.trace[|s.trace|];
        } else {
          assert r.trace[|s'.trace| + (k - 1)] == TrainAttempt(assets[1..][k - 1], outcomes[1..][k - 1]);
        }
      }
      if exists j :: 0 <= j < |outcomes| && outcomes[j] != FailsBeforeFit {
        var j :| 0 <= j < |outcomes| && outcomes[j] != FailsBeforeFit;
        if j > 0 { assert outcomes[1..][j - 1] == outcomes[j]; }
      }
      if exists j :: 0 <= j < |outcomes[1..]| && outcomes[1..][j] != FailsBeforeFit {
        var j :| 0 <= j < |outcomes[1..]| && outcomes[1..][j] != FailsBeforeFit;
        assert outcomes[j + 1] == outcomes[1..][j];
      }
    }
  }

  /**
   * One round of run: after the initial training, the first cycle trains no
   * more if some initial run got past its fit; if every one failed before its
   * fit, the first asset of the cycle trains again, lazily.
   */
  lemma InitialTrainingThenCycle(s: CycleState, assets: seq<string>, outcomes: seq<TrainOutcome>, draws: seq<AssetDraw>)
    requires |assets| == |outcomes| == |draws| && ValidDraws(draws)
    ensures var r := TrainEach(s, assets, outcomes);
      var t := Cycle(r, assets, draws).trace;
      && ((exists j :: 0 <= j < |outcomes| && outcomes[j] != FailsBeforeFit) ==>
            forall k :: |r.trace| <= k < |t| ==> !t[k].TrainAttempt?)
      && (!s.trained && assets != [] && (forall j :: 0 <= j < |outcomes| ==> outcomes[j] == FailsBeforeFit) ==>
            TrainAttempt(assets[0], draws[0].train) in t)
  {
    var r := TrainEach(s, assets, outcomes);
    TrainEachIsEager(s, assets, outcomes);
    if exists j :: 0 <= j < |outcomes| && outcomes[j] != FailsBeforeFit {
      NoTrainingOnceTrained(r, assets, draws);
    }
    if !s.trained && assets != [] && (forall j :: 0 <= j < |outcomes| ==> outcomes[j] == FailsBeforeFit) {
      CycleTrainsWhenUntrained(r, assets, draws, 0);
    }
  }

  // ---------------------------------------------------------------------------
  // The feature window of a forecast

  /** The longest rolling window among the features: the 168-hour moving average. */
  const LongestWindow := 168

  /** The history generate_forecast loads: seven days of hourly rows. */
  const ForecastHistoryHours := 7 * 24

  /**
   * Row i of an hourly history of n rows survives dropna: the 168-hour average
   * exists from row 167 on, and the next-hour target exists for every row but
   * the last. Every other feature window is shorter.
   */
  predicate RowComplete(n: nat, i: nat)
  {
    LongestWindow - 1 <= i && i + 1 < n
  }

  /** The row that the latest-row lookup picks among the first i rows: the last complete one, if any. */
  function LastCompleteRow(n: nat, i: nat): (r: Option<nat>)
    ensures r.Some? ==> r.value < i && RowComplete(n, r.value)
    ensures r.Some? ==> forall j :: r.value < j < i ==> !RowComplete(n, j)
    ensures r.None? ==> forall j: nat :: j < i ==> !RowComplete(n, j)
    decreases i
  {
    if i == 0 then None
    else if RowComplete(n, i - 1) then Some(i - 1)
    else LastCompleteRow(n, i - 1)
  }

  /** The prediction a window of the given length yields: none when no row survives. */
  function WindowPrediction(hours: nat, d: AssetDraw): (p: Option<real>)
    ensures p.Some? ==> p == d.prediction
    ensures LastCompleteRow(hours, hours).None? ==> p.None?
  {
    if LastCompleteRow(hours, hours).None? then None else d.prediction
  }

  /** The seven-day window as written: no row survives, so every prediction fails. */
  lemma ForecastWindowHasNoRow(d: AssetDraw)
    ensures LastCompleteRow(ForecastHistoryHours, ForecastHistoryHours) == None
    ensures WindowPrediction(ForecastHistoryHours, d) == None
  {
  }

  /** A cycle in which no prediction succeeds publishes nothing. */
  lemma {:induction false} CycleWithoutPredictionsPublishesNothing(s: CycleState, assets: seq<string>, draws: seq<AssetDraw>)
    requires |assets| == |draws| && ValidDraws(draws)
    requires forall j :: 0 <= j < |draws| ==> draws[j].prediction.None?
    ensures var t := Cycle(s, assets, draws).trace;
      forall k :: |s.trace| <= k < |t| ==> !t[k].Published?
    decreases |assets|
  {
    if assets != [] {
      var s' := Step(s, assets[0], draws[0]);
      CycleWithoutPredictionsPublishesNothing(s', assets[1..], draws[1..]);
      CycleExtendsTrace(s', assets[1..], draws[1..]);
      var t := Cycle(s, assets, draws).trace;
      assert s'.trace == s.trace + Generate(s.trained, assets[0], DefaultHorizon, draws[0]).trainEvents + [Failed(assets[0])];
      forall k | |s.trace| <= k < |t| ensures !t[k].Published? {
        if k < |s'.trace| { assert t[k] == s'.trace[k]; }
      }
    }
  }

  /** The cycle as written: with every prediction taken from the seven-day window, nothing is published. */
  lemma AsWrittenCycleNeverPublishes(s: CycleState, assets: seq<string>, draws: seq<AssetDraw>)
    requires |assets| == |draws| && ValidDraws(draws)
    ensures var windowed := seq(|draws|, j requires 0 <= j < |draws| =>
                                draws[j].(prediction := WindowPrediction(ForecastHistoryHours, draws[j])));
      && ValidDraws(windowed)
      && var t := Cycle(s, assets, windowed).trace;
         forall k :: |s.trace| <= k < |t| ==> !t[k].Published?
  {
    var windowed := seq(|draws|, j requires 0 <= j < |draws| =>
                        draws[j].(prediction := WindowPrediction(ForecastHistoryHours, draws[j])));
    forall j | 0 <= j < |draws| ensures windowed[j].prediction.None? {
      ForecastWindowHasNoRow(draws[j]);
    }
    CycleWithoutPredictionsPublishesNothing(s, assets, windowed);
  }

  /**
   * The intended window: any history longer than the longest feature window
   * leaves a latest row, the one before the newest hour, so the prediction
   * the rest of the model takes as input is the one the window yields.
   */
  lemma LongerWindowKeepsPrediction(hours: nat, d: AssetDraw)
    requires hours > LongestWindow
    ensures LastCompleteRow(hours, hours) == Some(hours - 2)
    ensures WindowPrediction(hours, d) == d.prediction
  {
    assert RowComplete(hours, hours - 2);
  }

  // ---------------------------------------------------------------------------
  // The engine object

  class ForecastEngine {
    var isTrained: bool

    constructor ()
      ensures !isTrained
    {
      isTrained := false;
    }

    /** train_model: the flag is set once the fit completes, even if evaluation then fails. */
    method TrainModel(asset: string, outcome: TrainOutcome) returns (ok: bool)
      modifies this`isTrained
      ensures isTrained == (old(isTrained) || outcome != FailsBeforeFit)
      ensures ok == (outcome == Fits)
    {
      if outcome == FailsBeforeFit {
        return false;
      }
      isTrained := true;
      ok := outcome == Fits;
    }

    method GenerateForecast(asset: string, horizon: string, d: AssetDraw)
      returns (forecast: Option<Forecast>, trainEvents: seq<Event>)
      requires ValidDraw(d)
      modifies this`isTrained
      ensures Generation(isTrained, trainEvents, forecast) == Generate(old(isTrained), asset, horizon, d)
      ensures old(isTrained) ==> isTrained && trainEvents == []
      ensures forecast.Some? ==> forecast.value.asset == asset && forecast.value.horizon == horizon
    {
      trainEvents := [];
      if !isTrained {
        trainEvents := [TrainAttempt(asset, d.train)];
        var ok := TrainModel(asset, d.train);
        if !ok {
          return None, trainEvents;
        }
      }
      if d.prediction.None? {
        return None, trainEvents;
      }
      var confidence := Confidence(d.confidenceDraw);
      forecast := Some(Forecast(asset, horizon, d.prediction.value, confidence));
    }

    /** The save and publish of one generated forecast; the first failure ends the asset's steps. */
    method SaveAndPublish(asset: string, forecast: Option<Forecast>, d: AssetDraw) returns (events: seq<Event>)
      ensures events == SaveAndPublishEvents(asset, forecast, d)
    {
      match forecast {
        case None =>
          events := [Failed(asset)];
        case Some(f) =>
          events := [Generated(f)];
          if !d.saveOk {
            events := events + [Failed(asset)];
          } else {
            events := events + [Saved(f)];
            if !d.publishOk {
              events := events + [Failed(asset)];
            } else {
              events := events + [Published(f)];
            }
          }
      }
    }

    method RunForecastCycle(assets: seq<string>, draws: seq<AssetDraw>) returns (trace: seq<Event>)
      requires |assets| == |draws| && ValidDraws(draws)
      modifies this`isTrained
      ensures CycleState(isTrained, trace) == Cycle(CycleState(old(isTrained), []), assets, draws)
    {
      ghost var start := CycleState(isTrained, []);
      trace := [];
      var i := 0;
      while i < |assets|
        invariant 0 <= i <= |assets|
        invariant ValidDraws(draws[i..])
        invariant Cycle(start, assets, draws) == Cycle(CycleState(isTrained, trace), assets[i..], draws[i..])
      {
        var asset := assets[i];
        ghost var before := CycleState(isTrained, trace);
        var forecast, trainEvents := GenerateForecast(asset, DefaultHorizon, draws[i]);
        var after := SaveAndPublish(asset, forecast, draws[i]);
        trace := trace + trainEvents + after;
        assert CycleState(isTrained, trace) == Step(before, asset, draws[i]);
        assert assets[i..][1..] == assets[i + 1..] && draws[i..][1..] == draws[i + 1..];
        i := i + 1;
      }
    }

    /** run's initial training: every asset is trained once, whatever the flag says; failures are skipped. */
    method TrainAll(assets: seq<string>, outcomes: seq<TrainOutcome>) returns (trace: seq<Event>)
      requires |assets| == |outcomes|
      modifies this`isTrained
      ensures CycleState(isTrained, trace) == TrainEach(CycleState(old(isTrained), []), assets, outcomes)
    {
      ghost var start := CycleState(isTrained, []);
      trace := [];
      var i := 0;
      while i < |assets|
        invariant 0 <= i <= |assets|
        invariant TrainEach(start, assets, outcomes) == TrainEach(CycleState(isTrained, trace), assets[i..], outcomes[i..])
      {
        trace := trace + [TrainAttempt(assets[i], outcomes[i])];
        var _ := TrainModel(assets[i], outcomes[i]);
        assert assets[i..][1..] == assets[i + 1..] && outcomes[i..][1..] == outcomes[i + 1..];
        i := i + 1;
      }
    }

    /** One round of run: the initial training of the default assets, then one cycle over them. */
    method RunRound(outcomes: seq<TrainOutcome>, draws: seq<AssetDraw>) returns (trace: seq<Event>)
      requires |outcomes| == |DefaultAssets| == |draws| && ValidDraws(draws)
      modifies this`isTrained
      ensures CycleState(isTrained, trace) ==
              Cycle(TrainEach(CycleState(old(isTrained), []), DefaultAssets, outcomes), DefaultAssets, draws)
    {
      var trained := TrainAll(DefaultAssets, outcomes);
      ghost var mid := CycleState(isTrained, []);
      var cycle := RunForecastCycle(DefaultAssets, draws);
      trace := trained + cycle;
      CycleIgnoresEarlierTrace(mid, trained, DefaultAssets, draws);
      assert trained + mid.trace == trained;
    }
  }
}
