/** The forecasting services' 72-hour forecast assembly and request guards:
    the look-back window check, the prediction pipeline's failure paths, the
    two 72-point loops, the time-offset lookup and the latitude endpoint.
    exp, the random noise and the trained model are parameters. */
module Forecast {
  import opened Arith
  import opened KpScale
  import opened Wrappers

  /** Rows of features the model looks back over: 72 // 4. */
  const LookBackSteps: nat := 18

  /** Number of hourly forecast points. */
  const Horizon: nat := 72

  function GetOr(o: Option<real>, default: real): real
  {
    if o.Some? then o.value else default
  }

  /** Why a request or the pipeline failed. */
  datatype Failure =
    | ModelNotLoaded
    | FetchFailed
    | InsufficientData(have: int)
    | FeatureMismatch(expected: int, got: int)
    | OffsetOutOfRange
    | KpOutOfRange

  datatype Result<T> = Ok(value: T) | Err(failure: Failure)

  /** The HTTP status the ML service answers with: the model check sits
      outside the pipeline's try block (503), the range checks are 400, and
      every failure inside the try block, the 504 for missing NOAA data
      included, is re-raised as 500. */
  function HttpStatus(f: Failure): (status: int)
    ensures status == 400 || status == 500 || status == 503
  {
    match f
    case ModelNotLoaded => 503
    case OffsetOutOfRange => 400
    case KpOutOfRange => 400
    case _ => 500
  }

  /** The rows of a feature table, one row per time step, laid end to end. */
  function Flatten(rows: seq<seq<real>>): seq<real>
  {
    if rows == [] then [] else rows[0] + Flatten(rows[1..])
  }

  /** Flattening distributes over concatenation. */
  lemma {:induction false} FlattenAppend(a: seq<seq<real>>, b: seq<seq<real>>)
    ensures Flatten(a + b) == Flatten(a) + Flatten(b)
    decreases |a|
  {
    if a == [] {
      assert a + b == b;
    } else {
      assert (a + b)[1..] == a[1..] + b;
      FlattenAppend(a[1..], b);
    }
  }

  /** For rows of one width w, entry k * w + j of the flattened vector is
      column j of row k. */
  lemma FlattenAt(rows: seq<seq<real>>, w: nat, k: int, j: int)
    requires forall r :: r in rows ==> |r| == w
    requires 0 <= k < |rows| && 0 <= j < w
    ensures k * w + j < |Flatten(rows)| && Flatten(rows)[k * w + j] == rows[k][j]
  {
    var before, rest := rows[..k], rows[k..];
    assert rows == before + rest;
    FlattenAppend(before, rest);
    assert rest[0] == rows[k] && rows[k] in rows;
    assert Flatten(rest) == rows[k] + Flatten(rest[1..]);
    assert forall r :: r in before ==> r in rows;
    FlattenLength(before, w);
    assert Flatten(rows)[|Flatten(before)| + j] == rows[k][j];
  }

  lemma {:induction false} FlattenLength(rows: seq<seq<real>>, w: nat)
    requires forall r :: r in rows ==> |r| == w
    ensures |Flatten(rows)| == |rows| * w
  {
    if rows != [] {
      var tail := rows[1..];
      assert forall r :: r in tail ==> r in rows;
      FlattenLength(tail, w);
      assert rows[0] in rows;
      assert |Flatten(rows)| == w + |tail| * w;
      MulSucc(|tail|, w);
    }
  }

  lemma MulSucc(n: int, w: int)
    ensures (n + 1) * w == n * w + w
  {
  }

  /** prepare_prediction_data_live (the ML services): fewer than 18 rows is
      an error; otherwise the last 18 rows are flattened, and a vector whose
      length is not the scaler's n_features_in_ is an error. The scaler's
      transform is part of the model parameter of the pipeline. */
  function PreparePredictionData(rows: seq<seq<real>>, nFeaturesIn: int): (r: Result<seq<real>>)
    ensures |rows| < LookBackSteps ==> r == Err(InsufficientData(|rows|))
    ensures r.Ok? ==> |rows| >= LookBackSteps && |r.value| == nFeaturesIn
  {
    if |rows| < LookBackSteps then Err(InsufficientData(|rows|))
    else
      var flat := Flatten(rows[|rows| - LookBackSteps..]);
      if |flat| != nFeaturesIn then Err(FeatureMismatch(nFeaturesIn, |flat|))
      else Ok(flat)
  }

  /** The rows the model looks back over: the last 18. */
  function Recent(rows: seq<seq<real>>): (recent: seq<seq<real>>)
    requires |rows| >= LookBackSteps
    ensures |recent| == LookBackSteps
  {
    rows[|rows| - LookBackSteps..]
  }

  /** With rows of one width w and enough of them, preparation succeeds
      exactly when the scaler expects 18 * w features, and the vector is the
      last 18 rows laid end to end (FlattenAt places each cell). */
  lemma PrepareUniformRows(rows: seq<seq<real>>, w: nat, nFeaturesIn: int)
    requires forall r :: r in rows ==> |r| == w
    requires |rows| >= LookBackSteps
    ensures PreparePredictionData(rows, nFeaturesIn).Ok? <==> nFeaturesIn == LookBackSteps * w
    ensures PreparePredictionData(rows, nFeaturesIn).Ok? ==>
      PreparePredictionData(rows, nFeaturesIn).value == Flatten(Recent(rows))
  {
    var recent := Recent(rows);
    assert forall r :: r in recent ==> r in rows;
    FlattenLength(recent, w);
  }

  /** run_forecast_pipeline: the model must be loaded and the NOAA data
      fetched; the prepared vector goes through the scaler and model
      (predict), and the raw prediction, in tenths, is clipped to [0, 9]. */
  function RunForecastPipeline(modelLoaded: bool, fetched: bool, rows: seq<seq<real>>, nFeaturesIn: int,
                               predict: seq<real> -> real): (r: Result<real>)
    ensures !modelLoaded ==> r == Err(ModelNotLoaded)
    ensures r.Ok? ==> 0.0 <= r.value <= 9.0
  {
    if !modelLoaded then Err(ModelNotLoaded)
    else if !fetched then Err(FetchFailed)
    else
      var x := PreparePredictionData(rows, nFeaturesIn);
      if x.Err? then Err(x.failure)
      else Ok(Clip(predict(x.value) / 10.0, 0.0, 9.0))
  }

  /** The pipeline succeeds exactly when all three guards pass, and then its
      value is the clipped prediction on the last 18 rows; a pipeline failure
      is answered with 503 only for a missing model and 500 otherwise. */
  lemma PipelineOutcome(modelLoaded: bool, fetched: bool, rows: seq<seq<real>>, nFeaturesIn: int,
                        predict: seq<real> -> real)
    ensures RunForecastPipeline(modelLoaded, fetched, rows, nFeaturesIn, predict).Ok? <==>
      modelLoaded && fetched && PreparePredictionData(rows, nFeaturesIn).Ok?
    ensures RunForecastPipeline(modelLoaded, fetched, rows, nFeaturesIn, predict).Ok? ==>
      RunForecastPipeline(modelLoaded, fetched, rows, nFeaturesIn, predict).value ==
        Clip(predict(Flatten(rows[|rows| - LookBackSteps..])) / 10.0, 0.0, 9.0)
    ensures RunForecastPipeline(modelLoaded, fetched, rows, nFeaturesIn, predict).Err? ==>
      HttpStatus(RunForecastPipeline(modelLoaded, fetched, rows, nFeaturesIn, predict).failure) ==
        (if modelLoaded then 500 else 503)
  {
  }

  /** The latest feature row as the forecast loop reads it; a column that is
      absent takes the loop's default. */
  datatype Reading = Reading(kp: real, bz: Option<real>, speed: Option<real>, density: Option<real>)

  function BzEffect(r: Reading): real
  {
    -GetOr(r.bz, 0.0) * 0.1
  }

  function SpeedEffect(r: Reading): real
  {
    (GetOr(r.speed, 400.0) - 400.0) * 0.002
  }

  function DensityEffect(r: Reading): real
  {
    (GetOr(r.density, 5.0) - 5.0) * 0.05
  }

  /** A Reading whose solar-wind columns are all missing has no effect. */
  lemma DefaultReadingHasNoEffect(kp: real)
    ensures BzEffect(Reading(kp, None, None, None)) == 0.0
    ensures SpeedEffect(Reading(kp, None, None, None)) == 0.0
    ensures DensityEffect(Reading(kp, None, None, None)) == 0.0
  {
  }

  /** The sum of consecutive differences of a series. */
  function SumOfDifferences(s: seq<real>): real
  {
    if |s| < 2 then 0.0 else (s[1] - s[0]) + SumOfDifferences(s[1..])
  }

  /** The differences telescope: their sum is last minus first. */
  lemma {:induction false} SumOfDifferencesTelescopes(s: seq<real>)
    requires |s| >= 1
    ensures SumOfDifferences(s) == s[|s| - 1] - s[0]
  {
    if |s| >= 2 {
      SumOfDifferencesTelescopes(s[1..]);
    }
  }

  function KpColumn(features: seq<Reading>): (kps: seq<real>)
    ensures |kps| == |features|
    ensures forall i :: 0 <= i < |features| ==> kps[i] == features[i].kp
  {
    seq(|features|, i requires 0 <= i < |features| => features[i].kp)
  }

  /** The mean step of the Kp column over the last 24 rows (the mean of
      diff()), or 0 with fewer rows. */
  function KpTrend(features: seq<Reading>): real
  {
    if |features| >= 24 then
      SumOfDifferences(KpColumn(features)[|features| - 24..]) / 23.0
    else 0.0
  }

  /** The trend is the rise over the last 24 rows spread over their 23 steps;
      a flat history has no trend. */
  lemma KpTrendIsAverageRise(features: seq<Reading>)
    ensures |features| >= 24 ==>
      KpTrend(features) == (features[|features| - 1].kp - features[|features| - 24].kp) / 23.0
    ensures |features| < 24 ==> KpTrend(features) == 0.0
  {
    if |features| >= 24 {
      var recent := KpColumn(features)[|features| - 24..];
      SumOfDifferencesTelescopes(recent);
    }
  }

  /** The combined solar-wind adjustment of the ML loop: zero when there are
      no rows. */
  function MlPhysicsEffect(features: seq<Reading>): real
  {
    if |features| > 0 then
      var latest := features[|features| - 1];
      BzEffect(latest) + SpeedEffect(latest) + DensityEffect(latest)
    else 0.0
  }

  /** One point of a forecast. The backend's points carry no confidence. */
  datatype ForecastPoint = ForecastPoint(hour: int, kp: real, geomagneticLatitude: real,
                                         confidence: Option<real>, officialScale: string)

  /** The unclipped Kp of the ML loop at hour i: decayed base, trend, decayed
      physics adjustment and, after the first hour, noise. */
  function MlRawKp(baseKp: real, trend: real, effect: real, exp: real -> real, noise: int -> real, i: int): real
  {
    var decay := exp(-(i as real) * 0.02);
    baseKp * decay + trend * i as real * 0.1 + effect * decay + (if i > 0 then noise(i) else 0.0)
  }

  /** The point the ML loop emits at hour i. */
  function MlPointAt(baseKp: real, features: seq<Reading>, exp: real -> real, noise: int -> real, i: int): ForecastPoint
    requires i >= 0
  {
    var kp := Clip(MlRawKp(baseKp, KpTrend(features), MlPhysicsEffect(features), exp, noise, i), 0.0, 9.0);
    ForecastPoint(i, kp, GeomagneticLatitude(kp), Some(Confidence(i)), MlKpString(Number(kp)))
  }

  lemma MlPointFromRaw(baseKp: real, features: seq<Reading>, exp: real -> real, noise: int -> real, i: int, raw: real)
    requires i >= 0
    requires raw == MlRawKp(baseKp, KpTrend(features), MlPhysicsEffect(features), exp, noise, i)
    ensures MlPointAt(baseKp, features, exp, noise, i) ==
      ForecastPoint(i, Clip(raw, 0.0, 9.0), GeomagneticLatitude(Clip(raw, 0.0, 9.0)), Some(Confidence(i)),
                    MlKpString(Number(Clip(raw, 0.0, 9.0))))
  {
  }

  /** generate_72h_forecast of the ML services. */
  method MlForecast(baseKp: real, features: seq<Reading>, exp: real -> real, noise: int -> real)
    returns (points: seq<ForecastPoint>)
    ensures |points| == Horizon
    ensures forall i :: 0 <= i < Horizon ==> points[i] == MlPointAt(baseKp, features, exp, noise, i)
  {
    var kpTrend := KpTrend(features);
    var bzEffect, speedEffect, densityEffect := 0.0, 0.0, 0.0;
    if |features| > 0 {
      var latest := features[|features| - 1];
      bzEffect := -GetOr(latest.bz, 0.0) * 0.1;
      speedEffect := (GetOr(latest.speed, 400.0) - 400.0) * 0.002;
      densityEffect := (GetOr(latest.density, 5.0) - 5.0) * 0.05;
    }
    var effect := bzEffect + speedEffect + densityEffect;
    assert effect == MlPhysicsEffect(features);
    points := [];
    var i := 0;
    while i < Horizon
      invariant 0 <= i <= Horizon && |points| == i
      invariant forall k :: 0 <= k < i ==> points[k] == MlPointAt(baseKp, features, exp, noise, k)
    {
      var point := MlStep(baseKp, features, kpTrend, effect, exp, noise, i);
      points := points + [point];
      i := i + 1;
    }
  }

  /** One pass of the ML loop body: decay, trend, physics and noise summed
      and clipped into a point. */
  method MlStep(baseKp: real, features: seq<Reading>, kpTrend: real, effect: real, exp: real -> real,
                noise: int -> real, i: int) returns (point: ForecastPoint)
    requires i >= 0 && kpTrend == KpTrend(features) && effect == MlPhysicsEffect(features)
    ensures point == MlPointAt(baseKp, features, exp, noise, i)
  {
    var timeDecay := exp(-(i as real) * 0.02);
    var trendEffect := kpTrend * i as real * 0.1;
    var physicsAdjustment := effect * timeDecay;
    var n := if i > 0 then noise(i) else 0.0;
    var raw := baseKp * timeDecay + trendEffect + physicsAdjustment + n;
    assert raw == MlRawKp(baseKp, kpTrend, effect, exp, noise, i);
    var forecastKp := Clip(raw, 0.0, 9.0);
    MlPointFromRaw(baseKp, features, exp, noise, i, raw);
    point := ForecastPoint(i, forecastKp, GeomagneticLatitude(forecastKp),
                           Some(Confidence(i)), MlKpString(Number(forecastKp)));
  }

  /** Every ML point is consistent: its hour is its index, Kp lies in
      [0, 9], the latitude is the clamp of that Kp, the confidence decays
      from 0.9 to the 0.3 floor, and the scale is the well-formed Kp string
      for that Kp, the same one the backend would print. */
  lemma {:induction false} MlPointConsistent(baseKp: real, features: seq<Reading>, exp: real -> real,
                                             noise: int -> real, i: int)
    requires 0 <= i < Horizon
    ensures var p := MlPointAt(baseKp, features, exp, noise, i);
      p.hour == i && 0.0 <= p.kp <= 9.0 &&
      (p.kp <= 7.0 ==> p.geomagneticLatitude == 67.5 - 2.5 * p.kp) &&
      (p.kp >= 7.0 ==> p.geomagneticLatitude == 50.0)
    ensures var p := MlPointAt(baseKp, features, exp, noise, i);
      p.confidence.Some? && 0.3 <= p.confidence.value <= 0.9 &&
      WellFormedKpString(p.officialScale) && p.officialScale == BackendKpString(Number(p.kp)) &&
      KpStringValue(p.officialScale) == Thirds(p.kp) as real / 3.0
  {
    var p := MlPointAt(baseKp, features, exp, noise, i);
    EncodersAgree(p.kp);
    BackendKpStringMeaning(p.kp);
  }

  /** The first hour carries neither noise nor trend: whatever the noise
      source and the Kp history, hour 0 is the clipped base Kp plus the
      physics adjustment. */
  lemma FirstPointIsNoiseFree(baseKp: real, features: seq<Reading>, exp: real -> real,
                              noise1: int -> real, noise2: int -> real)
    requires exp(0.0) == 1.0
    ensures MlPointAt(baseKp, features, exp, noise1, 0) == MlPointAt(baseKp, features, exp, noise2, 0)
    ensures MlPointAt(baseKp, features, exp, noise1, 0).kp == Clip(baseKp + MlPhysicsEffect(features), 0.0, 9.0)
  {
    assert -(0 as real) * 0.02 == 0.0;
  }

  /** The backend's solar-wind adjustment: Bz and speed only. */
  function BackendPhysicsEffect(latest: Reading): real
  {
    BzEffect(latest) + SpeedEffect(latest)
  }

  /** The unclipped Kp of the backend's loop at hour i. */
  function BackendRawKp(baseKp: real, latest: Reading, exp: real -> real, i: int): real
  {
    var decay := exp(-(i as real) * 0.02);
    baseKp * decay + BackendPhysicsEffect(latest) * decay
  }

  /** The point the backend's loop emits at hour i. */
  function BackendPointAt(baseKp: real, latest: Reading, exp: real -> real, i: int): ForecastPoint
  {
    var kp := Clip(BackendRawKp(baseKp, latest, exp, i), 0.0, 9.0);
    ForecastPoint(i, kp, GeomagneticLatitude(kp), None, BackendKpString(Number(kp)))
  }

  /** generate_72h_forecast of the backend: nothing for an empty feature
      table, otherwise 72 points. */
  method BackendForecast(baseKp: real, features: seq<Reading>, exp: real -> real)
    returns (points: seq<ForecastPoint>)
    ensures features == [] ==> points == []
    ensures features != [] ==> |points| == Horizon
    ensures features != [] ==>
      forall i :: 0 <= i < |points| ==> points[i] == BackendPointAt(baseKp, features[|features| - 1], exp, i)
  {
    points := [];
    if features == [] {
      return;
    }
    var latest := features[|features| - 1];
    var bzEffect := -GetOr(latest.bz, 0.0) * 0.1;
    var speedEffect := (GetOr(latest.speed, 400.0) - 400.0) * 0.002;
    assert bzEffect + speedEffect == BackendPhysicsEffect(latest);
    var i := 0;
    while i < Horizon
      invariant 0 <= i <= Horizon && |points| == i
      invariant forall k :: 0 <= k < i ==> points[k] == BackendPointAt(baseKp, latest, exp, k)
    {
      var point := BackendStep(baseKp, latest, bzEffect + speedEffect, exp, i);
      points := points + [point];
      i := i + 1;
    }
  }

  /** One pass of the backend loop body. */
  method BackendStep(baseKp: real, latest: Reading, effect: real, exp: real -> real, i: int)
    returns (point: ForecastPoint)
    requires effect == BackendPhysicsEffect(latest)
    ensures point == BackendPointAt(baseKp, latest, exp, i)
  {
    var timeDecay := exp(-(i as real) * 0.02);
    var physicsAdjustment := effect * timeDecay;
    var raw := baseKp * timeDecay + physicsAdjustment;
    assert raw == BackendRawKp(baseKp, latest, exp, i);
    var forecastKp := Clip(raw, 0.0, 9.0);
    point := ForecastPoint(i, forecastKp, GeomagneticLatitude(forecastKp), None,
                           BackendKpString(Number(forecastKp)));
  }

  /** Every backend point has Kp in [0, 9], the clamp's latitude for it and
      the Kp string that stands for it to the nearest third. */
  lemma BackendPointConsistent(baseKp: real, latest: Reading, exp: real -> real, i: int)
    ensures var p := BackendPointAt(baseKp, latest, exp, i);
      p.hour == i && 0.0 <= p.kp <= 9.0 && p.confidence.None? &&
      50.0 <= p.geomagneticLatitude <= 67.5 &&
      WellFormedKpString(p.officialScale) &&
      p.kp - 1.0 / 6.0 <= KpStringValue(p.officialScale) <= p.kp + 1.0 / 6.0
  {
    var p := BackendPointAt(baseKp, latest, exp, i);
    KpStringIsNearestThird(p.kp);
  }

  /** The index get_forecast_for_time reads: min(int(offset), n - 1). */
  function ForecastIndex(offset: real, n: int): (i: int)
    requires 0.0 <= offset && n >= 1
    ensures 0 <= i < n
    ensures offset < n as real ==> i as real <= offset < i as real + 1.0
    ensures offset >= n as real ==> i == n - 1
  {
    Min(offset.Floor, n - 1)
  }

  /** get_forecast_for_time: the offset is checked before anything else,
      then the pipeline runs, the 72-hour forecast is generated from its
      predicted Kp and the features it built, and the point at the offset's
      whole hour is returned with its aurora details. */
  method ForecastForTime(offset: real, pipeline: Result<real>, features: seq<Reading>,
                         exp: real -> real, noise: int -> real)
    returns (r: Result<(ForecastPoint, AuroraDetails)>)
    ensures r.Ok? <==> 0.0 <= offset <= 72.0 && pipeline.Ok?
    ensures (offset < 0.0 || offset > 72.0) ==> r == Err(OffsetOutOfRange)
    ensures 0.0 <= offset <= 72.0 && pipeline.Err? ==> r == Err(pipeline.failure)
    ensures r.Ok? ==>
      r.value.0 == MlPointAt(pipeline.value, features, exp, noise, ForecastIndex(offset, Horizon))
    ensures r.Ok? && offset < 72.0 ==> r.value.0.hour == offset.Floor
    ensures r.Ok? && offset == 72.0 ==> r.value.0.hour == 71
    ensures r.Ok? ==> r.value.1 == GetAuroraDetails(r.value.0.kp)
  {
    if offset < 0.0 || offset > 72.0 {
      return Err(OffsetOutOfRange);
    }
    if pipeline.Err? {
      return Err(pipeline.failure);
    }
    var forecast := MlForecast(pipeline.value, features, exp, noise);
    var point := forecast[ForecastIndex(offset, |forecast|)];
    r := Ok((point, GetAuroraDetails(point.kp)));
  }

  /** What the latitude endpoint answers for an accepted Kp. */
  datatype LatitudeReport = LatitudeReport(kp: real, geomagneticLatitude: real, officialScale: string, details: AuroraDetails)

  /** /api/geomagnetic/latitude: a Kp outside [0, 9] is rejected. */
  function LatitudeEndpoint(kp: real): (r: Result<LatitudeReport>)
    ensures r.Err? <==> kp < 0.0 || kp > 9.0
    ensures r.Err? ==> r.failure == KpOutOfRange && HttpStatus(r.failure) == 400
    ensures r.Ok? ==> r.value.kp == kp && r.value.geomagneticLatitude == Max(50.0, 67.5 - 2.5 * kp)
    ensures r.Ok? ==> r.value.officialScale == MlKpString(Number(kp)) && WellFormedKpString(r.value.officialScale)
    ensures r.Ok? ==> r.value.details == GetAuroraDetails(kp)
  {
    if kp < 0.0 || kp > 9.0 then Err(KpOutOfRange)
    else
      EncodersAgree(kp);
      BackendKpStringMeaning(kp);
      Ok(LatitudeReport(kp, GeomagneticLatitude(kp), MlKpString(Number(kp)), GetAuroraDetails(kp)))
  }
}
