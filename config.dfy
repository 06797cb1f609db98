/**
 * The backend's constant tables (backend/config.py): indicator parameters with
 * per-timeframe overrides, the composite weights, thresholds and neutral points,
 * and the few scalar settings the backend reads.
 */
module Config {
  import opened Records

  /** An indicator's parameter dict: name to integer value. */
  type Params = map<string, int>

  const HistoricalDataYears: nat := 2
  const MinCandlesForCalculation: nat := 20
  const CompositeMaxNormalizedScoreComponent: real := 150.0
  const CoinGeckoRetries: nat := 3
  const CoinGeckoDelay: nat := 2
  const KrakenRetries: nat := 3
  const KrakenDelaySeconds: nat := 1

  const DefaultIndicatorParams: map<string, Params> := map[
    "rsi" := map["period" := 14],
    "stochRsi" := map["rsi_period" := 14, "stoch_period" := 14, "k_smooth" := 3],
    "mfi" := map["period" := 14],
    "crsi" := map["rsi_short_len" := 3, "rsi_streak_len" := 2, "rank_len" := 100],
    "williamsR" := map["period" := 14],
    "rvi" := map["period" := 10],
    "adaptiveRsi" := map["period" := 14, "kama_n" := 10, "kama_fast_ema" := 2, "kama_slow_ema" := 30]
  ]

  const TimeframeSpecificParams: map<string, map<string, Params>> := map[
    "monthly" := map[
      "stochRsi" := map["rsi_period" := 7, "stoch_period" := 7, "k_smooth" := 3],
      "crsi" := map["rsi_short_len" := 3, "rsi_streak_len" := 2, "rank_len" := 12],
      "adaptiveRsi" := map["period" := 14, "kama_n" := 5, "kama_fast_ema" := 2, "kama_slow_ema" := 10]
    ],
    "weekly" := map[
      "crsi" := map["rsi_short_len" := 3, "rsi_streak_len" := 2, "rank_len" := 50]
    ]
  ]

  const CompositeMetricsWeights: map<string, real> := map[
    "stochRsi" := 0.30, "crsi" := 0.20, "mfi" := 0.20, "rsi" := 0.15,
    "williamsR" := 0.10, "rvi" := 0.03, "adaptiveRsi" := 0.02
  ]

  const CompositeMetricsThresholds: map<string, real> := map[
    "rsi" := 70.0, "stochRsi" := 80.0, "mfi" := 70.0, "crsi" := 90.0,
    "williamsR" := -20.0, "rvi" := 0.7, "adaptiveRsi" := 70.0
  ]

  const CompositeMetricsNeutralPoints: map<string, real> := map[
    "rsi" := 50.0, "stochRsi" := 50.0, "mfi" := 50.0, "crsi" := 50.0,
    "williamsR" := -50.0, "rvi" := 0.0, "adaptiveRsi" := 50.0
  ]

  /** `DEFAULT_INDICATOR_PARAMS.get(key, {})` */
  function Defaults(key: string): Params {
    if key in DefaultIndicatorParams then DefaultIndicatorParams[key] else map[]
  }

  /**
   * The override dict for a key under a timeframe label; the empty label stands
   * for both `None` and `""`, which Python treats as false.
   */
  function Overrides(key: string, timeframe: string): Params {
    if timeframe != "" && timeframe in TimeframeSpecificParams && key in TimeframeSpecificParams[timeframe]
    then TimeframeSpecificParams[timeframe][key]
    else map[]
  }

  /** `get_indicator_params(key, timeframe)`: a copy of the defaults updated with the overrides. */
  function GetIndicatorParams(key: string, timeframe: string): (r: Params)
    ensures forall p :: p in r <==> p in Defaults(key) || p in Overrides(key, timeframe)
    ensures forall p :: p in Overrides(key, timeframe) ==> r[p] == Overrides(key, timeframe)[p]
    ensures forall p :: p in Defaults(key) && p !in Overrides(key, timeframe) ==> r[p] == Defaults(key)[p]
  {
    Defaults(key) + Overrides(key, timeframe)
  }

  /** `params.get(name, default)` */
  function ParamOr(params: Params, name: string, default: int): (r: int)
    ensures name in params ==> r == params[name]
    ensures name !in params ==> r == default
  {
    if name in params then params[name] else default
  }

  // ---- properties of the tables ----

  /** A timeframe without overrides (unknown, `None` or empty) gets the defaults unchanged. */
  lemma UnknownTimeframeGivesDefaults(key: string, timeframe: string)
    requires timeframe !in TimeframeSpecificParams || timeframe == ""
    ensures GetIndicatorParams(key, timeframe) == Defaults(key)
  {
  }

  /** An unknown indicator key gets the empty dict under every timeframe. */
  lemma UnknownKeyGivesEmpty(key: string, timeframe: string)
    requires key !in IndicatorKeys
    ensures GetIndicatorParams(key, timeframe) == map[]
  {
    assert key !in DefaultIndicatorParams;
    if timeframe in TimeframeSpecificParams {
      assert key !in TimeframeSpecificParams[timeframe];
    }
  }

  predicate AllPositive(params: Params) {
    forall p :: p in params ==> params[p] >= 1
  }

  lemma DefaultsPositive(key: string)
    ensures AllPositive(Defaults(key))
  {
    forall k | k in DefaultIndicatorParams ensures AllPositive(DefaultIndicatorParams[k]) {
    }
  }

  lemma OverridesPositive(key: string, timeframe: string)
    ensures AllPositive(Overrides(key, timeframe))
  {
    var monthly, weekly := TimeframeSpecificParams["monthly"], TimeframeSpecificParams["weekly"];
    forall k | k in monthly ensures AllPositive(monthly[k]) {
    }
    forall k | k in weekly ensures AllPositive(weekly[k]) {
    }
  }

  /** Every configured parameter, under every timeframe, is at least 1. */
  lemma ParamsPositive(key: string, timeframe: string, name: string)
    requires name in GetIndicatorParams(key, timeframe)
    ensures GetIndicatorParams(key, timeframe)[name] >= 1
  {
    DefaultsPositive(key);
    OverridesPositive(key, timeframe);
  }

  /** The configured Connors rank length: 12 monthly, 50 weekly, 100 otherwise. */
  lemma CrsiRankLenOverrides()
    ensures GetIndicatorParams("crsi", "monthly")["rank_len"] == 12
    ensures GetIndicatorParams("crsi", "weekly")["rank_len"] == 50
    ensures GetIndicatorParams("crsi", "")["rank_len"] == 100
  {
    assert Overrides("crsi", "monthly") == TimeframeSpecificParams["monthly"]["crsi"];
    assert Overrides("crsi", "weekly") == TimeframeSpecificParams["weekly"]["crsi"];
  }

  /** Every timeframe runs Connors RSI with a 3-bar price RSI and a 2-bar streak RSI. */
  lemma CrsiShortAndStreak(timeframe: string)
    ensures "rsi_short_len" in GetIndicatorParams("crsi", timeframe)
    ensures "rsi_streak_len" in GetIndicatorParams("crsi", timeframe)
    ensures GetIndicatorParams("crsi", timeframe)["rsi_short_len"] == 3
    ensures GetIndicatorParams("crsi", timeframe)["rsi_streak_len"] == 2
  {
    var o := Overrides("crsi", timeframe);
    assert o == map[] || o == TimeframeSpecificParams["monthly"]["crsi"] || o == TimeframeSpecificParams["weekly"]["crsi"];
  }

  /** Monthly Stochastic RSI uses 7-bar windows; weekly keeps the default 14. */
  lemma StochRsiOverrides()
    ensures GetIndicatorParams("stochRsi", "monthly")["stoch_period"] == 7
    ensures GetIndicatorParams("stochRsi", "weekly")["stoch_period"] == 14
  {
    assert Overrides("stochRsi", "weekly") == map[];
    assert Overrides("stochRsi", "monthly") == TimeframeSpecificParams["monthly"]["stochRsi"];
  }

  /** The weights, thresholds and neutral points cover exactly the seven indicator keys. */
  lemma CompositeTablesCoverIndicators()
    ensures CompositeMetricsWeights.Keys == CompositeMetricsThresholds.Keys
    ensures CompositeMetricsThresholds.Keys == CompositeMetricsNeutralPoints.Keys
    ensures forall k :: k in CompositeMetricsWeights <==> k in IndicatorKeys
  {
  }

  /** The composite weights are positive and sum to one. */
  lemma WeightsSumToOne()
    ensures forall k :: k in CompositeMetricsWeights ==> CompositeMetricsWeights[k] > 0.0
    ensures CompositeMetricsWeights["stochRsi"] + CompositeMetricsWeights["crsi"]
            + CompositeMetricsWeights["mfi"] + CompositeMetricsWeights["rsi"]
            + CompositeMetricsWeights["williamsR"] + CompositeMetricsWeights["rvi"]
            + CompositeMetricsWeights["adaptiveRsi"] == 1.0
  {
  }

  /** Every threshold lies strictly above its neutral point. */
  lemma ThresholdAboveNeutral(k: string)
    requires k in CompositeMetricsThresholds
    ensures k in CompositeMetricsNeutralPoints
    ensures CompositeMetricsThresholds[k] - CompositeMetricsNeutralPoints[k] > 0.0
  {
  }
}
