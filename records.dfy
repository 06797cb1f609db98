/**
 * The dictionaries that flow between the backend's modules: a daily OHLCV record,
 * an indicator set, the monthly/weekly pairs handed to the composite scorer,
 * the composite scores and the price outcomes.
 */
module Records {
  import opened Wrappers

  /** `data_values`: one day of open/high/low/close/volume and where it came from. */
  datatype Ohlcv = Ohlcv(open: real, high: real, low: real, close: real, volume: real, source: string)

  /** The seven indicator keys, in the order the indicator calculator inserts them. */
  const IndicatorKeys: seq<string> := ["rsi", "stochRsi", "mfi", "crsi", "williamsR", "rvi", "adaptiveRsi"]

  /** An indicator dict: key to latest value, None for NaN or missing. */
  type IndicatorMap = map<string, Option<real>>

  /** `d.get(k)`: a missing key reads as None. */
  function Get(m: IndicatorMap, k: string): (r: Option<real>)
    ensures k !in m ==> r == None
    ensures k in m ==> r == m[k]
  {
    if k in m then m[k] else None
  }

  /** `{'monthly': ..., 'weekly': ...}` for one indicator. */
  datatype TfValues = TfValues(monthly: Option<real>, weekly: Option<real>)

  /** `{'cos': {'monthly', 'weekly'}, 'bsi': {'monthly', 'weekly'}}` */
  datatype CompositeMetrics = CompositeMetrics(cosMonthly: real, cosWeekly: real, bsiMonthly: real, bsiWeekly: real)

  const ZeroComposite := CompositeMetrics(0.0, 0.0, 0.0, 0.0)

  datatype Direction = Up | Down | Flat | Unknown

  /** `{'direction', 'percentage', 'price'}` for one horizon. */
  datatype Outcome = Outcome(direction: Direction, percentage: real, price: real)

  const UnknownOutcome := Outcome(Unknown, 0.0, 0.0)

  /** The outcomes dict, always keyed by '1M', '6M' and '12M'. */
  datatype Outcomes = Outcomes(oneMonth: Outcome, sixMonths: Outcome, twelveMonths: Outcome)

  lemma IndicatorKeysDistinct()
    ensures forall i, j :: 0 <= i < j < |IndicatorKeys| ==> IndicatorKeys[i] != IndicatorKeys[j]
  {
  }
}
