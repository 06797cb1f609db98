/**
 * The two price APIs (backend/api_clients.py). A request's reply comes from an
 * oracle: CoinGecko's by date and attempt, Kraken's by the `since` parameter
 * and attempt. Each client retries on its own rules; a run records the
 * record it returns, how many requests it made and the sleeps it asked for.
 */
module ApiClients {
  import opened Wrappers
  import opened Calendar
  import opened Records

  /** What one call of a client did. */
  datatype Run = Run(result: Option<Ohlcv>, requests: nat, sleeps: seq<real>)

  /** Sleeps taken before the rest of a run. */
  function Then(sleeps: seq<real>, r: Run): Run {
    Run(r.result, r.requests, sleeps + r.sleeps)
  }

  /** Prefixing two lists of sleeps one after the other prefixes their concatenation. */
  lemma ThenJoin(a: seq<real>, b: seq<real>, r: Run)
    ensures Then(a, Then(b, r)) == Then(a + b, r)
  {
    assert a + (b + r.sleeps) == (a + b) + r.sleeps;
  }

  // ---- CoinGecko ----

  /**
   * One reply to `/coins/bitcoin/history`: the decoded payload (`usdPrice` is
   * None when `market_data.current_price.usd` is missing, `usdVolume` when
   * `market_data.total_volume.usd` is), an HTTP error status, a failed request
   * (connection or timeout), or any other exception.
   */
  datatype CgReply =
    | CgPayload(usdPrice: Option<real>, usdVolume: Option<real>)
    | CgHttpError(status: int)
    | CgRequestError
    | CgUnexpected

  /** The record built from a price: one value for open, high, low and close, volume 0 when absent. */
  function CgRecord(price: real, volume: Option<real>): (v: Ohlcv)
    ensures v.open == v.high == v.low == v.close == price && v.source == "coingecko"
  {
    Ohlcv(price, price, price, price, volume.GetOr(0.0), "coingecko")
  }

  /** The pause before attempt `attempt`'s request, whatever its outcome: `delay * attempt` seconds. */
  function AttemptPause(delay: real, attempt: nat): real {
    delay * attempt as real
  }

  /** The extra pause after a 429: `delay * (attempt + 1) * 2` seconds. */
  function RateLimitPause(delay: real, attempt: nat): real {
    delay * (attempt + 1) as real * 2.0
  }

  /** The attempts from `attempt` on; a zero price is falsy and counts as missing. */
  function CoinGeckoFrom(replies: (Day, nat) -> CgReply, day: Day, retries: nat, delay: real, attempt: nat): (r: Run)
    decreases retries - attempt
  {
    if attempt >= retries then Run(None, attempt, [])
    else
      var wait := [AttemptPause(delay, attempt)];
      match replies(day, attempt)
      case CgPayload(price, volume) =>
        if price.Some? && price.value != 0.0 then Run(Some(CgRecord(price.value, volume)), attempt + 1, wait)
        else Run(None, attempt + 1, wait)
      case CgHttpError(status) =>
        if status == 429 && attempt != retries - 1 then
          Then(wait + [RateLimitPause(delay, attempt)], CoinGeckoFrom(replies, day, retries, delay, attempt + 1))
        else Run(None, attempt + 1, wait)
      case CgRequestError =>
        if attempt == retries - 1 then Run(None, attempt + 1, wait)
        else Then(wait, CoinGeckoFrom(replies, day, retries, delay, attempt + 1))
      case CgUnexpected => Run(None, attempt + 1, wait)
  }

  /** `CoinGeckoAPI.get_ohlcv_for_date(date, retries, delay)` */
  method CoinGeckoGetOhlcvForDate(replies: (Day, nat) -> CgReply, day: Day, retries: nat, delay: real)
    returns (run: Run)
    ensures run == CoinGeckoFrom(replies, day, retries, delay, 0)
  {
    var sleeps: seq<real> := [];
    for attempt := 0 to retries
      invariant CoinGeckoFrom(replies, day, retries, delay, 0) == Then(sleeps, CoinGeckoFrom(replies, day, retries, delay, attempt))
    {
      ghost var before := sleeps;
      sleeps := sleeps + [AttemptPause(delay, attempt)];
      match replies(day, attempt) {
        case CgPayload(price, volume) =>
          if price.Some? && price.value != 0.0 {
            return Run(Some(CgRecord(price.value, volume)), attempt + 1, sleeps);
          }
          return Run(None, attempt + 1, sleeps);
        case CgHttpError(status) =>
          if status == 429 {
            if attempt == retries - 1 {
              return Run(None, attempt + 1, sleeps);
            }
            CoinGeckoRateLimitRetried(replies, day, retries, delay, attempt);
            ThenJoin(before, [AttemptPause(delay, attempt), RateLimitPause(delay, attempt)],
                     CoinGeckoFrom(replies, day, retries, delay, attempt + 1));
            sleeps := sleeps + [RateLimitPause(delay, attempt)];
            continue;
          }
          return Run(None, attempt + 1, sleeps);
        case CgRequestError =>
          if attempt == retries - 1 {
            return Run(None, attempt + 1, sleeps);
          }
          ThenJoin(before, [AttemptPause(delay, attempt)], CoinGeckoFrom(replies, day, retries, delay, attempt + 1));
        case CgUnexpected =>
          return Run(None, attempt + 1, sleeps);
      }
    }
    run := Run(None, retries, sleeps);
  }

  /** A CoinGecko run makes at most `retries` requests, and a record comes from a priced payload of its last request. */
  lemma {:induction false} CoinGeckoRunFacts(replies: (Day, nat) -> CgReply, day: Day, retries: nat, delay: real, attempt: nat)
    requires attempt <= retries
    ensures var r := CoinGeckoFrom(replies, day, retries, delay, attempt);
            attempt <= r.requests <= retries
            && (r.result.Some? ==>
                  r.requests >= 1
                  && replies(day, r.requests - 1).CgPayload?
                  && var p := replies(day, r.requests - 1);
                  p.usdPrice.Some? && p.usdPrice.value != 0.0 && r.result.value == CgRecord(p.usdPrice.value, p.usdVolume))
    decreases retries - attempt
  {
    if attempt < retries {
      match replies(day, attempt)
      case CgPayload(_, _) =>
      case CgHttpError(status) =>
        if status == 429 && attempt != retries - 1 {
          CoinGeckoRunFacts(replies, day, retries, delay, attempt + 1);
        }
      case CgRequestError =>
        if attempt != retries - 1 {
          CoinGeckoRunFacts(replies, day, retries, delay, attempt + 1);
        }
      case CgUnexpected =>
    }
  }

  /** A payload without a price ends the run at once with no record: it is not retried. */
  lemma CoinGeckoNoPriceNoRetry(replies: (Day, nat) -> CgReply, day: Day, retries: nat, delay: real, attempt: nat)
    requires attempt < retries
    requires replies(day, attempt).CgPayload? && replies(day, attempt).usdPrice.None?
    ensures CoinGeckoFrom(replies, day, retries, delay, attempt) == Run(None, attempt + 1, [delay * attempt as real])
  {
  }

  /** A 429 before the last attempt sleeps `delay * attempt`, then `delay * (attempt + 1) * 2`, and tries again. */
  lemma CoinGeckoRateLimitRetried(replies: (Day, nat) -> CgReply, day: Day, retries: nat, delay: real, attempt: nat)
    requires attempt + 1 < retries && replies(day, attempt) == CgHttpError(429)
    ensures CoinGeckoFrom(replies, day, retries, delay, attempt)
         == Then([delay * attempt as real, delay * (attempt + 1) as real * 2.0], CoinGeckoFrom(replies, day, retries, delay, attempt + 1))
  {
  }

  // ---- Kraken ----

  /** `[time, open, high, low, close, vwap, volume, count]` */
  datatype Candle = Candle(time: int, open: real, high: real, low: real, close: real, vwap: real, volume: real, count: int)

  /** The payload's `error` list: empty, containing the rate-limit message, or holding another error. */
  datatype KrakenError = NoError | RateLimitExceeded | OtherError

  /** One reply to the OHLC request: the decoded payload, an HTTP error status, a failed request, or any other exception. */
  datatype KrReply =
    | KrPayload(error: KrakenError, result: map<string, seq<Candle>>)
    | KrHttpError(status: int)
    | KrRequestError
    | KrUnexpected

  const Pair: string := "XXBTZUSD"
  /** `pair.replace("XXBT", "XBT")` */
  const AltPair: string := "XBTZUSD"
  const DaySeconds: int := 86400

  /** Statuses retried while attempts remain. */
  predicate RetriedStatus(status: int) {
    status == 500 || status == 502 || status == 503 || status == 504 || status == 520
  }

  /** The candle list under the pair's key, or its alternative spelling; None when missing or empty (falsy). */
  function CandlesOf(result: map<string, seq<Candle>>): (r: Option<seq<Candle>>)
    ensures r.Some? ==> |r.value| > 0
  {
    var key := if Pair in result then Some(Pair) else if AltPair in result then Some(AltPair) else None;
    if key.Some? && |result[key.value]| > 0 then Some(result[key.value]) else None
  }

  /** The `since` parameter of each attempt: the target's midnight first, one day earlier after that. */
  function Since(target: int, attempt: nat): int {
    if attempt == 0 then target else target - DaySeconds
  }

  function Pow2(k: nat): (r: nat)
    ensures r >= 1
  {
    if k == 0 then 1 else 2 * Pow2(k - 1)
  }

  /** The pause before attempt k: `delay * 2^k` seconds. */
  function SleepBefore(delay: real, k: nat): real {
    delay * Pow2(k) as real
  }

  function CandleRecord(c: Candle, source: string): Ohlcv {
    Ohlcv(c.open, c.high, c.low, c.close, c.volume, source)
  }

  /** The first candle opening exactly at `target`. */
  function ExactCandle(cs: seq<Candle>, target: int): (r: Option<Candle>)
    ensures r.Some? ==> exists i :: 0 <= i < |cs| && cs[i] == r.value && cs[i].time == target
                                   && forall j :: 0 <= j < i ==> cs[j].time != target
    ensures r.None? ==> forall i :: 0 <= i < |cs| ==> cs[i].time != target
  {
    if |cs| == 0 then None
    else if cs[0].time == target then Some(cs[0])
    else
      var r := ExactCandle(cs[1..], target);
      assert forall j :: 0 <= j < |cs| - 1 ==> cs[1..][j] == cs[j + 1];
      if r.Some? then
        var i :| 0 <= i < |cs| - 1 && cs[1..][i] == r.value && cs[1..][i].time == target
                 && forall j :: 0 <= j < i ==> cs[1..][j].time != target;
        assert cs[i + 1] == r.value && forall j :: 0 <= j < i + 1 ==> cs[j].time != target;
        r
      else r
  }

  /** The first candle opening on the target's day. */
  function SameDayCandle(cs: seq<Candle>, target: int): (r: Option<Candle>)
    ensures r.Some? ==> exists i :: 0 <= i < |cs| && cs[i] == r.value && DayOf(cs[i].time) == DayOf(target)
                                   && forall j :: 0 <= j < i ==> DayOf(cs[j].time) != DayOf(target)
    ensures r.None? ==> forall i :: 0 <= i < |cs| ==> DayOf(cs[i].time) != DayOf(target)
  {
    if |cs| == 0 then None
    else if DayOf(cs[0].time) == DayOf(target) then Some(cs[0])
    else
      var r := SameDayCandle(cs[1..], target);
      assert forall j :: 0 <= j < |cs| - 1 ==> cs[1..][j] == cs[j + 1];
      if r.Some? then
        var i :| 0 <= i < |cs| - 1 && cs[1..][i] == r.value && DayOf(cs[1..][i].time) == DayOf(target)
                 && forall j :: 0 <= j < i ==> DayOf(cs[1..][j].time) != DayOf(target);
        assert cs[i + 1] == r.value && forall j :: 0 <= j < i + 1 ==> DayOf(cs[j].time) != DayOf(target);
        r
      else r
  }

  /**
   * The candle choice: the first candle opening exactly at the target, else,
   * when `since` was widened, the first candle opening on the target's day.
   */
  function Pick(cs: seq<Candle>, target: int, since: int): (r: Option<Ohlcv>)
    ensures r.Some? ==> r.value.source == "kraken" || (r.value.source == "kraken_adjusted_time" && since < target)
    ensures (exists i :: 0 <= i < |cs| && cs[i].time == target) ==>
              exists i :: 0 <= i < |cs| && cs[i].time == target && (forall j :: 0 <= j < i ==> cs[j].time != target)
                          && r == Some(CandleRecord(cs[i], "kraken"))
    ensures (forall i :: 0 <= i < |cs| ==> cs[i].time != target) && since < target
            && (exists i :: 0 <= i < |cs| && DayOf(cs[i].time) == DayOf(target)) ==>
              exists i :: 0 <= i < |cs| && DayOf(cs[i].time) == DayOf(target)
                          && (forall j :: 0 <= j < i ==> DayOf(cs[j].time) != DayOf(target))
                          && r == Some(CandleRecord(cs[i], "kraken_adjusted_time"))
    ensures r.None? <==> (forall i :: 0 <= i < |cs| ==> cs[i].time != target)
                         && (since >= target || forall i :: 0 <= i < |cs| ==> DayOf(cs[i].time) != DayOf(target))
  {
    match ExactCandle(cs, target)
    case Some(c) => Some(CandleRecord(c, "kraken"))
    case None =>
      if since < target then
        match SameDayCandle(cs, target)
        case Some(c) => Some(CandleRecord(c, "kraken_adjusted_time"))
        case None => None
      else None
  }

  /** The attempts from `attempt` on, for the day starting at `target`. */
  function KrakenFrom(replies: (int, nat) -> KrReply, target: int, retries: nat, delay: real, attempt: nat): (r: Run)
    decreases retries - attempt
  {
    if attempt >= retries then Run(None, attempt, [])
    else
      var since := Since(target, attempt);
      var wait := if attempt > 0 then [SleepBefore(delay, attempt)] else [];
      match replies(since, attempt)
      case KrPayload(error, result) =>
        if error != NoError then
          if error == RateLimitExceeded && attempt < retries - 1 then
            Then(wait, KrakenFrom(replies, target, retries, delay, attempt + 1))
          else Run(None, attempt + 1, wait)
        else
          (match CandlesOf(result)
           case None => Run(None, attempt + 1, wait)
           case Some(cs) => Run(Pick(cs, target, since), attempt + 1, wait))
      case KrHttpError(status) =>
        if RetriedStatus(status) && attempt < retries - 1 then
          Then(wait, KrakenFrom(replies, target, retries, delay, attempt + 1))
        else Run(None, attempt + 1, wait)
      case KrRequestError =>
        if attempt == retries - 1 then Run(None, attempt + 1, wait)
        else Then(wait, KrakenFrom(replies, target, retries, delay, attempt + 1))
      case KrUnexpected => Run(None, attempt + 1, wait)
  }

  /** A rate-limit error, a retried HTTP status or a failed request before the last attempt: pause and try again. */
  lemma KrakenRetried(replies: (int, nat) -> KrReply, target: int, retries: nat, delay: real, attempt: nat)
    requires attempt + 1 < retries
    requires var reply := replies(Since(target, attempt), attempt);
             (reply.KrPayload? && reply.error == RateLimitExceeded)
             || (reply.KrHttpError? && RetriedStatus(reply.status)) || reply.KrRequestError?
    ensures KrakenFrom(replies, target, retries, delay, attempt)
         == Then(if attempt > 0 then [SleepBefore(delay, attempt)] else [], KrakenFrom(replies, target, retries, delay, attempt + 1))
  {
  }

  /**
   * `KrakenAPI.get_ohlcv_for_date(date, retries, delay_seconds)`, with the
   * pair `XXBTZUSD` and daily interval. `paramsSince` is `params['since']`
   * of the previous attempt.
   */
  method KrakenGetOhlcvForDate(replies: (int, nat) -> KrReply, ts: int, retries: nat, delay: real)
    returns (run: Run)
    ensures run == KrakenFrom(replies, Midnight(ts), retries, delay, 0)
  {
    var target := Midnight(ts);
    var currentSince := target;
    var paramsSince := 0;
    var sleeps: seq<real> := [];
    for attempt := 0 to retries
      invariant currentSince == if attempt <= 1 then target else target - DaySeconds
      invariant attempt > 0 ==> paramsSince == Since(target, attempt - 1)
      invariant KrakenFrom(replies, target, retries, delay, 0) == Then(sleeps, KrakenFrom(replies, target, retries, delay, attempt))
    {
      if attempt > 0 && paramsSince == target {
        currentSince := target - DaySeconds;
      }
      paramsSince := currentSince;
      assert paramsSince == Since(target, attempt);
      ghost var before := sleeps;
      ghost var wait: seq<real> := if attempt > 0 then [SleepBefore(delay, attempt)] else [];
      if attempt > 0 {
        sleeps := sleeps + [SleepBefore(delay, attempt)];
      }
      assert sleeps == before + wait;
      ghost var next := KrakenFrom(replies, target, retries, delay, attempt + 1);
      match replies(paramsSince, attempt) {
        case KrPayload(error, result) =>
          if error != NoError {
            if error == RateLimitExceeded && attempt < retries - 1 {
              KrakenRetried(replies, target, retries, delay, attempt);
              ThenJoin(before, wait, next);
              continue;
            }
            return Run(None, attempt + 1, sleeps);
          }
          var found := CandlesOf(result);
          if found.None? {
            return Run(None, attempt + 1, sleeps);
          }
          var candles := found.value;
          // The retry on an empty list at attempt 0 cannot fire: only a non-empty list gets here.
          assert |candles| > 0;
          var picked := ScanCandles(candles, target, currentSince);
          return Run(picked, attempt + 1, sleeps);
        case KrHttpError(status) =>
          if RetriedStatus(status) && attempt < retries - 1 {
            KrakenRetried(replies, target, retries, delay, attempt);
            ThenJoin(before, wait, next);
            continue;
          }
          return Run(None, attempt + 1, sleeps);
        case KrRequestError =>
          if attempt == retries - 1 {
            return Run(None, attempt + 1, sleeps);
          }
          KrakenRetried(replies, target, retries, delay, attempt);
          ThenJoin(before, wait, next);
        case KrUnexpected =>
          return Run(None, attempt + 1, sleeps);
      }
    }
    run := Run(None, retries, sleeps);
  }

  /** The two candle scans of one attempt. */
  method ScanCandles(candles: seq<Candle>, target: int, since: int) returns (r: Option<Ohlcv>)
    ensures r == Pick(candles, target, since)
  {
    for i := 0 to |candles|
      invariant ExactCandle(candles, target) == ExactCandle(candles[i..], target)
    {
      assert candles[i..][1..] == candles[i + 1..];
      if candles[i].time == target {
        return Some(CandleRecord(candles[i], "kraken"));
      }
    }
    if since < target {
      for i := 0 to |candles|
        invariant SameDayCandle(candles, target) == SameDayCandle(candles[i..], target)
      {
        assert candles[i..][1..] == candles[i + 1..];
        if DayOf(candles[i].time) == DayOf(target) {
          return Some(CandleRecord(candles[i], "kraken_adjusted_time"));
        }
      }
    }
    r := None;
  }

  /** The `since` an attempt sends is the day's midnight on the first attempt and one day earlier on every later one. */
  lemma SinceWidened(target: int, attempt: nat)
    ensures attempt == 0 ==> Since(target, attempt) == target
    ensures attempt > 0 ==> Since(target, attempt) == target - DaySeconds
  {
  }

  /** The sleeps from attempt `from` up to (not including) `upTo`: `delay * 2^k` before attempt k. */
  function Backoff(delay: real, from: nat, upTo: nat): (s: seq<real>)
    ensures |s| == if upTo >= from then upTo - from else 0
    decreases upTo - from
  {
    if from >= upTo then [] else [SleepBefore(delay, from)] + Backoff(delay, from + 1, upTo)
  }

  /**
   * A Kraken run makes at most `retries` requests and sleeps `delay * 2^k`
   * before each attempt k > 0; a record names one of the two Kraken sources,
   * and a same-day (`kraken_adjusted_time`) record needs at least two requests,
   * since `since` is widened only on a retry.
   */
  lemma {:induction false} KrakenRunFacts(replies: (int, nat) -> KrReply, target: int, retries: nat, delay: real, attempt: nat)
    requires attempt <= retries
    ensures var r := KrakenFrom(replies, target, retries, delay, attempt);
            attempt <= r.requests <= retries
            && r.sleeps == Backoff(delay, if attempt == 0 then 1 else attempt, r.requests)
            && (r.result.Some? && r.result.value.source == "kraken_adjusted_time" ==> r.requests >= 2)
            && (r.result.Some? ==> r.result.value.source in {"kraken", "kraken_adjusted_time"})
    decreases retries - attempt
  {
    if attempt < retries {
      var since := Since(target, attempt);
      var next := KrakenFrom(replies, target, retries, delay, attempt + 1);
      KrakenRunFacts(replies, target, retries, delay, attempt + 1);
      assert next.requests >= attempt + 1;
      if attempt > 0 {
        var first, rest := SleepBefore(delay, attempt), Backoff(delay, attempt + 1, next.requests);
        assert Backoff(delay, attempt, next.requests) == [first] + rest;
      }
    }
  }

  /** A reply with no candles for the pair ends the run with no record: there is no retry with a wider `since`. */
  lemma KrakenNoCandlesNoRetry(replies: (int, nat) -> KrReply, target: int, retries: nat, delay: real, attempt: nat)
    requires attempt < retries
    requires var reply := replies(Since(target, attempt), attempt);
             reply.KrPayload? && reply.error == NoError && CandlesOf(reply.result).None?
    ensures KrakenFrom(replies, target, retries, delay, attempt).result.None?
    ensures KrakenFrom(replies, target, retries, delay, attempt).requests == attempt + 1
  {
  }
}
