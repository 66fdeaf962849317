/** Entities of internal/domain/types.go and internal/service/alert.go. */
module Domain {
  import opened Prelude

  /** Instants are integer nanoseconds; period boundaries are whole minutes. */
  type Nanos = int
  type Minutes = int

  const SECOND: Nanos := 1_000_000_000
  const MINUTE: Nanos := 60_000_000_000
  const MINUTES_PER_DAY: Minutes := 1440

  /** Go's zero time, which IsZero tests for, in minutes and nanoseconds. */
  const ZERO_MINUTE: Minutes := -1_035_593_280
  const ZERO_TIME: Nanos := ZERO_MINUTE * MINUTE

  type Interval = string
  type MarketProvider = string
  type Symbol = string

  const BINANCE: MarketProvider := "binance"
  const COIN_MARKET_CAP: MarketProvider := "coinmarketcap"

  /** The supported intervals and their lengths; "10m" is named by the program but not supported. */
  function Duration(interval: Interval): (d: Option<Minutes>)
    ensures d.Some? ==> d.value in {1, 3, 5, 15, 30, 60, 120, 240, 360, 480, 720, 1440, 4320, 10080}
  {
    if interval == "1m" then Some(1)
    else if interval == "3m" then Some(3)
    else if interval == "5m" then Some(5)
    else if interval == "15m" then Some(15)
    else if interval == "30m" then Some(30)
    else if interval == "1h" then Some(60)
    else if interval == "2h" then Some(120)
    else if interval == "4h" then Some(240)
    else if interval == "6h" then Some(360)
    else if interval == "8h" then Some(480)
    else if interval == "12h" then Some(720)
    else if interval == "1d" then Some(1440)
    else if interval == "3d" then Some(4320)
    else if interval == "1w" then Some(10080)
    else None
  }

  predicate KnownProvider(provider: MarketProvider) {
    provider == BINANCE || provider == COIN_MARKET_CAP
  }

  datatype Period = Period(interval: Interval, start: Minutes, end: Minutes) {
    predicate Valid() {
      && Duration(interval).Some?
      && start != ZERO_MINUTE && end != ZERO_MINUTE
      && start < end
    }
  }

  datatype ChatProvider = Telegram | Slack | LegacyChat

  datatype Target = Target(id: string, chat: ChatProvider, externalChatId: string)

  datatype AlertConfig = AlertConfig(
    provider: MarketProvider,
    enabled: bool,
    symbols: seq<Symbol>,
    intervals: seq<Interval>,
    version: nat,
    updatedBy: string)

  datatype Candle = Candle(
    symbol: Symbol, open: real, high: real, low: real, close: real, volume: real,
    openTime: Nanos, closeTime: Nanos)
  {
    predicate Valid() {
      && symbol != "" && open > 0.0 && high > 0.0 && low > 0.0 && close > 0.0 && volume >= 0.0
      && openTime != ZERO_TIME && closeTime != ZERO_TIME && closeTime > openTime
      && high >= open && high >= close && low <= open && low <= close && high >= low
    }
  }

  datatype PriceChange = PriceChange(symbol: Symbol, open: real, close: real, changePct: real, volume: real)

  /** The change a candle shows, when it lies inside the period (with one second of slack at the end). */
  function CalculateChange(candle: Candle, period: Period): Option<PriceChange> {
    if !candle.Valid() then None
    else if candle.openTime < period.start * MINUTE || candle.closeTime > period.end * MINUTE + SECOND then None
    else Some(PriceChange(candle.symbol, candle.open, candle.close,
                          (candle.close - candle.open) / candle.open * 100.0, candle.volume))
  }
}
