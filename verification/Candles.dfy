/** The candle record shared by the providers and the aggregation (packages/core/src/domains.ts). */
module Candles {
  datatype Source = BinanceSpot | BybitSpot | Mt5Bridge

  datatype Candle = Candle(
    openTime: int, closeTime: int, open: real, high: real, low: real, close: real, volume: real, source: Source)

  datatype Timeframe = M5 | M15 | H1 | H4

  function TimeframeText(tf: Timeframe): string {
    match tf
    case M5 => "5m"
    case M15 => "15m"
    case H1 => "1h"
    case H4 => "4h"
  }
}
