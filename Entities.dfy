/**
 * Value types shared by the chart-info multiplexer and the CoinGecko provider.
 * Prices, rates and volumes are integers: the decimal arithmetic of the
 * original is not part of this model.
 */
module Entities {

  /** The fields of a chart type that the provider reads: history depth in days,
      number of points per chart (halved) and the spacing of points in seconds. */
  datatype ChartType = ChartType(name: string, days: int, interval: int, seconds: int)

  /** Identity of one shared chart stream. */
  datatype ChartInfoKey = ChartInfoKey(coin: string, currency: string, chartType: ChartType)

  /** Identity of one latest-rate stream (a chart key without its chart type). */
  datatype MarketInfoKey = MarketInfoKey(coin: string, currency: string)

  /** A chart update; the multiplexer only forwards it. */
  datatype ChartInfo = ChartInfo(points: seq<ChartPointEntity>)

  /** One stored chart point. */
  datatype ChartPointEntity = ChartPointEntity(
    chartType: ChartType, coin: string, currency: string,
    value: int, volume: int, timestamp: int)
}
