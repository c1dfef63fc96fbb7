/**
 * The host platform's types that the datafeed consumes and produces:
 * the exchange and interval enumerations, time zones and datetimes, the
 * history request (which the datafeed updates in place) and the bar record.
 */
module Vnpy {
  import opened Wrappers

  /** The host's exchanges that the datafeed distinguishes; the others behave like SHFE. */
  datatype Exchange = CFFEX | SHFE | CZCE | DCE | INE | GFEX | SSE | SZSE
  {
    /** The enumeration's string value, as used in vendor identifiers. */
    function Value(): string
    {
      match this
      case CFFEX => "CFFEX"
      case SHFE => "SHFE"
      case CZCE => "CZCE"
      case DCE => "DCE"
      case INE => "INE"
      case GFEX => "GFEX"
      case SSE => "SSE"
      case SZSE => "SZSE"
    }
  }

  datatype Interval = Minute | Hour | Daily | Weekly | Tick
  {
    function Value(): string
    {
      match this
      case Minute => "1m"
      case Hour => "1h"
      case Daily => "d"
      case Weekly => "w"
      case Tick => "tick"
    }
  }

  /** A time zone, identified by its key, with a fixed offset from UTC in seconds. */
  datatype Zone = Zone(key: string, utcOffset: int)

  const Shanghai: Zone := Zone("Asia/Shanghai", 8 * 60 * 60)

  /**
   * A datetime: the local wall-clock reading in whole seconds since
   * 1970-01-01 00:00:00 of that clock, and its zone (`None` when naive).
   */
  datatype DateTime = DateTime(wall: int, tz: Option<Zone>)
  {
    /** `datetime.replace(tzinfo=zone)`: same wall clock, new zone. */
    function WithZone(zone: Zone): DateTime
    {
      DateTime(wall, Some(zone))
    }
  }

  /** One bar of the host platform. Prices and volumes are copied, never computed. */
  datatype BarData = BarData(
    symbol: string,
    exchange: Exchange,
    interval: Interval,
    datetime: DateTime,
    openPrice: real,
    highPrice: real,
    lowPrice: real,
    closePrice: real,
    volume: real,
    openInterest: real,
    gatewayName: string)

  /** The host's history request; the datafeed rewrites its symbol and times. */
  class HistoryRequest {
    var symbol: string
    var exchange: Exchange
    var start: DateTime
    var end: DateTime
    var interval: Interval

    constructor (symbol: string, exchange: Exchange, start: DateTime, end: DateTime, interval: Interval)
      ensures this.symbol == symbol && this.exchange == exchange
      ensures this.start == start && this.end == end && this.interval == interval
    {
      this.symbol := symbol;
      this.exchange := exchange;
      this.start := start;
      this.end := end;
      this.interval := interval;
    }
  }
}
