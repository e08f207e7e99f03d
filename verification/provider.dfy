/**
 * The historical-candle call of the market-data provider, as both scripts
 * see it: the request they build and the reply shapes they test. The call
 * itself is not modelled; its replies are inputs.
 */
module Provider {
  import opened Candles

  /** A time of day on the exchange's clock. */
  datatype Clock = Clock(hour: nat, minute: nat)

  /** The `historicParam` dictionary; `D` is how a calendar day is written. */
  datatype Request<D> = Request(exchange: string, symbolToken: string, interval: string,
                                fromDate: D, fromClock: Clock, toDate: D, toClock: Clock)

  /** The `"data"` entry of a reply: absent, JSON null, or a list of records. */
  datatype DataField = Absent | Null | Records(records: seq<RawCandle>)

  /** One call's outcome: it raised, it returned None, or it returned a dictionary. */
  datatype Reply = Raised | NoReply | Dict(data: DataField, otherKeys: nat)

  const Symbol := "NIFTY"
  const SymbolToken := "99926000"
  const Exchange := "NSE"
  const Interval := "ONE_MINUTE"

  /** The request window is widened to the trading session: 09:00 on the first day to 15:30 on the last. */
  const SessionOpen := Clock(9, 0)
  const SessionClose := Clock(15, 30)

  /** `historicParam` for the days `from` and `to`. */
  function HistoricParam<D>(from: D, to: D): (r: Request<D>)
    ensures r.fromDate == from && r.fromClock == SessionOpen
    ensures r.toDate == to && r.toClock == SessionClose
    ensures r.exchange == Exchange && r.symbolToken == SymbolToken && r.interval == Interval
  {
    Request(Exchange, SymbolToken, Interval, from, SessionOpen, to, SessionClose)
  }

  /** Python truthiness of a dictionary reply: it has at least one key. */
  predicate NonEmptyDict(r: Reply)
    requires r.Dict?
  {
    r.data != Absent || r.otherKeys > 0
  }

  /** Python truthiness of the `"data"` entry: a non-empty list. */
  predicate Truthy(d: DataField) {
    d.Records? && |d.records| > 0
  }

  /**
   * `response and "data" in response and response["data"]`
   * (historical_data_fetch.py:62): the reply is usable.
   */
  predicate Usable(r: Reply)
    ensures Usable(r) ==> r.Dict? && r.data.Records? && |r.data.records| > 0
    ensures r.Dict? && !r.data.Records? ==> !Usable(r)
  {
    && (r.Dict? && NonEmptyDict(r))
    && r.data != Absent
    && Truthy(r.data)
  }

  /** A reply is usable exactly when it is a dictionary whose data is a non-empty list. */
  lemma UsableMeansRecords(r: Reply)
    ensures Usable(r) <==> r.Dict? && r.data.Records? && |r.data.records| > 0
  {
  }
}
