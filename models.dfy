/**
 * The three records of the trading side: a parsed signal, the plan
 * settings and one mock exchange order.  Prices and quantities are real
 * numbers (Python floats without their rounding).
 */
module Models {
  import opened Wrappers

  /** A trade signal as read from a Telegram message. */
  datatype TradeSignal = TradeSignal(
    side: string,
    symbol: string,
    entryLow: real,
    entryHigh: real,
    entryPm: real,
    sl: real,
    levMin: Option<real>,
    levMax: Option<real>,
    tps: seq<real>,
    tags: seq<string>,
    notes: Option<string> := None)

  /** How an order plan is sized; `tpAlloc` is meant to sum to 1. */
  datatype PlanConfig = PlanConfig(
    tpAlloc: seq<real>,
    riskPct: Option<real> := None,
    balanceUsdt: Option<real> := None,
    pricePrecision: int := 2,
    qtyPrecision: int := 4,
    usePostOnly: bool := true)

  /** One order of the mock plan. */
  datatype Order = Order(
    kind: string,
    side: string,
    symbol: string,
    price: Option<real>,
    qty: real,
    tag: string,
    reduceOnly: bool := false,
    postOnly: bool := false)

  /** The defaults of the three records. */
  lemma Defaults(alloc: seq<real>, s: TradeSignal)
    ensures TradeSignal(s.side, s.symbol, s.entryLow, s.entryHigh, s.entryPm, s.sl, s.levMin, s.levMax, s.tps, s.tags).notes == None
    ensures var c := PlanConfig(alloc);
            c.riskPct == None && c.balanceUsdt == None && c.pricePrecision == 2 && c.qtyPrecision == 4 && c.usePostOnly
    ensures var o := Order("LIMIT", "Buy", "ETHUSDT", None, 0.0, "ENTRY");
            !o.reduceOnly && !o.postOnly
  {
  }
}
