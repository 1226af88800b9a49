/**
 * Take-profit allocation, profile choice and the mock order plan
 * (src/helpers.py, first half).  Python's `round(x, n)` is the parameter
 * `rnd` of the plan: the model does not fix how floats are rounded.
 */
module Planner {
  import opened Wrappers
  import opened Text
  import opened Models

  const ScalpProfile := "scalp_mack"
  const SwingProfile := "50_25_25"

  function Sum(s: seq<real>): real
  {
    if |s| == 0 then 0.0 else s[0] + Sum(s[1..])
  }

  function Repeat(x: real, n: nat): (r: seq<real>)
    ensures |r| == n && forall k :: 0 <= k < n ==> r[k] == x
  {
    if n == 0 then [] else [x] + Repeat(x, n - 1)
  }

  lemma {:induction false} SumRepeat(x: real, n: nat)
    ensures Sum(Repeat(x, n)) == n as real * x
  {
    if n > 0 {
      SumRepeat(x, n - 1);
      assert Repeat(x, n)[1..] == Repeat(x, n - 1);
    }
  }

  /** `_alloc_by_profile`: the weight of each take-profit.  Python's `[1.0 / n] * n`
      divides by zero for `n == 0` and gives `[]` for a negative `n`. */
  function AllocByProfile(numTps: int, profile: string): (r: Result<seq<real>, PyError>)
    ensures r.Err? <==> numTps == 0
    ensures r.Err? ==> r.error.ZeroDivisionError?
    ensures r.Ok? ==> |r.value| == if numTps < 0 then 0 else numTps
    ensures r.Ok? && numTps > 0 ==> Sum(r.value) == 1.0
  {
    if numTps == 3 then
      SumTables();
      Ok(if profile == SwingProfile then [0.50, 0.25, 0.25] else [0.35, 0.35, 0.30])
    else if numTps == 4 then SumTables(); Ok([0.35, 0.35, 0.15, 0.15])
    else if numTps == 0 then Err(ZeroDivisionError("float division by zero"))
    else if numTps < 0 then Ok([])
    else
      SumRepeat(1.0 / numTps as real, numTps);
      Ok(Repeat(1.0 / numTps as real, numTps))
  }

  lemma SumTables()
    ensures Sum([0.50, 0.25, 0.25]) == 1.0 && Sum([0.35, 0.35, 0.30]) == 1.0 && Sum([0.35, 0.35, 0.15, 0.15]) == 1.0
  {
    assert [0.50, 0.25, 0.25][1..] == [0.25, 0.25] && [0.25, 0.25][1..] == [0.25];
    assert [0.35, 0.35, 0.30][1..] == [0.35, 0.30] && [0.35, 0.30][1..] == [0.30];
    assert [0.35, 0.35, 0.15, 0.15][1..] == [0.35, 0.15, 0.15] && [0.35, 0.15, 0.15][1..] == [0.15, 0.15] && [0.15, 0.15][1..] == [0.15];
  }

  /** Apart from three and four take-profits, the weight is spread evenly. */
  lemma EvenAllocation(numTps: int, profile: string)
    requires numTps > 0 && numTps != 3 && numTps != 4
    ensures AllocByProfile(numTps, profile).Ok?
    ensures forall k :: 0 <= k < numTps ==> AllocByProfile(numTps, profile).value[k] == 1.0 / numTps as real
  {
  }

  /** Only the three-take-profit table depends on the profile. */
  lemma AllocationTables(profile: string)
    ensures AllocByProfile(3, profile) == Ok(if profile == SwingProfile then [0.50, 0.25, 0.25] else [0.35, 0.35, 0.30])
    ensures AllocByProfile(4, profile) == Ok([0.35, 0.35, 0.15, 0.15])
  {
  }

  /** `alloc_for_signal`: one weight per take-profit of the signal. */
  function AllocForSignal(signal: TradeSignal, profile: string): (r: Result<seq<real>, PyError>)
    ensures |signal.tps| > 0 ==> r.Ok? && |r.value| == |signal.tps| && Sum(r.value) == 1.0
    ensures |signal.tps| == 0 ==> r.Err?
  {
    AllocByProfile(|signal.tps|, profile)
  }

  /** A non-empty keyword occurs in the lower-cased text or the lower-cased tags. */
  predicate KeywordHit(kw: string, textLc: string, tagsLc: string)
  {
    |kw| > 0 && (Contains(textLc, kw) || Contains(tagsLc, kw))
  }

  /** The relative distance test of the automatic profile. */
  predicate FarTarget(signal: TradeSignal, thresholdPct: real)
  {
    |signal.tps| > 0 && signal.entryPm > 0.0
    && Abs(signal.tps[0] - signal.entryPm) / signal.entryPm * 100.0 >= thresholdPct
  }

  function Abs(x: real): real { if x < 0.0 then -x else x }

  /** `choose_tp_profile`. */
  function ChooseTpProfile(signal: TradeSignal, defaultProfile: string, thresholdPct: real,
                           kwScalp: string, kwSwing: string, originalText: Option<string>): string
  {
    var textLc := Lower(if originalText.Some? then originalText.value else "");
    var tagsLc := Lower(Join(signal.tags, " "));
    if KeywordHit(kwScalp, textLc, tagsLc) then ScalpProfile
    else if KeywordHit(kwSwing, textLc, tagsLc) then SwingProfile
    else if defaultProfile != "auto" then defaultProfile
    else if |signal.tps| == 0 then ScalpProfile
    else
      var tp1 := signal.tps[0];
      var pm := signal.entryPm;
      if pm <= 0.0 then ScalpProfile
      else if Abs(tp1 - pm) / pm * 100.0 >= thresholdPct then SwingProfile
      else ScalpProfile
  }

  /** The keyword override comes first, scalp before swing, and beats any default. */
  lemma ProfileKeywordPriority(signal: TradeSignal, defaultProfile: string, thresholdPct: real,
                               kwScalp: string, kwSwing: string, text: string)
    ensures var textLc := Lower(text);
            var tagsLc := Lower(Join(signal.tags, " "));
            var r := ChooseTpProfile(signal, defaultProfile, thresholdPct, kwScalp, kwSwing, Some(text));
            (KeywordHit(kwScalp, textLc, tagsLc) ==> r == ScalpProfile)
            && (!KeywordHit(kwScalp, textLc, tagsLc) && KeywordHit(kwSwing, textLc, tagsLc) ==> r == SwingProfile)
            && (!KeywordHit(kwScalp, textLc, tagsLc) && !KeywordHit(kwSwing, textLc, tagsLc) && defaultProfile != "auto" ==> r == defaultProfile)
  {
  }

  /** A keyword written in capitals in the message still selects its profile. */
  lemma KeywordAnyCase(signal: TradeSignal, defaultProfile: string, thresholdPct: real,
                       kwSwing: string, text: string, word: string)
    requires Contains(text, word) && Lower(word) == "scalp"
    ensures ChooseTpProfile(signal, defaultProfile, thresholdPct, "scalp", kwSwing, Some(text)) == ScalpProfile
  {
    ContainsLower(text, word);
  }

  /** In automatic mode the swing profile is chosen exactly for a far first target. */
  lemma AutoProfile(signal: TradeSignal, thresholdPct: real, kwScalp: string, kwSwing: string, text: Option<string>)
    requires var textLc := Lower(if text.Some? then text.value else "");
             var tagsLc := Lower(Join(signal.tags, " "));
             !KeywordHit(kwScalp, textLc, tagsLc) && !KeywordHit(kwSwing, textLc, tagsLc)
    ensures var r := ChooseTpProfile(signal, "auto", thresholdPct, kwScalp, kwSwing, text);
            (r == SwingProfile <==> FarTarget(signal, thresholdPct))
            && (r == ScalpProfile <==> !FarTarget(signal, thresholdPct))
  {
  }

  /** `calc_qty`: the position size that risks `balance * risk` between entry and stop. */
  function CalcQty(balance: real, risk: real, pm: real, sl: real): (r: Result<real, PyError>)
    ensures r.Err? <==> sl == pm
    ensures r.Err? ==> r.error == ValueError("PM e SL inv\U{E1}lidos para c\U{E1}lculo de quantidade.")
    ensures r.Ok? ==> r.value * Abs(sl - pm) == balance * risk
  {
    var dist := Abs(sl - pm);
    if dist <= 0.0 then Err(ValueError("PM e SL inv\U{E1}lidos para c\U{E1}lculo de quantidade."))
    else Ok(balance * risk / dist)
  }

  predicate TruthyReal(x: Option<real>)
  {
    x.Some? && x.value != 0.0
  }

  /** The total quantity of the plan: sized by risk when both balance and risk are set and non-zero. */
  function QtyTotal(signal: TradeSignal, cfg: PlanConfig): Result<real, PyError>
  {
    if TruthyReal(cfg.balanceUsdt) && TruthyReal(cfg.riskPct) then
      CalcQty(cfg.balanceUsdt.value, cfg.riskPct.value, signal.entryPm, signal.sl)
    else Ok(0.0)
  }

  function EntrySide(signal: TradeSignal): string
  {
    if Upper(signal.side) == "SHORT" then "Sell" else "Buy"
  }

  function ExitSide(signal: TradeSignal): string
  {
    if EntrySide(signal) == "Sell" then "Buy" else "Sell"
  }

  function PlanSymbol(signal: TradeSignal, suffix: string): string
  {
    Upper(signal.symbol) + suffix
  }

  function MinLen(a: nat, b: nat): nat { if a <= b then a else b }

  /** A take-profit's part of the total quantity (`qty_total * frac if qty_total else 0.0`). */
  function Share(qty: real, frac: real): real
  {
    if qty != 0.0 then qty * frac else 0.0
  }

  /** The take-profit order number `i` (0-based) of the plan. */
  function TpOrder(signal: TradeSignal, cfg: PlanConfig, suffix: string, rnd: (real, int) -> real, qty: real, i: nat): Order
    requires i < |signal.tps| && i < |cfg.tpAlloc|
  {
    Order("LIMIT", ExitSide(signal), PlanSymbol(signal, suffix), Some(rnd(signal.tps[i], cfg.pricePrecision)),
          rnd(Share(qty, cfg.tpAlloc[i]), cfg.qtyPrecision), "TP" + IntToString(i + 1), true, cfg.usePostOnly)
  }

  function EntryOrder(signal: TradeSignal, cfg: PlanConfig, suffix: string, rnd: (real, int) -> real, qty: real): Order
  {
    Order("LIMIT", EntrySide(signal), PlanSymbol(signal, suffix), Some(rnd(signal.entryPm, cfg.pricePrecision)),
          if qty != 0.0 then rnd(qty, cfg.qtyPrecision) else 0.0, "ENTRY", false, cfg.usePostOnly)
  }

  function SlOrder(signal: TradeSignal, cfg: PlanConfig, suffix: string, rnd: (real, int) -> real, qty: real): Order
  {
    Order("STOP", ExitSide(signal), PlanSymbol(signal, suffix), Some(rnd(signal.sl, cfg.pricePrecision)),
          rnd(qty, cfg.qtyPrecision), "SL", true, false)
  }

  /** The take-profit orders for the first `n` pairs of the zip of prices and weights. */
  function TpOrders(signal: TradeSignal, cfg: PlanConfig, suffix: string, rnd: (real, int) -> real, qty: real, n: nat): seq<Order>
    requires n <= |signal.tps| && n <= |cfg.tpAlloc|
  {
    seq(n, i requires 0 <= i < n => TpOrder(signal, cfg, suffix, rnd, qty, i))
  }

  /** What `build_order_plan` returns, or the error it raises. */
  function OrderPlan(signal: TradeSignal, cfg: PlanConfig, suffix: string, rnd: (real, int) -> real): Result<seq<Order>, PyError>
  {
    match QtyTotal(signal, cfg)
    case Err(e) => Err(e)
    case Ok(qty) =>
      var n := MinLen(|signal.tps|, |cfg.tpAlloc|);
      Ok([EntryOrder(signal, cfg, suffix, rnd, qty)] + TpOrders(signal, cfg, suffix, rnd, qty, n) + [SlOrder(signal, cfg, suffix, rnd, qty)])
  }

  /** `build_order_plan`: the entry, one order per zipped take-profit, then the stop. */
  method BuildOrderPlan(signal: TradeSignal, cfg: PlanConfig, suffix: string, rnd: (real, int) -> real)
    returns (r: Result<seq<Order>, PyError>)
    ensures r == OrderPlan(signal, cfg, suffix, rnd)
  {
    var qtyTotal := 0.0;
    if TruthyReal(cfg.balanceUsdt) && TruthyReal(cfg.riskPct) {
      var q := CalcQty(cfg.balanceUsdt.value, cfg.riskPct.value, signal.entryPm, signal.sl);
      if q.Err? {
        assert QtyTotal(signal, cfg) == q;
        return Err(q.error);
      }
      qtyTotal := q.value;
    }
    var symbol := Upper(signal.symbol) + suffix;
    var sideEntry := if Upper(signal.side) == "SHORT" then "Sell" else "Buy";
    var sideTp := if sideEntry == "Sell" then "Buy" else "Sell";
    assert QtyTotal(signal, cfg) == Ok(qtyTotal);
    assert symbol == PlanSymbol(signal, suffix) && sideEntry == EntrySide(signal) && sideTp == ExitSide(signal);
    var entry := Order("LIMIT", sideEntry, symbol, Some(rnd(signal.entryPm, cfg.pricePrecision)),
                       if qtyTotal != 0.0 then rnd(qtyTotal, cfg.qtyPrecision) else 0.0, "ENTRY", false, cfg.usePostOnly);
    var n := MinLen(|signal.tps|, |cfg.tpAlloc|);
    var tps := AppendTpOrders(signal, cfg, suffix, rnd, qtyTotal, n, symbol, sideTp);
    var stop := Order("STOP", sideTp, symbol, Some(rnd(signal.sl, cfg.pricePrecision)),
                      rnd(qtyTotal, cfg.qtyPrecision), "SL", true, false);
    OrderPlanOk(signal, cfg, suffix, rnd, qtyTotal);
    r := Ok([entry] + tps + [stop]);
  }

  /** The loop over `zip(signal.tps, tp_alloc)`, appending one take-profit order per pair. */
  method AppendTpOrders(signal: TradeSignal, cfg: PlanConfig, suffix: string, rnd: (real, int) -> real,
                        qtyTotal: real, n: nat, symbol: string, sideTp: string)
    returns (orders: seq<Order>)
    requires n <= |signal.tps| && n <= |cfg.tpAlloc|
    requires symbol == PlanSymbol(signal, suffix) && sideTp == ExitSide(signal)
    ensures orders == TpOrders(signal, cfg, suffix, rnd, qtyTotal, n)
  {
    orders := [];
    var i := 0;
    while i < n
      invariant 0 <= i <= n
      invariant orders == TpOrders(signal, cfg, suffix, rnd, qtyTotal, i)
    {
      var q := Share(qtyTotal, cfg.tpAlloc[i]);
      var o := Order("LIMIT", sideTp, symbol, Some(rnd(signal.tps[i], cfg.pricePrecision)),
                     rnd(q, cfg.qtyPrecision), "TP" + IntToString(i + 1), true, cfg.usePostOnly);
      TpOrdersStep(signal, cfg, suffix, rnd, qtyTotal, i);
      orders := orders + [o];
      i := i + 1;
    }
  }

  /** One more zipped pair appends its take-profit order, as the loop body does. */
  lemma TpOrdersStep(signal: TradeSignal, cfg: PlanConfig, suffix: string, rnd: (real, int) -> real, qty: real, i: nat)
    requires i < |signal.tps| && i < |cfg.tpAlloc|
    ensures TpOrders(signal, cfg, suffix, rnd, qty, i + 1)
            == TpOrders(signal, cfg, suffix, rnd, qty, i)
               + [Order("LIMIT", ExitSide(signal), PlanSymbol(signal, suffix), Some(rnd(signal.tps[i], cfg.pricePrecision)),
                        rnd(Share(qty, cfg.tpAlloc[i]), cfg.qtyPrecision), "TP" + IntToString(i + 1), true, cfg.usePostOnly)]
  {
  }

  lemma OrderPlanOk(signal: TradeSignal, cfg: PlanConfig, suffix: string, rnd: (real, int) -> real, qty: real)
    requires QtyTotal(signal, cfg) == Ok(qty)
    ensures OrderPlan(signal, cfg, suffix, rnd)
            == Ok([EntryOrder(signal, cfg, suffix, rnd, qty)]
                  + TpOrders(signal, cfg, suffix, rnd, qty, MinLen(|signal.tps|, |cfg.tpAlloc|))
                  + [SlOrder(signal, cfg, suffix, rnd, qty)])
  {
  }

  /** The plan fails only when sizing by risk meets a stop equal to the entry. */
  lemma PlanFailsIff(signal: TradeSignal, cfg: PlanConfig, suffix: string, rnd: (real, int) -> real)
    ensures OrderPlan(signal, cfg, suffix, rnd).Err?
            <==> TruthyReal(cfg.balanceUsdt) && TruthyReal(cfg.riskPct) && signal.sl == signal.entryPm
  {
  }

  /** The rows of a plan: the entry, the take-profit orders in zip order, the stop. */
  lemma PlanRows(signal: TradeSignal, cfg: PlanConfig, suffix: string, rnd: (real, int) -> real)
    requires OrderPlan(signal, cfg, suffix, rnd).Ok?
    ensures var p := OrderPlan(signal, cfg, suffix, rnd).value;
            var qty := QtyTotal(signal, cfg).value;
            var k := MinLen(|signal.tps|, |cfg.tpAlloc|);
            |p| == 2 + k && p[0] == EntryOrder(signal, cfg, suffix, rnd, qty)
            && p[|p| - 1] == SlOrder(signal, cfg, suffix, rnd, qty)
            && forall i :: 1 <= i <= k ==> p[i] == TpOrder(signal, cfg, suffix, rnd, qty, i - 1)
  {
    var qty := QtyTotal(signal, cfg).value;
    var k := MinLen(|signal.tps|, |cfg.tpAlloc|);
    OrderPlanOk(signal, cfg, suffix, rnd, qty);
    var tps := TpOrders(signal, cfg, suffix, rnd, qty, k);
    var p := OrderPlan(signal, cfg, suffix, rnd).value;
    assert p == [EntryOrder(signal, cfg, suffix, rnd, qty)] + tps + [SlOrder(signal, cfg, suffix, rnd, qty)];
    forall i | 1 <= i <= k ensures p[i] == TpOrder(signal, cfg, suffix, rnd, qty, i - 1) {
      assert p[i] == tps[i - 1];
    }
  }

  /** Shape of a plan: ENTRY, then TP1..TPk at the take-profit prices in order, then SL. */
  lemma PlanShape(signal: TradeSignal, cfg: PlanConfig, suffix: string, rnd: (real, int) -> real)
    requires OrderPlan(signal, cfg, suffix, rnd).Ok?
    ensures var p := OrderPlan(signal, cfg, suffix, rnd).value;
            var k := MinLen(|signal.tps|, |cfg.tpAlloc|);
            |p| == 2 + k
            && p[0].tag == "ENTRY" && p[0].kind == "LIMIT" && !p[0].reduceOnly && p[0].postOnly == cfg.usePostOnly
            && p[|p| - 1].tag == "SL" && p[|p| - 1].kind == "STOP" && p[|p| - 1].reduceOnly && !p[|p| - 1].postOnly
            && (forall i :: 1 <= i <= k ==>
                  p[i].tag == "TP" + IntToString(i) && p[i].kind == "LIMIT" && p[i].reduceOnly
                  && p[i].postOnly == cfg.usePostOnly && p[i].price == Some(rnd(signal.tps[i - 1], cfg.pricePrecision)))
  {
    PlanRows(signal, cfg, suffix, rnd);
  }

  /** No two orders of a plan carry the same tag: ENTRY, TP1..TPk and SL are all different. */
  lemma PlanTagsDistinct(signal: TradeSignal, cfg: PlanConfig, suffix: string, rnd: (real, int) -> real)
    requires OrderPlan(signal, cfg, suffix, rnd).Ok?
    ensures var p := OrderPlan(signal, cfg, suffix, rnd).value;
            forall i, j :: 0 <= i < j < |p| ==> p[i].tag != p[j].tag
  {
    PlanShape(signal, cfg, suffix, rnd);
    var p := OrderPlan(signal, cfg, suffix, rnd).value;
    forall i, j | 0 <= i < j < |p| ensures p[i].tag != p[j].tag {
      if 0 < i && j < |p| - 1 {
        TpTagsDistinct(i, j);
      } else if 0 < i {
        assert p[i].tag[0] == 'T' && p[j].tag[0] == 'S';
      } else if j < |p| - 1 {
        assert p[i].tag[0] == 'E' && p[j].tag[0] == 'T';
      } else {
        assert p[i].tag[0] == 'E' && p[j].tag[0] == 'S';
      }
    }
  }

  /** `f"TP{i}"` names a different take-profit for every `i`, since `str` of an int reads back. */
  lemma TpTagsDistinct(i: int, j: int)
    requires i != j
    ensures "TP" + IntToString(i) != "TP" + IntToString(j)
  {
    PyIntOfIntToString(i);
    PyIntOfIntToString(j);
    assert ("TP" + IntToString(i))[2..] == IntToString(i);
    assert ("TP" + IntToString(j))[2..] == IntToString(j);
  }

  /** The entry buys for LONG and sells for SHORT, every exit goes the other way, all on one symbol. */
  lemma PlanSides(signal: TradeSignal, cfg: PlanConfig, suffix: string, rnd: (real, int) -> real)
    requires OrderPlan(signal, cfg, suffix, rnd).Ok?
    ensures var p := OrderPlan(signal, cfg, suffix, rnd).value;
            |p| >= 2
            && p[0].side == (if Upper(signal.side) == "SHORT" then "Sell" else "Buy")
            && (forall i :: 1 <= i < |p| ==> p[i].side != p[0].side && (p[i].side == "Buy" || p[i].side == "Sell"))
            && (forall i :: 0 <= i < |p| ==> p[i].symbol == Upper(signal.symbol) + suffix)
  {
    PlanRows(signal, cfg, suffix, rnd);
    var p := OrderPlan(signal, cfg, suffix, rnd).value;
    forall i | 1 <= i < |p| ensures p[i].side == ExitSide(signal) {
      if i < |p| - 1 {
        assert p[i] == TpOrder(signal, cfg, suffix, rnd, QtyTotal(signal, cfg).value, i - 1);
      }
    }
  }

  /** Without balance or risk every quantity is zero, given that rounding keeps zero. */
  lemma UnsizedPlanHasZeroQty(signal: TradeSignal, cfg: PlanConfig, suffix: string, rnd: (real, int) -> real)
    requires !(TruthyReal(cfg.balanceUsdt) && TruthyReal(cfg.riskPct))
    requires forall n: int :: rnd(0.0, n) == 0.0
    ensures OrderPlan(signal, cfg, suffix, rnd).Ok?
    ensures forall o :: o in OrderPlan(signal, cfg, suffix, rnd).value ==> o.qty == 0.0
  {
    var p := OrderPlan(signal, cfg, suffix, rnd).value;
    forall o | o in p ensures o.qty == 0.0 {
      var i :| 0 <= i < |p| && p[i] == o;
    }
  }

  /** The quantities of the take-profit orders, the plan's middle rows. */
  function TpQuantities(p: seq<Order>): seq<real>
    requires |p| >= 2
  {
    seq(|p| - 2, i requires 0 <= i < |p| - 2 => p[i + 1].qty)
  }

  /** Without rounding, the take-profit quantities of a plan whose weights come from the
      profile table for its take-profits add up to the total quantity. */
  lemma TpQuantitiesAddUp(signal: TradeSignal, cfg: PlanConfig, suffix: string, profile: string, rnd: (real, int) -> real)
    requires forall x: real, n: int :: rnd(x, n) == x
    requires |signal.tps| > 0
    requires AllocForSignal(signal, profile) == Ok(cfg.tpAlloc)
    requires OrderPlan(signal, cfg, suffix, rnd).Ok?
    ensures |OrderPlan(signal, cfg, suffix, rnd).value| >= 2
    ensures Sum(TpQuantities(OrderPlan(signal, cfg, suffix, rnd).value)) == QtyTotal(signal, cfg).value
  {
    var qty := QtyTotal(signal, cfg).value;
    var n := |cfg.tpAlloc|;
    var tps := TpOrders(signal, cfg, suffix, rnd, qty, n);
    var p := [EntryOrder(signal, cfg, suffix, rnd, qty)] + tps + [SlOrder(signal, cfg, suffix, rnd, qty)];
    OrderPlanOk(signal, cfg, suffix, rnd, qty);
    MiddleQuantities(EntryOrder(signal, cfg, suffix, rnd, qty), tps, SlOrder(signal, cfg, suffix, rnd, qty));
    TpOrdersShares(signal, cfg, suffix, rnd, qty, n);
    SumShares(qty, cfg.tpAlloc);
  }

  /** The middle rows' quantities are those of the take-profit orders. */
  lemma MiddleQuantities(entry: Order, tps: seq<Order>, stop: Order)
    ensures TpQuantities([entry] + tps + [stop]) == seq(|tps|, i requires 0 <= i < |tps| => tps[i].qty)
  {
    var p := [entry] + tps + [stop];
    assert forall i :: 0 <= i < |tps| ==> p[i + 1] == tps[i];
  }

  lemma TpOrdersShares(signal: TradeSignal, cfg: PlanConfig, suffix: string, rnd: (real, int) -> real, qty: real, n: nat)
    requires forall x: real, n: int :: rnd(x, n) == x
    requires n <= |signal.tps| && n == |cfg.tpAlloc|
    ensures var tps := TpOrders(signal, cfg, suffix, rnd, qty, n);
            seq(n, i requires 0 <= i < n => tps[i].qty) == seq(n, i requires 0 <= i < n => Share(qty, cfg.tpAlloc[i]))
  {
    forall i | 0 <= i < n ensures TpOrders(signal, cfg, suffix, rnd, qty, n)[i].qty == Share(qty, cfg.tpAlloc[i]) {
    }
  }

  lemma SumShares(qty: real, alloc: seq<real>)
    ensures Sum(seq(|alloc|, i requires 0 <= i < |alloc| => Share(qty, alloc[i]))) == qty * Sum(alloc)
  {
    var shares := seq(|alloc|, i requires 0 <= i < |alloc| => Share(qty, alloc[i]));
    if qty == 0.0 {
      SumZero(shares);
    } else {
      SumScale(shares, alloc, qty);
    }
  }

  lemma {:induction false} SumZero(s: seq<real>)
    requires forall i :: 0 <= i < |s| ==> s[i] == 0.0
    ensures Sum(s) == 0.0
  {
    if |s| > 0 { SumZero(s[1..]); }
  }

  lemma {:induction false} SumScale(s: seq<real>, w: seq<real>, c: real)
    requires |s| == |w| && forall i :: 0 <= i < |s| ==> s[i] == c * w[i]
    ensures Sum(s) == c * Sum(w)
  {
    if |s| > 0 { SumScale(s[1..], w[1..], c); }
  }
}
