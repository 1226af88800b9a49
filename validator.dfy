/**
 * The deterministic sanity check of a parsed signal (src/ai_api.py,
 * `local_validate`): it collects human-readable issues, one per failed rule.
 */
module Validator {
  import opened Text
  import opened Models

  const PmOutOfRange := "PM fora do range de entrada informado."
  const ShortSlIssue := "Para SHORT, o SL deve estar ACIMA do PM."
  const LongSlIssue := "Para LONG, o SL deve estar ABAIXO do PM."
  const BadSideIssue := "Side inv\U{E1}lido (esperado LONG ou SHORT)."
  const ShortTpPrefix := "Para SHORT, o TP"
  const ShortTpSuffix := " deve estar ABAIXO do PM."
  const LongTpPrefix := "Para LONG, o TP"
  const LongTpSuffix := " deve estar ACIMA do PM."

  function Min(a: real, b: real): real { if a <= b then a else b }

  function Max(a: real, b: real): real { if a <= b then b else a }

  /** The entry price lies within the entry range, whichever bound is given first. */
  predicate PmInRange(s: TradeSignal)
  {
    Min(s.entryLow, s.entryHigh) <= s.entryPm <= Max(s.entryLow, s.entryHigh)
  }

  /** A recognised side, once upper-cased. */
  predicate ValidSide(side: string)
  {
    side == "SHORT" || side == "LONG"
  }

  /** The stop loss is on the wrong side of the entry price (equality included). */
  predicate SlViolates(side: string, sl: real, pm: real)
  {
    if side == "SHORT" then sl <= pm else sl >= pm
  }

  /** A take-profit is on the wrong side of the entry price (equality included). */
  predicate TpViolates(side: string, tp: real, pm: real)
  {
    if side == "SHORT" then tp >= pm else tp <= pm
  }

  /** The issue text for take-profit number `i` (counted from 1). */
  function TpIssue(side: string, i: nat): string
  {
    if side == "SHORT" then ShortTpPrefix + IntToString(i) + ShortTpSuffix
    else LongTpPrefix + IntToString(i) + LongTpSuffix
  }

  /** The 1-based numbers of the take-profits that violate the side's rule, in order. */
  function ViolatingTps(side: string, tps: seq<real>, pm: real): seq<nat>
  {
    if |tps| == 0 then []
    else ViolatingTps(side, tps[..|tps| - 1], pm)
         + (if TpViolates(side, tps[|tps| - 1], pm) then [|tps|] else [])
  }

  function TpIssues(side: string, tps: seq<real>, pm: real): (r: seq<string>)
  {
    var v := ViolatingTps(side, tps, pm);
    seq(|v|, k requires 0 <= k < |v| => TpIssue(side, v[k]))
  }

  function SlIssue(side: string): string
  {
    if side == "SHORT" then ShortSlIssue else LongSlIssue
  }

  /** The issues `local_validate` reports, in the order it appends them. */
  function Issues(s: TradeSignal): seq<string>
  {
    var side := Upper(s.side);
    (if PmInRange(s) then [] else [PmOutOfRange])
    + if ValidSide(side) then
        (if SlViolates(side, s.sl, s.entryPm) then [SlIssue(side)] else [])
        + TpIssues(side, s.tps, s.entryPm)
      else [BadSideIssue]
  }

  /** `local_validate`: appends the issues rule by rule, looping over the take-profits. */
  method LocalValidate(signal: TradeSignal) returns (issues: seq<string>)
    ensures issues == Issues(signal)
  {
    issues := [];
    if !(Min(signal.entryLow, signal.entryHigh) <= signal.entryPm <= Max(signal.entryLow, signal.entryHigh)) {
      issues := issues + [PmOutOfRange];
    }
    ghost var pre := issues;
    var side := Upper(signal.side);
    var pm := signal.entryPm;
    if side == "SHORT" || side == "LONG" {
      if (side == "SHORT" && signal.sl <= pm) || (side == "LONG" && signal.sl >= pm) {
        issues := issues + [SlIssue(side)];
      }
      ghost var before := issues;
      var found := CollectTpIssues(side, signal.tps, pm);
      issues := issues + found;
      IssuesValid(signal, pre, before, issues);
    } else {
      issues := issues + [BadSideIssue];
    }
  }

  /** The loop over `enumerate(signal.tps, start=1)` of `local_validate`. */
  method CollectTpIssues(side: string, tps: seq<real>, pm: real) returns (found: seq<string>)
    requires ValidSide(side)
    ensures found == TpIssues(side, tps, pm)
  {
    found := [];
    var i := 0;
    while i < |tps|
      invariant 0 <= i <= |tps|
      invariant found == TpIssues(side, tps[..i], pm)
    {
      var tp := tps[i];
      TpIssuesStep(side, tps, pm, i);
      TpRule(side, tp, pm);
      if (side == "SHORT" && tp >= pm) || (side == "LONG" && tp <= pm) {
        found := found + [TpIssue(side, i + 1)];
      }
      i := i + 1;
    }
    assert tps[..i] == tps;
  }

  /** The loop's test is the take-profit rule, for either recognised side. */
  lemma TpRule(side: string, tp: real, pm: real)
    requires ValidSide(side)
    ensures ((side == "SHORT" && tp >= pm) || (side == "LONG" && tp <= pm)) == TpViolates(side, tp, pm)
  {
  }

  lemma IssuesValid(signal: TradeSignal, pre: seq<string>, before: seq<string>, issues: seq<string>)
    requires pre == if PmInRange(signal) then [] else [PmOutOfRange]
    requires ValidSide(Upper(signal.side))
    requires before == pre + if SlViolates(Upper(signal.side), signal.sl, signal.entryPm) then [SlIssue(Upper(signal.side))] else []
    requires issues == before + TpIssues(Upper(signal.side), signal.tps, signal.entryPm)
    ensures issues == Issues(signal)
  {
  }

  /** Extending the checked prefix by one take-profit adds at most its own issue. */
  lemma TpIssuesStep(side: string, tps: seq<real>, pm: real, i: nat)
    requires i < |tps|
    ensures TpIssues(side, tps[..i + 1], pm)
            == TpIssues(side, tps[..i], pm) + (if TpViolates(side, tps[i], pm) then [TpIssue(side, i + 1)] else [])
  {
    assert tps[..i + 1][..i] == tps[..i];
  }

  /** Take-profit `j` (1-based) is reported exactly when it violates the rule, and the numbers ascend. */
  lemma {:induction false} ViolatingTpsSpec(side: string, tps: seq<real>, pm: real)
    ensures forall k :: 0 <= k < |ViolatingTps(side, tps, pm)| ==> 1 <= ViolatingTps(side, tps, pm)[k] <= |tps|
    ensures forall j :: 1 <= j <= |tps| ==> (j in ViolatingTps(side, tps, pm) <==> TpViolates(side, tps[j - 1], pm))
    ensures forall k, l :: 0 <= k < l < |ViolatingTps(side, tps, pm)| ==> ViolatingTps(side, tps, pm)[k] < ViolatingTps(side, tps, pm)[l]
  {
    if |tps| > 0 {
      var init := tps[..|tps| - 1];
      ViolatingTpsSpec(side, init, pm);
      assert forall k :: 0 <= k < |init| ==> init[k] == tps[k];
    }
  }

  /** One issue when the entry price is out of range, plus: for a valid side one per
      failed stop-loss check and one per violating take-profit; otherwise one for the side. */
  lemma IssueCount(s: TradeSignal)
    ensures var side := Upper(s.side);
            |Issues(s)| == (if PmInRange(s) then 0 else 1)
                           + if ValidSide(side)
                             then (if SlViolates(side, s.sl, s.entryPm) then 1 else 0) + |ViolatingTps(side, s.tps, s.entryPm)|
                             else 1
  {
  }

  /** No take-profit is reported exactly when none violates the rule. */
  lemma NoViolatingTpsIff(side: string, tps: seq<real>, pm: real)
    ensures ViolatingTps(side, tps, pm) == [] <==> forall j :: 0 <= j < |tps| ==> !TpViolates(side, tps[j], pm)
  {
    var v := ViolatingTps(side, tps, pm);
    assert forall j :: 1 <= j <= |tps| ==> (j in v <==> TpViolates(side, tps[j - 1], pm)) by {
      ViolatingTpsSpec(side, tps, pm);
    }
    if exists j :: 0 <= j < |tps| && TpViolates(side, tps[j], pm) {
      var j :| 0 <= j < |tps| && TpViolates(side, tps[j], pm);
      assert j + 1 in v;
    }
    if |v| > 0 {
      assert 1 <= v[0] <= |tps| by {
        ViolatingTpsSpec(side, tps, pm);
      }
      assert v[0] in v;
    }
  }

  /** No issue at all exactly when every rule passes. */
  lemma NoIssuesIff(s: TradeSignal)
    ensures var side := Upper(s.side);
            Issues(s) == [] <==>
              PmInRange(s) && ValidSide(side) && !SlViolates(side, s.sl, s.entryPm)
              && forall j :: 0 <= j < |s.tps| ==> !TpViolates(side, s.tps[j], s.entryPm)
  {
    var side := Upper(s.side);
    IssueCount(s);
    NoViolatingTpsIff(side, s.tps, s.entryPm);
    assert Issues(s) == [] <==> |Issues(s)| == 0;
  }

  /** A side other than LONG/SHORT yields the side issue and no stop-loss or take-profit issue. */
  lemma InvalidSideIssues(s: TradeSignal)
    requires !ValidSide(Upper(s.side))
    ensures Issues(s) == (if PmInRange(s) then [] else [PmOutOfRange]) + [BadSideIssue]
  {
  }

  /**
   * The side is compared after upper-casing: two sides with the same
   * upper-case form (`long`, `Long`, `LONG`) give the same issues.
   */
  lemma SameUpperSameIssues(s: TradeSignal, side: string)
    requires Upper(side) == Upper(s.side)
    ensures Issues(s.(side := side)) == Issues(s)
  {
  }

  /** Any side that upper-cases to LONG or SHORT is checked as that capital word. */
  lemma SideCaseInsensitive(s: TradeSignal)
    ensures Upper(s.side) == "LONG" || Upper(s.side) == "SHORT" ==> Issues(s) == Issues(s.(side := Upper(s.side)))
  {
    var w := Upper(s.side);
    if w == "LONG" || w == "SHORT" {
      assert Upper(w) == w by {
        UpperOfUpper("LONG");
        UpperOfUpper("SHORT");
      }
      SameUpperSameIssues(s, w);
    }
  }
}
