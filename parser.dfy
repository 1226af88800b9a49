/**
 * The trading-signal parsers (src/parser_signal.py): the substring filter
 * that decides whether a text looks like a signal, the strict parser that
 * always fails, and the tolerant parser, a first-match-wins cascade per
 * field over the scanners of module Scan.
 */
module SignalParser {
  import opened Wrappers
  import opened Text
  import opened Scan
  import opened Models
  import Validator

  const NoSide := "N\U{E3}o encontrei LONG/SHORT."
  const NoSymbol := "N\U{E3}o consegui inferir o s\U{ED}mbolo."
  const NoEntry := "N\U{E3}o consegui ler a Entrada/Entradas Escalonadas."
  const NoSl := "N\U{E3}o encontrei SL."
  const NoTps := "N\U{E3}o encontrei TPs."

  // ---------------------------------------------------------------------
  // is_potential_signal and parse_signal
  // ---------------------------------------------------------------------

  /** `is_potential_signal`: plain substring tests on the lower-cased text. */
  predicate IsPotentialSignal(text: string)
  {
    var t := Lower(text);
    var hasSide := Contains(t, "long") || Contains(t, "short");
    var hasEntry := Contains(t, "entrada") || Contains(t, "entradas escalonadas") || Contains(t, "entry");
    var hasTp := Contains(t, "tp") || Contains(t, "tps");
    var hasSl := Contains(t, "sl") || Contains(t, "stop");
    hasSide && (hasEntry || hasTp || hasSl)
  }

  lemma PrefixContained(s: string, t: string)
    requires |t| <= |s| && forall k :: 0 <= k < |t| ==> s[k] == t[k]
    ensures Contains(s, t)
  {
    assert s[..|t|] == t;
    assert OccursAt(s, t, 0);
  }

  /** The longer keywords add nothing: the filter needs a side word and one of five others. */
  lemma PotentialSignalIff(text: string)
    ensures var t := Lower(text);
            IsPotentialSignal(text) <==>
              (Contains(t, "long") || Contains(t, "short"))
              && (Contains(t, "entrada") || Contains(t, "entry") || Contains(t, "tp")
                  || Contains(t, "sl") || Contains(t, "stop"))
  {
    var t := Lower(text);
    if Contains(t, "entradas escalonadas") {
      PrefixContained("entradas escalonadas", "entrada");
      ContainsTransitive(t, "entradas escalonadas", "entrada");
    }
    if Contains(t, "tps") {
      PrefixContained("tps", "tp");
      ContainsTransitive(t, "tps", "tp");
    }
  }

  /** A text containing a potential signal is a potential signal. */
  lemma PotentialSignalMonotone(t: string, u: string)
    requires Contains(u, t) && IsPotentialSignal(t)
    ensures IsPotentialSignal(u)
  {
    ContainsLower(u, t);
    var lt, lu := Lower(t), Lower(u);
    forall w | w in ["long", "short", "entrada", "entradas escalonadas", "entry", "tp", "tps", "sl", "stop"] && Contains(lt, w)
      ensures Contains(lu, w)
    {
      ContainsTransitive(lu, lt, w);
    }
  }

  /** `parse_signal`: the strict parser is a stub that always raises. */
  function ParseSignal(text: string): (r: Result<TradeSignal, PyError>)
    ensures r.Err? && r.error.NotImplementedError?
  {
    Err(NotImplementedError(""))
  }

  // ---------------------------------------------------------------------
  // Side: \b(LONG|SHORT)\b, re.I
  // ---------------------------------------------------------------------

  /** `\b(?:LONG|SHORT)\b` under re.I: the end of the word. */
  function Keyword(s: string, p: nat): (r: Option<nat>)
    ensures r.Some? ==> Boundary(s, p) && Boundary(s, r.value)
    ensures r.Some? ==> (r.value == p + 4 && Lit(s, p, "long").Some?) || (r.value == p + 5 && Lit(s, p, "short").Some?)
  {
    if !Boundary(s, p) then None
    else if Lit(s, p, "long").Some? && Boundary(s, p + 4) then Some(p + 4)
    else if Lit(s, p, "short").Some? && Boundary(s, p + 5) then Some(p + 5)
    else None
  }

  /** The side named at `p`, upper-cased as `group(1).upper()` does. */
  function SideAt(s: string, p: nat): Option<string>
  {
    var e :- Keyword(s, p);
    Some(Upper(s[p..e]))
  }

  /** `re.search` for the side: the word at the leftmost position where one stands. */
  function SideOf(raw: string): (r: Option<string>)
    ensures r.None? <==> forall p :: 0 <= p <= |raw| ==> SideAt(raw, p).None?
    ensures r.Some? ==> exists p :: 0 <= p <= |raw| && SideAt(raw, p) == r && forall q :: 0 <= q < p ==> SideAt(raw, q).None?
  {
    var m := (p: nat) => SideAt(raw, p);
    assert forall p: nat :: m(p) == SideAt(raw, p);
    Search(raw, m)
  }

  /** Whatever letter case the text uses, the side is LONG or SHORT. */
  lemma SideAtIsSide(s: string, p: nat)
    requires SideAt(s, p).Some?
    ensures SideAt(s, p).value == "LONG" || SideAt(s, p).value == "SHORT"
  {
    var e := Keyword(s, p).value;
    if e == p + 4 {
      UpperOfLit(s, p, "long");
      assert AsciiUpper("long") == "LONG" by { AsciiUpperOfSides(); }
    } else {
      UpperOfLit(s, p, "short");
      assert AsciiUpper("short") == "SHORT" by { AsciiUpperOfSides(); }
    }
  }

  /** What a case-insensitive match of a lower-case word upper-cases to. */
  lemma UpperOfLit(s: string, p: nat, word: string)
    requires Lit(s, p, word).Some? && forall i :: 0 <= i < |word| ==> IsAsciiLower(word[i])
    ensures Upper(s[p..p + |word|]) == AsciiUpper(word)
  {
    var t := s[p..p + |word|];
    assert forall i :: 0 <= i < |word| ==> t[i] == s[p + i];
    UpperOfFolded(t, word);
  }

  lemma AsciiUpperOfSides()
    ensures AsciiUpper("long") == "LONG" && AsciiUpper("short") == "SHORT"
  {
    assert "long"[1..] == "ong" && "ong"[1..] == "ng" && "ng"[1..] == "g";
    assert "short"[1..] == "hort" && "hort"[1..] == "ort" && "ort"[1..] == "rt" && "rt"[1..] == "t";
  }

  lemma SideOfIsSide(raw: string)
    requires SideOf(raw).Some?
    ensures SideOf(raw).value == "LONG" || SideOf(raw).value == "SHORT"
  {
    var p :| 0 <= p <= |raw| && SideAt(raw, p) == SideOf(raw);
    SideAtIsSide(raw, p);
  }

  // ---------------------------------------------------------------------
  // Symbol: three rules
  // ---------------------------------------------------------------------

  predicate IsUpperAlnum(c: char) { IsAsciiUpper(c) || IsDigit(c) }

  function MinInt(a: int, b: int): int { if a <= b then a else b }

  /** `[A-Z0-9]{2,15}` under re.I at `d`, greedy. */
  function AlnumGroup(s: string, d: nat): (r: Option<string>)
    ensures r.Some? ==> 2 <= |r.value| <= 15 && forall i :: 0 <= i < |r.value| ==> IsAsciiAlnum(r.value[i])
    ensures r.Some? ==> d + |r.value| <= |s| && r.value == s[d..d + |r.value|]
  {
    var k := MinInt(RunEnd(s, d, IsAsciiAlnum) - d, 15);
    if k >= 2 then
      var g := s[d..d + k];
      assert forall i :: 0 <= i < |g| ==> g[i] == s[d + i];
      Some(g)
    else None
  }

  /** Rule 1, `\b(?:LONG|SHORT)\b\s+\$?([A-Z0-9]{2,15})(?:/USDT|USDT)?` under re.I: group 1. */
  function Symbol1At(s: string, p: nat): (r: Option<string>)
    ensures r.Some? ==> 2 <= |r.value| <= 15 && forall i :: 0 <= i < |r.value| ==> IsAsciiAlnum(r.value[i])
  {
    var e :- Keyword(s, p);
    var q :- Spaces1(s, e);
    AlnumGroup(s, if q < |s| && s[q] == '$' then q + 1 else q)
  }

  /** Rule 2, `\b([A-Z0-9]{2,15})USDT\b`, case-sensitive: the longest group that USDT follows. */
  function Symbol2At(s: string, p: nat): (r: Option<string>)
    ensures r.Some? ==> 2 <= |r.value| <= 15 && forall i :: 0 <= i < |r.value| ==> IsUpperAlnum(r.value[i])
  {
    var _ :- Bound(s, p);
    var run := RunEnd(s, p, IsUpperAlnum) - p;
    var k :- Longest(2, MinInt(run, 15), (k: nat) => Exact(s, p + k, "USDT").Some? && Boundary(s, p + k + 4));
    Some(UpperAlnumRun(s, p, k))
  }

  /** The first `k` characters at `p`, inside the run of capitals and digits there. */
  function UpperAlnumRun(s: string, p: nat, k: nat): (g: string)
    requires p <= |s| && p + k <= RunEnd(s, p, IsUpperAlnum)
    ensures |g| == k && forall i :: 0 <= i < |g| ==> IsUpperAlnum(g[i])
  {
    var g := s[p..p + k];
    assert forall i :: 0 <= i < |g| ==> g[i] == s[p + i];
    g
  }

  /** `\b(?:LONG|SHORT)\b`, case-sensitive. */
  function KeywordExact(s: string, p: nat): (r: Option<nat>)
    ensures r.Some? ==> Boundary(s, p) && Boundary(s, r.value)
    ensures r.Some? ==> (r.value == p + 4 && OccursAt(s, "LONG", p)) || (r.value == p + 5 && OccursAt(s, "SHORT", p))
  {
    if !Boundary(s, p) then None
    else if Exact(s, p, "LONG").Some? && Boundary(s, p + 4) then Some(p + 4)
    else if Exact(s, p, "SHORT").Some? && Boundary(s, p + 5) then Some(p + 5)
    else None
  }

  /** Rule 3, `\b(?:LONG|SHORT)\b\s+([A-Z]{2,10})\b`, case-sensitive: group 1. */
  function Symbol3At(s: string, p: nat): (r: Option<string>)
  {
    var e :- KeywordExact(s, p);
    var q :- Spaces1(s, e);
    var run := RunEnd(s, q, IsAsciiUpper) - q;
    var k :- Longest(2, MinInt(run, 10), (k: nat) => Boundary(s, q + k));
    Some(s[q..q + k])
  }

  /** `re.search` with rule 1: the group at the leftmost position where the rule matches. */
  function Symbol1Of(raw: string): (r: Option<string>)
    ensures r.None? <==> forall p :: 0 <= p <= |raw| ==> Symbol1At(raw, p).None?
    ensures r.Some? ==> exists p :: 0 <= p <= |raw| && Symbol1At(raw, p) == r && forall q :: 0 <= q < p ==> Symbol1At(raw, q).None?
  {
    var m := (p: nat) => Symbol1At(raw, p);
    assert forall p: nat :: m(p) == Symbol1At(raw, p);
    Search(raw, m)
  }

  /** `re.search` with rule 2. */
  function Symbol2Of(raw: string): (r: Option<string>)
    ensures r.None? <==> forall p :: 0 <= p <= |raw| ==> Symbol2At(raw, p).None?
    ensures r.Some? ==> exists p :: 0 <= p <= |raw| && Symbol2At(raw, p) == r && forall q :: 0 <= q < p ==> Symbol2At(raw, q).None?
  {
    var m := (p: nat) => Symbol2At(raw, p);
    assert forall p: nat :: m(p) == Symbol2At(raw, p);
    Search(raw, m)
  }

  /** `re.search` with rule 3. */
  function Symbol3Of(raw: string): (r: Option<string>)
    ensures r.None? <==> forall p :: 0 <= p <= |raw| ==> Symbol3At(raw, p).None?
    ensures r.Some? ==> exists p :: 0 <= p <= |raw| && Symbol3At(raw, p) == r && forall q :: 0 <= q < p ==> Symbol3At(raw, q).None?
  {
    var m := (p: nat) => Symbol3At(raw, p);
    assert forall p: nat :: m(p) == Symbol3At(raw, p);
    Search(raw, m)
  }

  /** Python's `not sym` for an optional string. */
  predicate Blank(o: Option<string>)
  {
    o.None? || o.value == ""
  }

  function UpperOpt(o: Option<string>): Option<string>
  {
    match o
    case Some(g) => Some(Upper(g))
    case None => None
  }

  /** The symbol cascade: each rule is tried only while no symbol is known. */
  function SymbolOf(raw: string): Option<string>
  {
    var s1 := UpperOpt(Symbol1Of(raw));
    var s2 := if Blank(s1) then UpperOpt(Symbol2Of(raw)) else s1;
    var s3 := if Blank(s2) then UpperOpt(Symbol3Of(raw)) else s2;
    if Blank(s3) then None else s3
  }

  /** A capitalised side word is also a side word under re.I, with the same end. */
  lemma KeywordOfExact(s: string, p: nat)
    requires KeywordExact(s, p).Some?
    ensures Keyword(s, p) == KeywordExact(s, p)
  {
    var e := KeywordExact(s, p).value;
    if e == p + 4 {
      assert s[p..p + 4] == "LONG";
      forall i | 0 <= i < 4 ensures EqI(s[p + i], "long"[i]) {
        assert s[p + i] == "LONG"[i];
      }
      assert Lit(s, p, "long") == Some(p + 4);
    } else {
      assert s[p..p + 5] == "SHORT";
      assert s[p] == 'S' by {
        assert s[p] == s[p..p + 5][0];
      }
      assert !EqI(s[p], "long"[0]);
      assert Lit(s, p, "long").None?;
      forall i | 0 <= i < 5 ensures EqI(s[p + i], "short"[i]) {
        assert s[p + i] == "SHORT"[i];
      }
      assert Lit(s, p, "short") == Some(p + 5);
    }
  }

  /** Two or more capitals at `q` make an alphanumeric group at `q`. */
  lemma CapitalsMakeGroup(s: string, q: nat)
    requires q <= |s| && RunEnd(s, q, IsAsciiUpper) - q >= 2
    ensures AlnumGroup(s, q).Some?
  {
  }

  /** Wherever rule 3 matches, rule 1 matches too. */
  lemma Rule3ImpliesRule1(s: string, p: nat)
    requires Symbol3At(s, p).Some?
    ensures Symbol1At(s, p).Some?
  {
    KeywordOfExact(s, p);
    var e := KeywordExact(s, p).value;
    var q := Spaces1(s, e).value;
    assert RunEnd(s, q, IsAsciiUpper) - q >= 2;
    assert s[q] != '$';
    CapitalsMakeGroup(s, q);
  }

  /** When rule 1 finds nothing, neither does rule 3. */
  lemma Rule3NeverAfterRule1(raw: string)
    ensures Symbol1Of(raw).None? ==> Symbol3Of(raw).None?
  {
    forall p | 0 <= p <= |raw| && Symbol3At(raw, p).Some? ensures Symbol1At(raw, p).Some? {
      Rule3ImpliesRule1(raw, p);
    }
  }

  /** Rule 3 is dead: the symbol always comes from rule 1 or rule 2. */
  lemma SymbolNeverFromRule3(raw: string)
    ensures SymbolOf(raw) ==
      (if Symbol1Of(raw).Some? then UpperOpt(Symbol1Of(raw))
       else if Symbol2Of(raw).Some? then UpperOpt(Symbol2Of(raw))
       else None)
  {
    UpperOfAlnumLength(Symbol1Of(raw));
    UpperOfAlnumLength(Symbol2Of(raw));
    Rule3NeverAfterRule1(raw);
  }

  /** The symbol text of rules 1 and 2 is ASCII, so upper-casing keeps it non-empty. */
  lemma UpperOfAlnumLength(o: Option<string>)
    requires o.Some? ==> |o.value| >= 2 && forall i :: 0 <= i < |o.value| ==> IsAsciiAlnum(o.value[i])
    ensures o.Some? ==> UpperOpt(o).value == AsciiUpper(o.value) && |UpperOpt(o).value| >= 2
  {
    if o.Some? {
      UpperOfAscii(o.value);
    }
  }

  lemma {:induction false} UpperOfAscii(g: string)
    requires forall i :: 0 <= i < |g| ==> IsAsciiAlnum(g[i])
    ensures Upper(g) == AsciiUpper(g)
  {
    if |g| > 0 {
      UpperOfAscii(g[1..]);
    }
  }

  /** A parsed symbol is two to fifteen capitals or digits. */
  lemma SymbolShape(raw: string)
    requires SymbolOf(raw).Some?
    ensures 2 <= |SymbolOf(raw).value| <= 15
    ensures forall i :: 0 <= i < |SymbolOf(raw).value| ==> IsUpperAlnum(SymbolOf(raw).value[i])
  {
    SymbolNeverFromRule3(raw);
    RuleGroupsShape(raw);
    var g := if Symbol1Of(raw).Some? then Symbol1Of(raw).value else Symbol2Of(raw).value;
    UpperOfAscii(g);
    AsciiUpperShape(g);
  }

  /** The groups of rules 1 and 2 are two to fifteen ASCII letters or digits. */
  lemma RuleGroupsShape(raw: string)
    ensures Symbol1Of(raw).Some? ==>
              2 <= |Symbol1Of(raw).value| <= 15 && forall i :: 0 <= i < |Symbol1Of(raw).value| ==> IsAsciiAlnum(Symbol1Of(raw).value[i])
    ensures Symbol2Of(raw).Some? ==>
              2 <= |Symbol2Of(raw).value| <= 15 && forall i :: 0 <= i < |Symbol2Of(raw).value| ==> IsAsciiAlnum(Symbol2Of(raw).value[i])
  {
    if Symbol1Of(raw).Some? {
      var p :| 0 <= p <= |raw| && Symbol1At(raw, p) == Symbol1Of(raw);
    }
    if Symbol2Of(raw).Some? {
      var p :| 0 <= p <= |raw| && Symbol2At(raw, p) == Symbol2Of(raw);
    }
  }

  lemma {:induction false} AsciiUpperShape(g: string)
    requires forall i :: 0 <= i < |g| ==> IsAsciiAlnum(g[i])
    ensures forall i :: 0 <= i < |g| ==> IsUpperAlnum(AsciiUpper(g)[i])
  {
    if |g| > 0 {
      AsciiUpperShape(g[1..]);
      assert AsciiUpper(g) == [AsciiUpperChar(g[0])] + AsciiUpper(g[1..]);
    }
  }

  // ---------------------------------------------------------------------
  // Numbers after labels
  // ---------------------------------------------------------------------

  /** `\s*` then NUM: the span of the token. */
  function NumSpan(s: string, p: nat): (r: Option<(nat, nat)>)
    ensures r.Some? ==> p <= r.value.0 < r.value.1 <= |s|
  {
    var v := Spaces(s, p);
    var e :- Num(s, v);
    Some((v, e))
  }

  /** `\s*:\s*` then NUM. */
  function ColonNum(s: string, p: nat): (r: Option<(nat, nat)>)
    ensures r.Some? ==> p < r.value.0 < r.value.1 <= |s|
  {
    var c :- Char(s, Spaces(s, p), ':');
    NumSpan(s, c)
  }

  /** `\s*[-–]\s*` then NUM. */
  function DashNum(s: string, p: nat): (r: Option<(nat, nat)>)
    ensures r.Some? ==> p < r.value.0 < r.value.1 <= |s|
  {
    var d :- Dash(s, Spaces(s, p));
    NumSpan(s, d)
  }

  /** The number a span holds, read by `_n`. */
  function Value(s: string, n: (nat, nat)): real
    requires n.0 <= n.1 <= |s|
  {
    N(s[n.0..n.1])
  }

  // ---------------------------------------------------------------------
  // Entry: three rules
  // ---------------------------------------------------------------------

  /** `Entradas?\s+Escalonadas?\s*:\s*(NUM)\s*[-–]\s*(NUM)` under re.I. */
  function EscAt(s: string, p: nat): Option<(real, real)>
  {
    var a :- Lit(s, p, "entrada");
    var b :- Spaces1(s, OptI(s, a, 's'));
    var c :- Lit(s, b, "escalonada");
    var n1 :- ColonNum(s, OptI(s, c, 's'));
    var n2 :- DashNum(s, n1.1);
    Some((Value(s, n1), Value(s, n2)))
  }

  /** The optional `\((?:pm|média)\s*:\s*(NUM)\)` after a classic range. */
  function PmNote(s: string, p: nat): Option<real>
  {
    var a :- Char(s, p, '(');
    var b :- if Lit(s, a, "pm").Some? then Lit(s, a, "pm") else Lit(s, a, "m\U{E9}dia");
    var n :- ColonNum(s, b);
    var _ :- Char(s, n.1, ')');
    Some(Value(s, n))
  }

  /** `Entrada\s*:\s*(NUM)\s*[-–]\s*(NUM)\s*(...)?` under re.I: both bounds and the note. */
  function ClassicAt(s: string, p: nat): Option<(real, real, Option<real>)>
  {
    var a :- Lit(s, p, "entrada");
    var n1 :- ColonNum(s, a);
    var n2 :- DashNum(s, n1.1);
    Some((Value(s, n1), Value(s, n2), PmNote(s, Spaces(s, n2.1))))
  }

  /** `Entrada\s*:\s*(NUM)` under re.I. */
  function SingleAt(s: string, p: nat): Option<real>
  {
    var a :- Lit(s, p, "entrada");
    var n :- ColonNum(s, a);
    Some(Value(s, n))
  }

  /** `re.search` with the staggered-entry rule. */
  function EscOf(raw: string): Option<(real, real)>
  {
    Search(raw, (p: nat) => EscAt(raw, p))
  }

  /** `re.search` with the classic range rule. */
  function ClassicOf(raw: string): Option<(real, real, Option<real>)>
  {
    Search(raw, (p: nat) => ClassicAt(raw, p))
  }

  /** `re.search` with the single-price rule. */
  function SingleOf(raw: string): Option<real>
  {
    Search(raw, (p: nat) => SingleAt(raw, p))
  }

  /** `(entry_low + entry_high) / 2.0`. */
  function Mid(lo: real, hi: real): real
  {
    (lo + hi) / 2.0
  }

  /** The entry cascade: (low, high, pm), or `None` when no rule matches. */
  function EntryOf(raw: string): Option<(real, real, real)>
  {
    var esc := EscOf(raw);
    if esc.Some? then
      var lo, hi := Validator.Min(esc.value.0, esc.value.1), Validator.Max(esc.value.0, esc.value.1);
      Some((lo, hi, Mid(lo, hi)))
    else
      var ent := ClassicOf(raw);
      if ent.Some? then
        var lo, hi := Validator.Min(ent.value.0, ent.value.1), Validator.Max(ent.value.0, ent.value.1);
        Some((lo, hi, if ent.value.2.Some? then ent.value.2.value else Mid(lo, hi)))
      else
        var one := SingleOf(raw);
        if one.Some? then Some((one.value, one.value, one.value)) else None
  }

  /** The range is ordered, and the entry price lies in it unless a classic range states it explicitly. */
  lemma EntryBounds(raw: string)
    requires EntryOf(raw).Some?
    ensures EntryOf(raw).value.0 <= EntryOf(raw).value.1
    ensures !(EscOf(raw).None? && ClassicOf(raw).Some? && ClassicOf(raw).value.2.Some?) ==>
              EntryOf(raw).value.0 <= EntryOf(raw).value.2 <= EntryOf(raw).value.1
    ensures EscOf(raw).Some? ==> EntryOf(raw).value.2 == (EntryOf(raw).value.0 + EntryOf(raw).value.1) / 2.0
    ensures EscOf(raw).None? && ClassicOf(raw).None? ==>
              EntryOf(raw).value.0 == EntryOf(raw).value.1 == EntryOf(raw).value.2 == SingleOf(raw).value
  {
  }

  // ---------------------------------------------------------------------
  // Stop loss
  // ---------------------------------------------------------------------

  /** `\bSL\s*:\s*(NUM)` under re.I. */
  function SlAt(s: string, p: nat): Option<real>
  {
    var _ :- Bound(s, p);
    var a :- Lit(s, p, "sl");
    var n :- ColonNum(s, a);
    Some(Value(s, n))
  }

  /** `\bStop(?:\s*Loss)?\s*:\s*(NUM)` under re.I: `Loss` is taken when it is there. */
  function StopAt(s: string, p: nat): Option<real>
  {
    var _ :- Bound(s, p);
    var a :- Lit(s, p, "stop");
    var b := if Lit(s, Spaces(s, a), "loss").Some? then Spaces(s, a) + 4 else a;
    var n :- ColonNum(s, b);
    Some(Value(s, n))
  }

  /** `re.search` with the `SL:` rule. */
  function SlLabelOf(raw: string): Option<real>
  {
    Search(raw, (p: nat) => SlAt(raw, p))
  }

  /** `re.search` with the `Stop:` / `Stop Loss:` rule. */
  function StopLabelOf(raw: string): Option<real>
  {
    Search(raw, (p: nat) => StopAt(raw, p))
  }

  /** The stop loss: `SL:` first, then `Stop[ Loss]:`. */
  function SlOf(raw: string): Option<real>
  {
    if SlLabelOf(raw).Some? then SlLabelOf(raw) else StopLabelOf(raw)
  }

  // ---------------------------------------------------------------------
  // Take-profits
  // ---------------------------------------------------------------------

  predicate NotLineBreak(c: char) { c != '\n' && c != '\r' }

  /**
   * `\bTPs?\s*:\s*([^\n\r]+)` under re.I: group 1.  The `\s*` after the
   * colon may run over line breaks; when nothing follows it, it gives back
   * characters until one that is not a line break can start the group.
   */
  function TpsChunkAt(s: string, p: nat): (r: Option<string>)
    ensures r.Some? ==> |r.value| > 0 && forall i :: 0 <= i < |r.value| ==> NotLineBreak(r.value[i])
  {
    var _ :- Bound(s, p);
    var a :- Lit(s, p, "tp");
    var c :- Char(s, Spaces(s, OptI(s, a, 's')), ':');
    var ok := (j: nat) => j < |s| && NotLineBreak(s[j]);
    var j :- Longest(c, Spaces(s, c), ok);
    assert ok(j);
    Some(LineRun(s, j))
  }

  /** The characters from `j` up to the next line break. */
  function LineRun(s: string, j: nat): (g: string)
    requires j < |s| && NotLineBreak(s[j])
    ensures |g| > 0 && forall i :: 0 <= i < |g| ==> NotLineBreak(g[i])
  {
    var e := RunEnd(s, j, NotLineBreak);
    var g := s[j..e];
    assert forall i :: 0 <= i < |g| ==> g[i] == s[j + i];
    g
  }

  /** `re.search` for the `TPs:` line. */
  function TpsChunkOf(raw: string): Option<string>
  {
    Search(raw, (p: nat) => TpsChunkAt(raw, p))
  }

  /** The `TPs:` chunk is a non-empty piece of one line. */
  lemma TpsChunkOneLine(raw: string)
    requires TpsChunkOf(raw).Some?
    ensures |TpsChunkOf(raw).value| > 0
    ensures forall i :: 0 <= i < |TpsChunkOf(raw).value| ==> NotLineBreak(TpsChunkOf(raw).value[i])
  {
    var m := (p: nat) => TpsChunkAt(raw, p);
    assert forall p: nat :: m(p) == TpsChunkAt(raw, p);
    var p :| 0 <= p <= |raw| && m(p) == TpsChunkOf(raw);
  }

  /** `\bTP\d+\s*:\s*(NUM)` under re.I: the span of group 1. */
  function TpItemAt(s: string, p: nat): (r: Option<(nat, nat)>)
    ensures r.Some? ==> p < r.value.0 < r.value.1 <= |s|
  {
    var _ :- Bound(s, p);
    var a :- Lit(s, p, "tp");
    var d :- Digits1(s, a);
    ColonNum(s, d)
  }

  /** `re.finditer` with the `TP<n>:` rule from `p`: group 1 of every match, left to right. */
  function FindTpItems(s: string, p: nat): seq<real>
    decreases |s| - p
  {
    if p >= |s| then []
    else
      match TpItemAt(s, p)
      case Some(n) => [Value(s, n)] + FindTpItems(s, n.1)
      case None => FindTpItems(s, p + 1)
  }

  /** The numbers of the first `TPs:` line, or else every `TP<n>:` value. */
  function TpsOf(raw: string): seq<real>
  {
    var listed := match TpsChunkOf(raw) case Some(chunk) => FindNums(chunk, 0) case None => [];
    if |listed| > 0 then listed else FindTpItems(raw, 0)
  }

  // ---------------------------------------------------------------------
  // Leverage and tags
  // ---------------------------------------------------------------------

  const Joiners: seq<string> := ["a", "–", "-", "to", "at\U{E9}"]

  /** `(?:a|–|-|to|até)\s*(NUM)`: the alternatives in order, each followed by a number. */
  function JoinerNum(s: string, p: nat, alts: seq<string>): (r: Option<(nat, nat)>)
    ensures r.Some? ==> r.value.0 < r.value.1 <= |s|
  {
    if |alts| == 0 then None
    else
      match Lit(s, p, alts[0])
      case Some(q) =>
        (match NumSpan(s, q)
         case Some(n) => Some(n)
         case None => JoinerNum(s, p, alts[1..]))
      case None => JoinerNum(s, p, alts[1..])
  }

  /** `Alavancagem\s*:\s*(NUM)\s*[xX]\s*(?:a|–|-|to|até)\s*(NUM)\s*[xX]?` under re.I. */
  function LevRangeAt(s: string, p: nat): Option<(real, real)>
  {
    var a :- Lit(s, p, "alavancagem");
    var n1 :- ColonNum(s, a);
    var x :- Lit(s, Spaces(s, n1.1), "x");
    var n2 :- JoinerNum(s, Spaces(s, x), Joiners);
    Some((Value(s, n1), Value(s, n2)))
  }

  /** `Alavancagem\s*:\s*(NUM)\s*[xX]\b` under re.I. */
  function LevSingleAt(s: string, p: nat): Option<real>
  {
    var a :- Lit(s, p, "alavancagem");
    var n :- ColonNum(s, a);
    var x :- Lit(s, Spaces(s, n.1), "x");
    var _ :- Bound(s, x);
    Some(Value(s, n))
  }

  /** `re.search` with the leverage range rule. */
  function LevRangeOf(raw: string): Option<(real, real)>
  {
    Search(raw, (p: nat) => LevRangeAt(raw, p))
  }

  /** `re.search` with the single leverage rule. */
  function LevSingleOf(raw: string): Option<real>
  {
    Search(raw, (p: nat) => LevSingleAt(raw, p))
  }

  /** (lev_min, lev_max): a range, else one value for both, else neither. */
  function LeverageOf(raw: string): (Option<real>, Option<real>)
  {
    match LevRangeOf(raw)
    case Some((a, b)) => (Some(a), Some(b))
    case None =>
      match LevSingleOf(raw)
      case Some(v) => (Some(v), Some(v))
      case None => (None, None)
  }

  /** `#\w+` at `p`: the end of the tag. */
  function TagAt(s: string, p: nat): (r: Option<nat>)
    ensures r.Some? ==> p + 1 < r.value <= |s| && s[p] == '#'
    ensures r.Some? ==> forall i :: p + 1 <= i < r.value ==> IsWordChar(s[i])
  {
    var a :- Char(s, p, '#');
    if a < |s| && IsWordChar(s[a]) then Some(RunEnd(s, a, IsWordChar)) else None
  }

  /** `re.findall(r"#\w+", s)` from `p`: every tag, left to right, duplicates kept. */
  function FindTags(s: string, p: nat): seq<string>
    decreases |s| - p
  {
    if p >= |s| then []
    else
      match TagAt(s, p)
      case Some(e) => [s[p..e]] + FindTags(s, e)
      case None => FindTags(s, p + 1)
  }

  /** Every tag is `#` followed by one or more word characters. */
  lemma {:induction false} TagsShape(s: string, p: nat)
    ensures forall t :: t in FindTags(s, p) ==> |t| >= 2 && t[0] == '#' && forall i :: 1 <= i < |t| ==> IsWordChar(t[i])
    decreases |s| - p
  {
    if p < |s| {
      match TagAt(s, p)
      case Some(e) =>
        TagsShape(s, e);
        var t := s[p..e];
        assert forall i :: 1 <= i < |t| ==> t[i] == s[p + i];
      case None =>
        TagsShape(s, p + 1);
    }
  }

  // ---------------------------------------------------------------------
  // parse_signal_flexible
  // ---------------------------------------------------------------------

  /** What `parse_signal_flexible` returns or raises for `text`. */
  function ParseFlexible(text: string): Result<TradeSignal, PyError>
  {
    var raw := Strip(text);
    var side :- Need(SideOf(raw), ValueError(NoSide));
    var sym :- Need(SymbolOf(raw), ValueError(NoSymbol));
    var entry :- Need(EntryOf(raw), ValueError(NoEntry));
    var sl :- Need(SlOf(raw), ValueError(NoSl));
    var tps := TpsOf(raw);
    if |tps| == 0 then Err(ValueError(NoTps))
    else
      var lev := LeverageOf(raw);
      Ok(TradeSignal(side, sym, entry.0, entry.1, entry.2, sl, lev.0, lev.1, tps, FindTags(raw, 0)))
  }

  /** A parse succeeds exactly when every required field is found; every failure is a ValueError. */
  lemma ParseFailsIff(text: string)
    ensures var raw := Strip(text);
            ParseFlexible(text).Ok? <==>
              SideOf(raw).Some? && SymbolOf(raw).Some? && EntryOf(raw).Some? && SlOf(raw).Some? && |TpsOf(raw)| > 0
    ensures ParseFlexible(text).Err? ==> ParseFlexible(text).error.ValueError?
  {
  }

  /** A successful parse assembles the fields the scanners found. */
  lemma ParseFlexibleOk(text: string)
    requires ParseFlexible(text).Ok?
    ensures var raw := Strip(text);
            SideOf(raw).Some? && SymbolOf(raw).Some? && EntryOf(raw).Some? && SlOf(raw).Some? && |TpsOf(raw)| > 0
            && ParseFlexible(text).value ==
               TradeSignal(SideOf(raw).value, SymbolOf(raw).value,
                           EntryOf(raw).value.0, EntryOf(raw).value.1, EntryOf(raw).value.2,
                           SlOf(raw).value, LeverageOf(raw).0, LeverageOf(raw).1, TpsOf(raw), FindTags(raw, 0))
  {
  }

  /** What a successful parse guarantees about the signal. */
  lemma ParsedSignalShape(text: string)
    requires ParseFlexible(text).Ok?
    ensures var sig := ParseFlexible(text).value;
            (sig.side == "LONG" || sig.side == "SHORT")
            && 2 <= |sig.symbol| <= 15 && (forall i :: 0 <= i < |sig.symbol| ==> IsUpperAlnum(sig.symbol[i]))
            && sig.entryLow <= sig.entryHigh
            && |sig.tps| > 0
            && (sig.levMin.Some? <==> sig.levMax.Some?)
            && (forall t :: t in sig.tags ==> |t| >= 2 && t[0] == '#')
            && sig.notes.None?
  {
    var raw := Strip(text);
    ParseFlexibleOk(text);
    SideOfIsSide(raw);
    SymbolShape(raw);
    EntryBounds(raw);
    LeverageCases(raw);
    TagsShape(raw, 0);
  }

  /** Only a range sets two different leverages; a single value sets both. */
  lemma LeverageCases(raw: string)
    ensures LevRangeOf(raw).None? ==> LeverageOf(raw).0 == LeverageOf(raw).1
    ensures LeverageOf(raw).0.None? <==> LevRangeOf(raw).None? && LevSingleOf(raw).None?
    ensures LeverageOf(raw).0.Some? <==> LeverageOf(raw).1.Some?
  {
  }

  /** The symbol cascade as the source runs it: each rule reassigns `sym` while it is blank. */
  method ReadSymbol(raw: string) returns (sym: Option<string>)
    ensures sym == SymbolOf(raw)
  {
    sym := None;
    var m1 := Symbol1Of(raw);
    if m1.Some? {
      sym := Some(Upper(m1.value));
    }
    if Blank(sym) {
      var m2 := Symbol2Of(raw);
      if m2.Some? {
        sym := Some(Upper(m2.value));
      }
    }
    if Blank(sym) {
      var m3 := Symbol3Of(raw);
      if m3.Some? {
        sym := Some(Upper(m3.value));
      }
    }
    if Blank(sym) {
      sym := None;
    }
  }

  /** The entry cascade as the source runs it: a later rule is tried only while `entry_pm` is `None`. */
  method ReadEntry(raw: string) returns (entryLow: real, entryHigh: real, entryPm: Option<real>)
    ensures entryPm.Some? <==> EntryOf(raw).Some?
    ensures entryPm.Some? ==> EntryOf(raw) == Some((entryLow, entryHigh, entryPm.value))
  {
    entryLow, entryHigh := 0.0, 0.0;
    entryPm := None;
    var mEsc := EscOf(raw);
    if mEsc.Some? {
      entryLow, entryHigh := Validator.Min(mEsc.value.0, mEsc.value.1), Validator.Max(mEsc.value.0, mEsc.value.1);
      entryPm := Some(Mid(entryLow, entryHigh));
      return;
    }
    var mEnt := ClassicOf(raw);
    if mEnt.Some? {
      entryLow, entryHigh := Validator.Min(mEnt.value.0, mEnt.value.1), Validator.Max(mEnt.value.0, mEnt.value.1);
      if mEnt.value.2.Some? {
        entryPm := mEnt.value.2;
      } else {
        entryPm := Some(Mid(entryLow, entryHigh));
      }
      return;
    }
    var mOne := SingleOf(raw);
    if mOne.Some? {
      entryLow, entryHigh, entryPm := mOne.value, mOne.value, mOne;
    }
  }

  /** `for m in re.finditer(NUM, chunk): tps.append(_n(m.group(0)))`. */
  method CollectNums(chunk: string) returns (tps: seq<real>)
    ensures tps == FindNums(chunk, 0)
  {
    tps := [];
    var i := 0;
    while i < |chunk|
      invariant 0 <= i <= |chunk|
      invariant tps + FindNums(chunk, i) == FindNums(chunk, 0)
      decreases |chunk| - i
    {
      var e := Num(chunk, i);
      if e.Some? {
        tps := tps + [N(chunk[i..e.value])];
        i := e.value;
      } else {
        i := i + 1;
      }
    }
  }

  /** `for m in re.finditer(TP<n> rule, raw): tps.append(_n(m.group(1)))`. */
  method CollectTpItems(raw: string) returns (tps: seq<real>)
    ensures tps == FindTpItems(raw, 0)
  {
    tps := [];
    var p := 0;
    while p < |raw|
      invariant 0 <= p <= |raw|
      invariant tps + FindTpItems(raw, p) == FindTpItems(raw, 0)
      decreases |raw| - p
    {
      var m := TpItemAt(raw, p);
      if m.Some? {
        tps := tps + [Value(raw, m.value)];
        p := m.value.1;
      } else {
        p := p + 1;
      }
    }
  }

  /** The take-profit list: the `TPs:` line, and the `TP<n>:` values only while the list is empty. */
  method ReadTps(raw: string) returns (tps: seq<real>)
    ensures tps == TpsOf(raw)
  {
    tps := [];
    var mTps := TpsChunkOf(raw);
    if mTps.Some? {
      tps := CollectNums(mTps.value);
    }
    if |tps| == 0 {
      tps := CollectTpItems(raw);
    }
  }

  /** `parse_signal_flexible`: the field cascade, raising at the first missing field. */
  method ParseSignalFlexible(text: string) returns (r: Result<TradeSignal, PyError>)
    ensures r == ParseFlexible(text)
  {
    var raw := Strip(text);
    var mSide := SideOf(raw);
    if mSide.None? {
      FlexibleNoSide(text);
      return Err(ValueError(NoSide));
    }
    var side := mSide.value;
    var sym := ReadSymbol(raw);
    if sym.None? {
      FlexibleNoSymbol(text);
      return Err(ValueError(NoSymbol));
    }
    var entryLow, entryHigh, entryPm := ReadEntry(raw);
    if entryPm.None? {
      FlexibleNoEntry(text);
      return Err(ValueError(NoEntry));
    }
    var mSl := ReadSl(raw);
    if mSl.None? {
      FlexibleNoSl(text);
      return Err(ValueError(NoSl));
    }
    var sl := mSl.value;
    var tps := ReadTps(raw);
    if |tps| == 0 {
      FlexibleNoTps(text);
      return Err(ValueError(NoTps));
    }
    var levMin, levMax := ReadLeverage(raw);
    var tags := FindTags(raw, 0);
    FlexibleFromFields(text, side, sym.value, (entryLow, entryHigh, entryPm.value), sl);
    r := Ok(TradeSignal(side, sym.value, entryLow, entryHigh, entryPm.value, sl, levMin, levMax, tps, tags));
  }

  /** The stop-loss: the `SL:` label, or else the `Stop:` label. */
  method ReadSl(raw: string) returns (sl: Option<real>)
    ensures sl == SlOf(raw)
  {
    sl := SlLabelOf(raw);
    if sl.None? {
      sl := StopLabelOf(raw);
    }
  }

  /** The leverage: a range sets both bounds, a single value sets both to it. */
  method ReadLeverage(raw: string) returns (levMin: Option<real>, levMax: Option<real>)
    ensures (levMin, levMax) == LeverageOf(raw)
  {
    levMin, levMax := None, None;
    var mLev1 := LevRangeOf(raw);
    if mLev1.Some? {
      levMin, levMax := Some(mLev1.value.0), Some(mLev1.value.1);
    } else {
      var mLev2 := LevSingleOf(raw);
      if mLev2.Some? {
        levMin := mLev2;
        levMax := levMin;
      }
    }
  }

  /** Without a side the parse stops at once. */
  lemma FlexibleNoSide(text: string)
    requires SideOf(Strip(text)).None?
    ensures ParseFlexible(text) == Err(ValueError(NoSide))
  {
  }

  /** A side but no symbol. */
  lemma FlexibleNoSymbol(text: string)
    requires SideOf(Strip(text)).Some? && SymbolOf(Strip(text)).None?
    ensures ParseFlexible(text) == Err(ValueError(NoSymbol))
  {
  }

  /** A side and a symbol but no entry. */
  lemma FlexibleNoEntry(text: string)
    requires SideOf(Strip(text)).Some? && SymbolOf(Strip(text)).Some? && EntryOf(Strip(text)).None?
    ensures ParseFlexible(text) == Err(ValueError(NoEntry))
  {
  }

  /** Everything up to the entry but no stop-loss. */
  lemma FlexibleNoSl(text: string)
    requires SideOf(Strip(text)).Some? && SymbolOf(Strip(text)).Some? && EntryOf(Strip(text)).Some?
    requires SlOf(Strip(text)).None?
    ensures ParseFlexible(text) == Err(ValueError(NoSl))
  {
  }

  /** Everything up to the stop-loss but no take-profit. */
  lemma FlexibleNoTps(text: string)
    requires SideOf(Strip(text)).Some? && SymbolOf(Strip(text)).Some? && EntryOf(Strip(text)).Some?
    requires SlOf(Strip(text)).Some? && |TpsOf(Strip(text))| == 0
    ensures ParseFlexible(text) == Err(ValueError(NoTps))
  {
  }

  /** With every required field found, the parse assembles them. */
  lemma FlexibleFromFields(text: string, side: string, sym: string, entry: (real, real, real), sl: real)
    requires SideOf(Strip(text)) == Some(side) && SymbolOf(Strip(text)) == Some(sym)
    requires EntryOf(Strip(text)) == Some(entry) && SlOf(Strip(text)) == Some(sl)
    requires |TpsOf(Strip(text))| > 0
    ensures var raw := Strip(text);
            ParseFlexible(text)
              == Ok(TradeSignal(side, sym, entry.0, entry.1, entry.2, sl,
                                LeverageOf(raw).0, LeverageOf(raw).1, TpsOf(raw), FindTags(raw, 0)))
  {
  }
}
