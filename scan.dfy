/**
 * Hand-written scanners for the regular expressions of the signal parser
 * (src/parser_signal.py).  Each scanner takes a text and a position and
 * returns the position after the piece it recognises, or `None`; searches
 * try every start position from the left, as `re.search` and
 * `re.finditer` do.  `re.IGNORECASE` folds with `LowerChar`, `\s` is
 * `IsSpace`, `\w` is `IsWordChar`, `\d` is an ASCII digit.
 */
module Scan {
  import opened Wrappers
  import opened Text

  // ---------------------------------------------------------------------
  // Searching
  // ---------------------------------------------------------------------

  /** The leftmost position in `from..n` where `ok` holds. */
  function First(n: nat, from: nat, ok: nat -> bool): (r: Option<nat>)
    requires from <= n + 1
    ensures r.Some? ==> from <= r.value <= n && ok(r.value) && forall q :: from <= q < r.value ==> !ok(q)
    ensures r.None? ==> forall q :: from <= q <= n ==> !ok(q)
    decreases n + 1 - from
  {
    if from == n + 1 then None
    else if ok(from) then Some(from)
    else First(n, from + 1, ok)
  }

  /** `re.search`: the match at the leftmost position of `s` where `m` matches. */
  function Search<T>(s: string, m: nat -> Option<T>): (r: Option<T>)
    ensures r.None? <==> forall p :: 0 <= p <= |s| ==> m(p).None?
    ensures r.Some? ==> exists p :: 0 <= p <= |s| && m(p) == r && forall q :: 0 <= q < p ==> m(q).None?
  {
    var ok := (q: nat) => m(q).Some?;
    assert forall q: nat :: ok(q) == m(q).Some?;
    match First(|s|, 0, ok)
    case Some(p) => m(p)
    case None => None
  }

  /** The largest `k` in `lo..hi` where `ok` holds (greedy repetition giving back characters). */
  function Longest(lo: nat, hi: int, ok: nat -> bool): (r: Option<nat>)
    ensures r.Some? ==> lo <= r.value <= hi && ok(r.value) && forall k :: r.value < k <= hi ==> !ok(k)
    ensures r.None? ==> forall k :: lo <= k <= hi ==> !ok(k)
    decreases hi - lo
  {
    if hi < lo then None
    else if ok(hi) then Some(hi)
    else Longest(lo, hi - 1, ok)
  }

  // ---------------------------------------------------------------------
  // Single pieces
  // ---------------------------------------------------------------------

  /** Case-insensitive match of `c` against a pattern character given in lower case. */
  predicate EqI(c: char, p: char)
  {
    LowerChar(c) == p
  }

  /** A literal under `re.I`; `lit` is written in lower case. */
  function Lit(s: string, p: nat, lit: string): (r: Option<nat>)
    ensures r.Some? <==> p + |lit| <= |s| && forall i :: 0 <= i < |lit| ==> EqI(s[p + i], lit[i])
    ensures r.Some? ==> r.value == p + |lit|
  {
    if p + |lit| <= |s| && forall i :: 0 <= i < |lit| ==> EqI(s[p + i], lit[i]) then Some(p + |lit|) else None
  }

  /** A case-sensitive literal. */
  function Exact(s: string, p: nat, lit: string): (r: Option<nat>)
    ensures r.Some? <==> OccursAt(s, lit, p)
    ensures r.Some? ==> r.value == p + |lit|
  {
    if OccursAt(s, lit, p) then Some(p + |lit|) else None
  }

  /** One character equal to `c`. */
  function Char(s: string, p: nat, c: char): (r: Option<nat>)
    ensures r.Some? <==> p < |s| && s[p] == c
    ensures r.Some? ==> r.value == p + 1
  {
    if p < |s| && s[p] == c then Some(p + 1) else None
  }

  /** `[-–]`: a hyphen or an en dash. */
  function Dash(s: string, p: nat): (r: Option<nat>)
    ensures r.Some? <==> p < |s| && (s[p] == '-' || s[p] == '–')
    ensures r.Some? ==> r.value == p + 1
  {
    if p < |s| && (s[p] == '-' || s[p] == '–') then Some(p + 1) else None
  }

  /** `c?` under `re.I`: one optional character. */
  function OptI(s: string, p: nat, c: char): (q: nat)
    ensures q == p || q == p + 1
    ensures q == p + 1 <==> p < |s| && EqI(s[p], c)
  {
    if p < |s| && EqI(s[p], c) then p + 1 else p
  }

  predicate WordBefore(s: string, p: nat)
  {
    0 < p <= |s| && IsWordChar(s[p - 1])
  }

  predicate WordAfter(s: string, p: nat)
  {
    p < |s| && IsWordChar(s[p])
  }

  /** `\b`: a word character on exactly one side. */
  predicate Boundary(s: string, p: nat)
  {
    p <= |s| && WordBefore(s, p) != WordAfter(s, p)
  }

  function Bound(s: string, p: nat): (r: Option<nat>)
    ensures r.Some? <==> Boundary(s, p)
    ensures r.Some? ==> r.value == p
  {
    if Boundary(s, p) then Some(p) else None
  }

  /** The end of the longest run of characters satisfying `ok` from `p`. */
  function RunEnd(s: string, p: nat, ok: char -> bool): (q: nat)
    ensures p <= |s| ==> p <= q <= |s|
    ensures p > |s| ==> q == p
    ensures forall i :: p <= i < q ==> ok(s[i])
    ensures q < |s| ==> !ok(s[q])
    decreases |s| - p
  {
    if p < |s| && ok(s[p]) then RunEnd(s, p + 1, ok) else p
  }

  /** `\s*`. */
  function Spaces(s: string, p: nat): (q: nat)
    ensures p <= |s| ==> p <= q <= |s|
    ensures p > |s| ==> q == p
    ensures forall i :: p <= i < q ==> IsSpace(s[i])
    ensures q < |s| ==> !IsSpace(s[q])
  {
    RunEnd(s, p, IsSpace)
  }

  /** `\s+`. */
  function Spaces1(s: string, p: nat): (r: Option<nat>)
    ensures r.Some? <==> p < |s| && IsSpace(s[p])
    ensures r.Some? ==> r.value == Spaces(s, p)
  {
    if p < |s| && IsSpace(s[p]) then Some(Spaces(s, p)) else None
  }

  /** `\d+`. */
  function Digits1(s: string, p: nat): (r: Option<nat>)
    ensures r.Some? <==> p < |s| && IsDigit(s[p])
    ensures r.Some? ==> p < r.value <= |s| && IsDecimal(s[p..r.value])
  {
    if p < |s| && IsDigit(s[p]) then
      var q := RunEnd(s, p, IsDigit);
      assert forall i :: 0 <= i < q - p ==> s[p..q][i] == s[p + i];
      Some(q)
    else None
  }

  // ---------------------------------------------------------------------
  // Numbers: NUM = [-+]?\d+(?:[.,]\d+)? and _n
  // ---------------------------------------------------------------------

  predicate IsSign(c: char) { c == '-' || c == '+' }

  predicate IsDecimalPoint(c: char) { c == '.' || c == ',' }

  /** Digits, a decimal separator at `k`, digits. */
  predicate PointAt(b: string, k: nat)
  {
    0 < k < |b| - 1 && IsDecimal(b[..k]) && IsDecimalPoint(b[k]) && IsDecimal(b[k + 1..])
  }

  /** The shape of a NUM token: optional sign, digits, optionally a separator and digits. */
  predicate IsNumToken(t: string)
  {
    var b := if |t| > 0 && IsSign(t[0]) then t[1..] else t;
    IsDecimal(b) || exists k: nat :: k < |b| && PointAt(b, k)
  }

  /** NUM at `p`, greedy; the end of the token. */
  function Num(s: string, p: nat): (r: Option<nat>)
    ensures r.Some? ==> p < r.value <= |s| && IsNumToken(s[p..r.value])
    ensures r.Some? <==> exists q :: q == (if p < |s| && IsSign(s[p]) then p + 1 else p) && q < |s| && IsDigit(s[q])
  {
    var q := if p < |s| && IsSign(s[p]) then p + 1 else p;
    var d :- Digits1(s, q);
    if d + 1 < |s| && IsDecimalPoint(s[d]) && IsDigit(s[d + 1]) then
      var e := RunEnd(s, d + 1, IsDigit);
      NumTokenWithPoint(s, p, q, d, e);
      Some(e)
    else
      assert s[p..d] == (if q == p + 1 then [s[p]] else []) + s[q..d];
      Some(d)
  }

  lemma NumTokenWithPoint(s: string, p: nat, q: nat, d: nat, e: nat)
    requires p <= q <= p + 1 && q < d < e <= |s|
    requires q == p + 1 ==> IsSign(s[p])
    requires q == p ==> !(p < |s| && IsSign(s[p]))
    requires IsDecimal(s[q..d]) && IsDecimalPoint(s[d]) && d + 1 < e
    requires forall i :: d + 1 <= i < e ==> IsDigit(s[i])
    ensures IsNumToken(s[p..e])
  {
    var t := s[p..e];
    var b := s[q..e];
    assert b == (if |t| > 0 && IsSign(t[0]) then t[1..] else t);
    var k := d - q;
    assert b[..k] == s[q..d];
    assert b[k] == s[d];
    assert b[k + 1..] == s[d + 1..e];
    var u := s[d + 1..e];
    forall i | 0 <= i < |u| ensures IsDigit(u[i]) {
      assert u[i] == s[d + 1 + i];
    }
    assert PointAt(b, k);
  }

  /** `x.replace(",", ".")`. */
  function CommaToDot(x: string): (r: string)
    ensures |r| == |x|
    ensures forall i :: 0 <= i < |x| ==> r[i] == (if x[i] == ',' then '.' else x[i])
  {
    seq(|x|, i requires 0 <= i < |x| => if x[i] == ',' then '.' else x[i])
  }

  function Pow10(n: nat): (r: nat)
    ensures r > 0
  {
    if n == 0 then 1 else 10 * Pow10(n - 1)
  }

  /** The exact value of `[-+]?digits(.digits)?`, read as `float()` would without rounding. */
  function DecimalValue(x: string): real
  {
    var neg := |x| > 0 && x[0] == '-';
    var b := if |x| > 0 && IsSign(x[0]) then x[1..] else x;
    var k := RunEnd(b, 0, IsDigit);
    var frac := if k < |b| then b[k + 1..] else "";
    var mag := DigitsValue(b[..k]) as real + DigitsValue(frac) as real / Pow10(|frac|) as real;
    if neg then -mag else mag
  }

  /** `_n`: a NUM token with `,` read as the decimal point. */
  function N(x: string): real
  {
    DecimalValue(CommaToDot(x))
  }

  /** A comma and a dot give the same number. */
  lemma CommaIsDot(a: string, b: string)
    ensures N(a + "," + b) == N(a + "." + b)
  {
    var x, y := a + "," + b, a + "." + b;
    forall i | 0 <= i < |x| ensures CommaToDot(x)[i] == CommaToDot(y)[i] {
      if i == |a| {
        assert x[i] == ',' && y[i] == '.';
      } else {
        assert x[i] == y[i];
      }
    }
    assert CommaToDot(x) == CommaToDot(y);
  }

  /** A natural number written in decimal reads back as itself. */
  lemma NOfNat(n: nat)
    ensures N(NatToString(n)) == n as real
  {
    var x := NatToString(n);
    assert CommaToDot(x) == x;
    var k := RunEnd(x, 0, IsDigit);
    assert k == |x|;
    assert x[..k] == x;
  }

  /** `re.finditer(NUM, s)` from `p`: the value of every non-overlapping token, left to right. */
  function FindNums(s: string, p: nat): seq<real>
    decreases |s| - p
  {
    if p >= |s| then []
    else
      match Num(s, p)
      case Some(e) => [N(s[p..e])] + FindNums(s, e)
      case None => FindNums(s, p + 1)
  }

  /** Text without a digit holds no number. */
  lemma {:induction false} FindNumsNoDigit(s: string, p: nat)
    requires forall i :: p <= i < |s| ==> !IsDigit(s[i])
    ensures FindNums(s, p) == []
    decreases |s| - p
  {
    if p < |s| {
      FindNumsNoDigit(s, p + 1);
    }
  }
}
