/**
 * The Python string primitives the forwarder relies on (`str.strip`,
 * `str.lstrip`, `str.lower`, `str.upper`, `str.isdigit`, `str.split`,
 * `in`, `int(str)`, `str(int)`), over `seq<char>`.
 *
 * Character classes follow Python for the Latin-1 range (U+0000..U+00FF);
 * letters and digits beyond it are treated as plain symbols.  In that range
 * `str.isdigit()` also holds for the superscripts U+00B2, U+00B3 and U+00B9,
 * which neither the regex class `\d` nor `int()` accepts.
 */
module Text {
  import opened Wrappers

  // ---------------------------------------------------------------------
  // Character classes
  // ---------------------------------------------------------------------

  /** `str.isspace()`, which is also what the regex class `\s` matches. */
  predicate IsSpace(c: char)
  {
    c == ' ' || ('\t' <= c <= '\r') || ('\U{1C}' <= c <= '\U{1F}')
    || c == '\U{85}' || c == '\U{A0}' || c == '\U{1680}'
    || ('\U{2000}' <= c <= '\U{200A}') || c == '\U{2028}' || c == '\U{2029}'
    || c == '\U{202F}' || c == '\U{205F}' || c == '\U{3000}'
  }

  /** A decimal digit: what the regex class `\d` matches and `int()` reads. */
  predicate IsDigit(c: char) { '0' <= c <= '9' }

  /** `str.isdigit()` on one character: a decimal digit or a superscript ², ³, ¹. */
  predicate IsPyDigit(c: char) { IsDigit(c) || c == '\U{B2}' || c == '\U{B3}' || c == '\U{B9}' }

  predicate IsAsciiUpper(c: char) { 'A' <= c <= 'Z' }

  predicate IsAsciiLower(c: char) { 'a' <= c <= 'z' }

  predicate IsAsciiAlnum(c: char) { IsDigit(c) || IsAsciiUpper(c) || IsAsciiLower(c) }

  /** Regex `\w`: letters, digits and `_` (Latin-1 letters and numerals included). */
  predicate IsWordChar(c: char)
  {
    IsAsciiAlnum(c) || c == '_'
    || c == '\U{AA}' || c == '\U{B2}' || c == '\U{B3}' || c == '\U{B5}'
    || c == '\U{B9}' || c == '\U{BA}' || ('\U{BC}' <= c <= '\U{BE}')
    || ('\U{C0}' <= c <= '\U{FF}' && c != '\U{D7}' && c != '\U{F7}')
  }

  // ---------------------------------------------------------------------
  // Case mapping
  // ---------------------------------------------------------------------

  /** `str.lower()` on one character; also the case folding used by `re.I`. */
  function LowerChar(c: char): char
  {
    if IsAsciiUpper(c) || ('\U{C0}' <= c <= '\U{DE}' && c != '\U{D7}') then (c as int + 32) as char else c
  }

  /** `str.lower()`: character by character, so the length is kept. */
  function Lower(s: string): (r: string)
    ensures |r| == |s|
    ensures forall i :: 0 <= i < |s| ==> r[i] == LowerChar(s[i])
  {
    seq(|s|, i requires 0 <= i < |s| => LowerChar(s[i]))
  }

  /** `str.upper()` on one character (`ß` becomes `SS`). */
  function UpperChar(c: char): string
  {
    if IsAsciiLower(c) || ('\U{E0}' <= c <= '\U{FE}' && c != '\U{F7}') then [(c as int - 32) as char]
    else if c == '\U{FF}' then ['\U{178}']
    else if c == '\U{B5}' then ['\U{39C}']
    else if c == '\U{DF}' then "SS"
    else [c]
  }

  /** `str.upper()`. */
  function Upper(s: string): string
  {
    if |s| == 0 then [] else UpperChar(s[0]) + Upper(s[1..])
  }

  /** A text whose characters fold to an ASCII lower-case word upper-cases to that word in capitals. */
  lemma {:induction false} UpperOfFolded(s: string, word: string)
    requires |s| == |word|
    requires forall i :: 0 <= i < |word| ==> IsAsciiLower(word[i]) && LowerChar(s[i]) == word[i]
    ensures Upper(s) == AsciiUpper(word)
  {
    if |s| > 0 {
      UpperOfFolded(s[1..], word[1..]);
      assert UpperChar(s[0]) == [AsciiUpperChar(word[0])];
    }
  }

  function AsciiUpperChar(c: char): char
  {
    if IsAsciiLower(c) then (c as int - 32) as char else c
  }

  /** Upper-cases ASCII letters only. */
  function AsciiUpper(s: string): (r: string)
    ensures |r| == |s|
  {
    if |s| == 0 then [] else [AsciiUpperChar(s[0])] + AsciiUpper(s[1..])
  }

  /** Upper-casing leaves capitals and digits alone. */
  lemma {:induction false} UpperOfUpper(s: string)
    requires forall i :: 0 <= i < |s| ==> IsAsciiUpper(s[i]) || IsDigit(s[i])
    ensures Upper(s) == s
  {
    if |s| > 0 {
      UpperOfUpper(s[1..]);
      assert s == [s[0]] + s[1..];
    }
  }

  // ---------------------------------------------------------------------
  // Stripping
  // ---------------------------------------------------------------------

  /** `str.lstrip()`: drops the leading whitespace. */
  function TrimStart(s: string): (r: string)
    ensures |r| <= |s| && r == s[|s| - |r|..]
    ensures forall i :: 0 <= i < |s| - |r| ==> IsSpace(s[i])
    ensures |r| > 0 ==> !IsSpace(r[0])
    decreases |s|
  {
    if |s| > 0 && IsSpace(s[0]) then TrimStart(s[1..]) else s
  }

  /** `str.rstrip()`: drops the trailing whitespace. */
  function TrimEnd(s: string): (r: string)
    ensures |r| <= |s| && r == s[..|r|]
    ensures forall i :: |r| <= i < |s| ==> IsSpace(s[i])
    ensures |r| > 0 ==> !IsSpace(r[|r| - 1])
    decreases |s|
  {
    if |s| > 0 && IsSpace(s[|s| - 1]) then TrimEnd(s[..|s| - 1]) else s
  }

  /** `str.strip()`. */
  function Strip(s: string): string
  {
    TrimEnd(TrimStart(s))
  }

  /** How many copies of `c` the text starts with. */
  function LeadingCount(s: string, c: char): (n: nat)
    ensures n <= |s|
    ensures forall i :: 0 <= i < n ==> s[i] == c
    ensures n < |s| ==> s[n] != c
  {
    if |s| > 0 && s[0] == c then 1 + LeadingCount(s[1..], c) else 0
  }

  /** `str.lstrip(c)`: drops every leading copy of `c`. */
  function LStrip(s: string, c: char): string
  {
    s[LeadingCount(s, c)..]
  }

  /** A text without whitespace at either end is its own strip. */
  lemma StripNoSpace(s: string)
    requires forall i :: 0 <= i < |s| ==> !IsSpace(s[i])
    ensures Strip(s) == s
  {
  }

  // ---------------------------------------------------------------------
  // Digits and integers
  // ---------------------------------------------------------------------

  /** `str.isdigit()`: non-empty and made of `isdigit` characters only. */
  predicate IsDigits(s: string)
  {
    |s| > 0 && forall i :: 0 <= i < |s| ==> IsPyDigit(s[i])
  }

  /** Non-empty and made of decimal digits only. */
  predicate IsDecimal(s: string)
  {
    |s| > 0 && forall i :: 0 <= i < |s| ==> IsDigit(s[i])
  }

  /** The guard `s.lstrip("-").isdigit()` used throughout the configuration. */
  predicate IsIntLike(s: string)
  {
    IsDigits(LStrip(s, '-'))
  }

  /** A text that passes the guard and that `int()` then reads: at most one `-`, then decimal digits. */
  predicate IsIntText(s: string)
  {
    IsIntLike(s) && LeadingCount(s, '-') <= 1 && IsDecimal(LStrip(s, '-'))
  }

  function DigitValue(c: char): nat
  {
    if IsDigit(c) then c as int - '0' as int else 0
  }

  /** The value of a decimal digit string. */
  function DigitsValue(s: string): nat
  {
    if |s| == 0 then 0 else DigitsValue(s[..|s| - 1]) * 10 + DigitValue(s[|s| - 1])
  }

  function DigitChar(d: nat): char
    requires d < 10
  {
    ('0' as int + d) as char
  }

  /** `str(n)` for a natural number: the shortest digit string of value `n`. */
  function NatToString(n: nat): (r: string)
    ensures IsDecimal(r) && IsDigits(r) && DigitsValue(r) == n
    ensures r[0] == '0' ==> n == 0
  {
    if n < 10 then [DigitChar(n)]
    else
      var r := NatToString(n / 10) + [DigitChar(n % 10)];
      assert r[..|r| - 1] == NatToString(n / 10);
      r
  }

  /** `str(i)` for an integer. */
  function IntToString(i: int): string
  {
    if i < 0 then "-" + NatToString(-i) else NatToString(i)
  }

  /** Digits with single underscores between them, as `int()` accepts. */
  predicate IsUnderscoredDigits(s: string)
  {
    |s| > 0 && IsDigit(s[0]) && IsDigit(s[|s| - 1])
    && forall i :: 0 <= i < |s| ==> IsDigit(s[i]) || (s[i] == '_' && i + 1 < |s| && IsDigit(s[i + 1]))
  }

  function RemoveUnderscores(s: string): string
  {
    if |s| == 0 then [] else (if s[0] == '_' then [] else [s[0]]) + RemoveUnderscores(s[1..])
  }

  /** Python `int(s)` for a string in base 10; `None` where Python raises `ValueError`. */
  function PyInt(s: string): Option<int>
  {
    var t := Strip(s);
    if |t| > 0 && (t[0] == '-' || t[0] == '+') then
      if IsUnderscoredDigits(t[1..]) then
        var v: int := DigitsValue(RemoveUnderscores(t[1..]));
        Some(if t[0] == '-' then -v else v)
      else None
    else if IsUnderscoredDigits(t) then Some(DigitsValue(RemoveUnderscores(t)))
    else None
  }

  lemma RemoveUnderscoresOfDigits(s: string)
    requires forall i :: 0 <= i < |s| ==> IsDigit(s[i])
    ensures RemoveUnderscores(s) == s
  {
    if |s| > 0 {
      RemoveUnderscoresOfDigits(s[1..]);
      assert s == [s[0]] + s[1..];
    }
  }

  /** `int(str(i)) == i`: the integer's text reads back as the integer. */
  lemma PyIntOfIntToString(i: int)
    ensures PyInt(IntToString(i)) == Some(i)
  {
    if i < 0 {
      var s := IntToString(i);
      assert s[1..] == NatToString(-i);
      PyIntOfNegDigits(s);
    } else {
      PyIntOfDigits(NatToString(i));
    }
  }

  /** The text of an integer passes the guard `s.lstrip("-").isdigit()`, and `int()` reads it. */
  lemma IntToStringIsIntLike(i: int)
    ensures IsIntLike(IntToString(i)) && IsIntText(IntToString(i))
    ensures LeadingCount(IntToString(i), '-') == if i < 0 then 1 else 0
  {
    var ds := NatToString(if i < 0 then -i else i);
    assert LeadingCount(ds, '-') == 0;
    if i < 0 {
      var s := IntToString(i);
      assert s[1..] == ds;
      assert LeadingCount(s, '-') == 1;
    }
  }

  /** For a text that passes the guard `s.lstrip("-").isdigit()`, `int(s)` succeeds
      exactly when there is at most one leading `-` and the rest is decimal, and then
      gives the signed digit value; `--5` and `²` pass the guard and raise. */
  lemma PyIntOfIntLike(s: string)
    requires IsIntLike(s)
    ensures PyInt(s).Some? <==> IsIntText(s)
    ensures IsIntText(s) ==>
              PyInt(s) == Some(if LeadingCount(s, '-') == 0 then DigitsValue(s) as int else -(DigitsValue(s[1..]) as int))
  {
    var n := LeadingCount(s, '-');
    NoSpaceInIntLike(s);
    StripNoSpace(s);
    if n == 0 {
      assert LStrip(s, '-') == s;
      if IsDecimal(s) {
        PyIntOfDigits(s);
      } else {
        NotDecimalNotInt(s);
      }
    } else if n == 1 {
      assert LStrip(s, '-') == s[1..];
      if IsDecimal(s[1..]) {
        PyIntOfNegDigits(s);
      } else {
        NotDecimalNotInt(s[1..]);
      }
    } else {
      PyIntOfDoubleMinus(s);
    }
  }

  /** `isdigit` text that is not decimal holds a superscript, which `int()` rejects. */
  lemma NotDecimalNotInt(s: string)
    requires IsDigits(s) && !IsDecimal(s)
    ensures !IsUnderscoredDigits(s)
  {
    var i :| 0 <= i < |s| && !IsDigit(s[i]);
    assert IsPyDigit(s[i]) && s[i] != '_';
    if i + 1 < |s| {
      // the rule of `IsUnderscoredDigits` is triggered by a character together with the next one
      var next := s[i + 1];
    }
  }

  /** `int()` of an `isdigit` text: its value when all digits are decimal, an exception otherwise. */
  lemma PyIntOfIsDigits(s: string)
    requires IsDigits(s)
    ensures PyInt(s) == if IsDecimal(s) then Some(DigitsValue(s) as int) else None
  {
    assert LStrip(s, '-') == s by {
      assert LeadingCount(s, '-') == 0;
    }
    PyIntOfIntLike(s);
  }

  /** The superscript two passes `isdigit()` and is not decimal. */
  lemma SuperscriptTwoIsDigit()
    ensures IsDigits("\U{B2}") && !IsDecimal("\U{B2}")
  {
    var s := "\U{B2}";
    assert |s| == 1 && s[0] == '\U{B2}';
    assert IsPyDigit(s[0]) && !IsDigit(s[0]);
  }

  lemma NoSpaceInIntLike(s: string)
    requires IsIntLike(s)
    ensures forall i :: 0 <= i < |s| ==> !IsSpace(s[i])
  {
    var n := LeadingCount(s, '-');
    forall i | 0 <= i < |s| ensures !IsSpace(s[i]) {
      if i >= n {
        assert s[i] == LStrip(s, '-')[i - n];
      }
    }
  }

  lemma PyIntOfDigits(s: string)
    requires IsDecimal(s)
    ensures PyInt(s) == Some(DigitsValue(s) as int)
  {
    StripNoSpace(s);
    RemoveUnderscoresOfDigits(s);
    assert IsUnderscoredDigits(s);
  }

  lemma PyIntOfNegDigits(s: string)
    requires |s| > 0 && s[0] == '-' && IsDecimal(s[1..])
    ensures PyInt(s) == Some(-(DigitsValue(s[1..]) as int))
  {
    assert forall i :: 0 <= i < |s| ==> !IsSpace(s[i]) by {
      forall i | 0 <= i < |s| ensures !IsSpace(s[i]) {
        if i > 0 { assert s[i] == s[1..][i - 1]; }
      }
    }
    StripNoSpace(s);
    RemoveUnderscoresOfDigits(s[1..]);
    assert IsUnderscoredDigits(s[1..]);
  }

  lemma PyIntOfDoubleMinus(s: string)
    requires |s| >= 2 && s[0] == '-' && s[1] == '-'
    requires forall i :: 0 <= i < |s| ==> !IsSpace(s[i])
    ensures PyInt(s) == None
  {
    StripNoSpace(s);
    assert !IsUnderscoredDigits(s[1..]);
    assert !IsUnderscoredDigits(s);
  }

  // ---------------------------------------------------------------------
  // Substrings, splitting and joining
  // ---------------------------------------------------------------------

  predicate OccursAt(s: string, sub: string, i: nat)
  {
    i + |sub| <= |s| && s[i..i + |sub|] == sub
  }

  /** Python `sub in s`. */
  predicate Contains(s: string, sub: string)
  {
    exists i: nat :: i <= |s| && OccursAt(s, sub, i)
  }

  /** `in` is transitive: a text containing `t` contains everything `t` contains. */
  lemma ContainsTransitive(s: string, t: string, sub: string)
    requires Contains(s, t) && Contains(t, sub)
    ensures Contains(s, sub)
  {
    var i: nat :| i <= |s| && OccursAt(s, t, i);
    var j: nat :| j <= |t| && OccursAt(t, sub, j);
    forall k | 0 <= k < |sub| ensures s[i + j + k] == sub[k] {
      assert t[j + k] == sub[k];
      assert s[i + (j + k)] == t[j + k];
    }
    assert OccursAt(s, sub, i + j);
  }

  /** Lower-casing keeps occurrences. */
  lemma ContainsLower(s: string, t: string)
    requires Contains(s, t)
    ensures Contains(Lower(s), Lower(t))
  {
    var i: nat :| i <= |s| && OccursAt(s, t, i);
    assert Lower(s)[i..i + |t|] == Lower(t);
    assert OccursAt(Lower(s), Lower(t), i);
  }

  /** Python `s.split(sep)` for a one-character separator. */
  function Split(s: string, sep: char): (r: seq<string>)
    ensures |r| >= 1
    decreases |s|
  {
    if |s| == 0 then [""]
    else
      var rest := Split(s[1..], sep);
      if s[0] == sep then [""] + rest else [[s[0]] + rest[0]] + rest[1..]
  }

  /** Python `sep.join(parts)`. */
  function Join(parts: seq<string>, sep: string): string
  {
    if |parts| == 0 then ""
    else if |parts| == 1 then parts[0]
    else parts[0] + sep + Join(parts[1..], sep)
  }

  /** Splitting on a character and joining with it gives the text back, and no piece holds the separator. */
  lemma {:induction false} SplitJoin(s: string, sep: char)
    ensures Join(Split(s, sep), [sep]) == s
    ensures forall k, i :: 0 <= k < |Split(s, sep)| && 0 <= i < |Split(s, sep)[k]| ==> Split(s, sep)[k][i] != sep
    decreases |s|
  {
    if |s| > 0 {
      SplitJoin(s[1..], sep);
      var rest := Split(s[1..], sep);
      if s[0] == sep {
        assert Join([""] + rest, [sep]) == "" + [sep] + Join(rest, [sep]);
      } else {
        var r := [[s[0]] + rest[0]] + rest[1..];
        if |rest| == 1 {
          assert r == [[s[0]] + rest[0]];
        } else {
          assert r[1..] == rest[1..];
          assert Join(rest, [sep]) == rest[0] + [sep] + Join(rest[1..], [sep]);
          assert Join(r, [sep]) == r[0] + [sep] + Join(r[1..], [sep]);
        }
        forall k, i | 0 <= k < |r| && 0 <= i < |r[k]| ensures r[k][i] != sep {
          if k == 0 {
            if i > 0 { assert r[0][i] == rest[0][i - 1]; }
          } else {
            assert r[k] == rest[k];
          }
        }
      }
    }
  }

  /** The position of the first `c` in `s`. */
  function IndexOf(s: string, c: char): (r: Option<nat>)
    ensures r.Some? ==> r.value < |s| && s[r.value] == c && forall j :: 0 <= j < r.value ==> s[j] != c
    ensures r.None? ==> forall j :: 0 <= j < |s| ==> s[j] != c
  {
    if |s| == 0 then None
    else if s[0] == c then Some(0)
    else match IndexOf(s[1..], c)
      case None => None
      case Some(k) => Some(k + 1)
  }
}
