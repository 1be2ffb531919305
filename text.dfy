/**
 * The few pieces of Go's standard library that the radio client's logic relies on:
 * decimal and hexadecimal formatting (strconv.Itoa, fmt's %d, %x and width padding),
 * decimal parsing (strconv.ParseInt / strconv.Atoi), strings.Trim, strings.ToLower,
 * strings.HasPrefix / HasSuffix and path/filepath's Ext and Base (with '/' as separator).
 */
module Text {
  import opened Wrappers

  const MinInt32 := -0x8000_0000
  const MaxInt32 := 0x7fff_ffff
  const MinInt64 := -0x8000_0000_0000_0000
  const MaxInt64 := 0x7fff_ffff_ffff_ffff

  // ---------------------------------------------------------------- digits

  predicate IsDigit(c: char) { '0' <= c <= '9' }

  predicate AllDigits(s: string) { forall i :: 0 <= i < |s| ==> IsDigit(s[i]) }

  function DigitValue(c: char): (d: nat)
    requires IsDigit(c)
    ensures d < 10
  {
    c as int - '0' as int
  }

  function DigitChar(d: nat): (c: char)
    requires d < 10
    ensures IsDigit(c) && DigitValue(c) == d
  {
    ('0' as int + d) as char
  }

  /** The value of a string of decimal digits, most significant first. */
  function DigitsValue(s: string): nat
    requires AllDigits(s)
  {
    if s == [] then 0 else DigitsValue(s[..|s| - 1]) * 10 + DigitValue(s[|s| - 1])
  }

  /** The decimal digits of n, most significant first, without leading zeros. */
  function NatText(n: nat): (s: string)
    ensures |s| >= 1 && AllDigits(s)
    ensures s[0] != '0' || n == 0
  {
    if n < 10 then [DigitChar(n)] else NatText(n / 10) + [DigitChar(n % 10)]
  }

  /** strconv.Itoa, also fmt's %d: a leading '-' for negative numbers. */
  function Itoa(n: int): (s: string)
  {
    if n < 0 then "-" + NatText(-n) else NatText(n)
  }

  lemma {:induction false} DigitsValueNatText(n: nat)
    ensures DigitsValue(NatText(n)) == n
  {
    if n >= 10 {
      var s := NatText(n);
      assert s[..|s| - 1] == NatText(n / 10);
      DigitsValueNatText(n / 10);
    }
  }

  // ---------------------------------------------------------------- parsing

  /**
   * The syntax accepted by strconv.ParseInt(s, 10, _): an optional '+' or '-' followed by
   * one or more decimal digits; None for anything else. The value is not range-checked here.
   */
  function ParseDecimal(s: string): (r: Option<int>)
  {
    if |s| > 0 && (s[0] == '+' || s[0] == '-') then
      var body := s[1..];
      if |body| > 0 && AllDigits(body) then
        var magnitude: int := DigitsValue(body);
        Some(if s[0] == '-' then -magnitude else magnitude)
      else None
    else if |s| > 0 && AllDigits(s) then Some(DigitsValue(s))
    else None
  }

  /** Decimal formatting and parsing are inverse: every int survives Itoa then ParseDecimal. */
  lemma ParseItoa(n: int)
    ensures ParseDecimal(Itoa(n)) == Some(n)
  {
    if n < 0 {
      ParseNegative(-n);
    } else {
      ParseNatText(n);
    }
  }

  lemma ParseNatText(n: nat)
    ensures ParseDecimal(NatText(n)) == Some(n)
  {
    var s := NatText(n);
    assert IsDigit(s[0]);
    DigitsValueNatText(n);
  }

  lemma ParseNegative(m: nat)
    requires m > 0
    ensures ParseDecimal("-" + NatText(m)) == Some(0 - m as int)
  {
    var s := "-" + NatText(m);
    assert s[0] == '-';
    assert s[1..] == NatText(m);
    DigitsValueNatText(m);
  }

  /** Itoa never maps two numbers to the same text. */
  lemma ItoaInjective(m: int, n: int)
    requires Itoa(m) == Itoa(n)
    ensures m == n
  {
    ParseItoa(m);
    ParseItoa(n);
  }

  /** strconv.ParseInt(s, 10, 32) with the error folded into None (syntax or range). */
  function ParseInt32(s: string): (r: Option<int>)
    ensures r.Some? ==> MinInt32 <= r.value <= MaxInt32 && ParseDecimal(s) == r
    ensures r.None? ==> ParseDecimal(s).None? || !(MinInt32 <= ParseDecimal(s).value <= MaxInt32)
  {
    match ParseDecimal(s)
    case Some(v) => if MinInt32 <= v <= MaxInt32 then Some(v) else None
    case None => None
  }

  /** strconv.Atoi on a 64-bit platform, with the error folded into None (syntax or range). */
  function Atoi(s: string): (r: Option<int>)
    ensures r.Some? ==> MinInt64 <= r.value <= MaxInt64 && ParseDecimal(s) == r
    ensures r.None? ==> ParseDecimal(s).None? || !(MinInt64 <= ParseDecimal(s).value <= MaxInt64)
  {
    match ParseDecimal(s)
    case Some(v) => if MinInt64 <= v <= MaxInt64 then Some(v) else None
    case None => None
  }

  /**
   * The int that strconv.Atoi returns when its error is discarded: 0 after a syntax error,
   * the value clamped to the 64-bit range after a range error.
   */
  function AtoiValue(s: string): (v: int)
    ensures MinInt64 <= v <= MaxInt64
    ensures Atoi(s).Some? ==> v == Atoi(s).value
    ensures ParseDecimal(s).None? ==> v == 0
  {
    match ParseDecimal(s)
    case None => 0
    case Some(v) => if v < MinInt64 then MinInt64 else if v > MaxInt64 then MaxInt64 else v
  }

  // ---------------------------------------------------------------- hexadecimal

  function HexDigit(d: nat): char
    requires d < 16
  {
    "0123456789abcdef"[d]
  }

  /** fmt's %x of a non-negative number: lower-case hex digits without leading zeros. */
  function HexText(n: nat): (s: string)
  {
    if n < 16 then [HexDigit(n)] else HexText(n / 16) + [HexDigit(n % 16)]
  }

  predicate IsHexDigit(c: char) { '0' <= c <= '9' || 'a' <= c <= 'f' }

  function Pow16(k: nat): (p: nat)
    ensures p >= 1
  {
    if k == 0 then 1 else 16 * Pow16(k - 1)
  }

  /** A number with k + 1 hex digits is printed with exactly k + 1 characters, all hex digits. */
  lemma {:induction false} HexTextLength(n: nat, k: nat)
    requires Pow16(k) <= n < Pow16(k + 1)
    ensures |HexText(n)| == k + 1
    ensures forall i :: 0 <= i < |HexText(n)| ==> IsHexDigit(HexText(n)[i])
  {
    if k == 0 {
      assert n < 16;
    } else {
      assert n >= 16;
      assert Pow16(k - 1) <= n / 16 < Pow16(k);
      HexTextLength(n / 16, k - 1);
      var s := HexText(n);
      assert s == HexText(n / 16) + [HexDigit(n % 16)];
    }
  }

  // ---------------------------------------------------------------- strings

  predicate HasPrefix(s: string, p: string) { |p| <= |s| && s[..|p|] == p }

  predicate HasSuffix(s: string, p: string) { |p| <= |s| && s[|s| - |p|..] == p }

  function Spaces(n: nat): (s: string)
    ensures |s| == n && forall i :: 0 <= i < n ==> s[i] == ' '
  {
    seq(n, _ => ' ')
  }

  /** fmt's width padding (%2d, %10s): right-justified in a field of at least w characters. */
  function PadLeft(s: string, w: nat): (r: string)
    ensures |r| == if |s| >= w then |s| else w
    ensures HasSuffix(r, s)
  {
    if |s| >= w then s else Spaces(w - |s|) + s
  }

  /** strings.Trim: drop every leading and trailing character that is in cutset. */
  function Trim(s: string, cutset: set<char>): (r: string)
  {
    TrimRight(TrimLeft(s, cutset), cutset)
  }

  function TrimLeft(s: string, cutset: set<char>): (r: string)
    ensures HasSuffix(s, r)
    ensures r == [] || r[0] !in cutset
    ensures forall i :: 0 <= i < |s| - |r| ==> s[i] in cutset
  {
    if s != [] && s[0] in cutset then TrimLeft(s[1..], cutset) else s
  }

  function TrimRight(s: string, cutset: set<char>): (r: string)
    ensures HasPrefix(s, r)
    ensures r == [] || r[|r| - 1] !in cutset
    ensures forall i :: |r| <= i < |s| ==> s[i] in cutset
  {
    if s != [] && s[|s| - 1] in cutset then TrimRight(s[..|s| - 1], cutset) else s
  }

  function LowerChar(c: char): char
  {
    if 'A' <= c <= 'Z' then (c as int - 'A' as int + 'a' as int) as char else c
  }

  /** strings.ToLower restricted to ASCII letters. */
  function ToLower(s: string): (r: string)
    ensures |r| == |s| && forall i :: 0 <= i < |s| ==> r[i] == LowerChar(s[i])
  {
    seq(|s|, i requires 0 <= i < |s| => LowerChar(s[i]))
  }

  /** The number of line breaks in s. */
  function Newlines(s: string): nat
  {
    if s == [] then 0 else Newlines(s[..|s| - 1]) + (if s[|s| - 1] == '\n' then 1 else 0)
  }

  lemma {:induction false} NewlinesConcat(a: string, b: string)
    ensures Newlines(a + b) == Newlines(a) + Newlines(b)
  {
    if b != [] {
      assert (a + b)[..|a + b| - 1] == a + b[..|b| - 1];
      NewlinesConcat(a, b[..|b| - 1]);
    } else {
      assert a + b == a;
    }
  }

  lemma {:induction false} NoNewlines(s: string)
    requires '\n' !in s
    ensures Newlines(s) == 0
  {
    if s != [] {
      NoNewlines(s[..|s| - 1]);
    }
  }

  // ---------------------------------------------------------------- path/filepath

  /**
   * filepath.Ext: the suffix starting at the last '.' of the final path element,
   * or "" when that element has no '.'.
   */
  function Ext(path: string): (e: string)
  {
    ExtBefore(path, |path|)
  }

  function ExtBefore(path: string, k: nat): (e: string)
    requires k <= |path| && '/' !in path[k..]
    ensures e == [] || (HasSuffix(path, e) && e[0] == '.' && '/' !in e)
  {
    if k == 0 || path[k - 1] == '/' then ""
    else if path[k - 1] == '.' then path[k - 1..]
    else ExtBefore(path, k - 1)
  }

  /** The text after the last '/' of s (all of s when it has none). */
  function LastSegment(s: string): (r: string)
    ensures HasSuffix(s, r) && '/' !in r
    ensures |r| < |s| ==> s[|s| - |r| - 1] == '/'
  {
    if s == [] then []
    else if s[|s| - 1] == '/' then []
    else LastSegment(s[..|s| - 1]) + [s[|s| - 1]]
  }

  /** filepath.Base: the last element of path, after trailing separators are removed. */
  function Base(path: string): (r: string)
    ensures r != []
  {
    if path == [] then "."
    else
      var p := TrimRight(path, {'/'});
      if p == [] then "/" else LastSegment(p)
  }

  /**
   * For an extension such as ".mp3" (one '.', then no '.' or '/'), filepath.Ext reports it
   * exactly for the paths that end with it.
   */
  lemma ExtIsSuffix(path: string, ext: string)
    requires |ext| >= 1 && ext[0] == '.' && '.' !in ext[1..] && '/' !in ext
    ensures Ext(path) == ext <==> HasSuffix(path, ext)
  {
    if HasSuffix(path, ext) {
      ExtOfSuffix(path, ext, |path|);
    }
  }

  lemma {:induction false} ExtOfSuffix(path: string, ext: string, k: nat)
    requires |ext| >= 1 && ext[0] == '.' && '.' !in ext[1..] && '/' !in ext
    requires HasSuffix(path, ext) && |path| - |ext| < k <= |path|
    ensures ExtBefore(path, k) == ext
  {
    var j := |path| - |ext|;
    assert path[k - 1] == ext[k - 1 - j];
    if k - 1 == j {
      assert path[k - 1..] == ext;
    } else {
      assert ext[k - 1 - j] in ext[1..];
      ExtOfSuffix(path, ext, k - 1);
    }
  }

  /** On a path that ends with a non-separator, Base is the text after the last '/'. */
  lemma BaseOfFile(path: string)
    requires path != [] && path[|path| - 1] != '/'
    ensures Base(path) == LastSegment(path)
  {
    assert TrimRight(path, {'/'}) == path;
  }
}
