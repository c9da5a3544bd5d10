/**
 * The JavaScript string built-ins the screens use, over `string` (a sequence of
 * characters): `includes`, `toLowerCase`/`toUpperCase` (ASCII letters only),
 * `trim`, `replace` of a first occurrence, `replace(/[^0-9,]/g, "")`,
 * `parseInt` and the decimal rendering of an integer in a template literal.
 */
module Text {
  import opened Wrappers

  /** What `\s` matches and `trim` removes: ECMAScript WhiteSpace and LineTerminator. */
  predicate IsSpace(c: char) {
    || c == ' ' || c == '\t' || c == '\n' || c == '\r'
    || c == '\U{000B}' || c == '\U{000C}' || c == '\U{00A0}' || c == '\U{1680}'
    || ('\U{2000}' <= c <= '\U{200A}')
    || c == '\U{2028}' || c == '\U{2029}' || c == '\U{202F}' || c == '\U{205F}'
    || c == '\U{3000}' || c == '\U{FEFF}'
  }

  predicate IsDigit(c: char) { '0' <= c <= '9' }

  predicate AllSpace(s: string) { forall i | 0 <= i < |s| :: IsSpace(s[i]) }

  function LowerChar(c: char): char { if 'A' <= c <= 'Z' then (c as int + 32) as char else c }

  function UpperChar(c: char): char { if 'a' <= c <= 'z' then (c as int - 32) as char else c }

  /** `s.toLowerCase()`, restricted to ASCII letters. */
  function ToLower(s: string): string { seq(|s|, i requires 0 <= i < |s| => LowerChar(s[i])) }

  /** `s.toUpperCase()`, restricted to ASCII letters. */
  function ToUpper(s: string): string { seq(|s|, i requires 0 <= i < |s| => UpperChar(s[i])) }

  predicate IsPrefix(p: string, s: string) { |p| <= |s| && s[..|p|] == p }

  predicate EndsWith(s: string, suffix: string) { |suffix| <= |s| && s[|s| - |suffix|..] == suffix }

  /** `s.includes(sub)`: `sub` occurs at some position of `s`. */
  predicate Contains(s: string, sub: string)
    decreases |s|
  {
    IsPrefix(sub, s) || (s != [] && Contains(s[1..], sub))
  }

  /** `includes` holds exactly when `sub` starts at some index of `s`. */
  lemma {:induction false} ContainsIffOccurs(s: string, sub: string)
    ensures Contains(s, sub) <==> exists i | 0 <= i <= |s| :: IsPrefix(sub, s[i..])
    decreases |s|
  {
    if s != [] {
      ContainsIffOccurs(s[1..], sub);
      assert s[0..] == s;
      if Contains(s[1..], sub) {
        var i :| 0 <= i <= |s[1..]| && IsPrefix(sub, s[1..][i..]);
        assert s[i + 1..] == s[1..][i..];
        assert IsPrefix(sub, s[i + 1..]);
      }
      if exists i | 0 <= i <= |s| :: IsPrefix(sub, s[i..]) {
        var i :| 0 <= i <= |s| && IsPrefix(sub, s[i..]);
        if i > 0 {
          assert s[1..][i - 1..] == s[i..];
          assert IsPrefix(sub, s[1..][i - 1..]);
          assert Contains(s[1..], sub);
        } else {
          assert s[0..] == s;
          assert IsPrefix(sub, s);
        }
      }
    } else {
      assert s[0..] == s;
    }
  }

  /** Every character of an occurring string occurs in the string searched. */
  lemma {:induction false} ContainsChars(s: string, sub: string, k: int)
    requires Contains(s, sub) && 0 <= k < |sub|
    ensures sub[k] in s
    decreases |s|
  {
    if IsPrefix(sub, s) {
      assert s[k] == sub[k];
    } else {
      ContainsChars(s[1..], sub, k);
      assert s == [s[0]] + s[1..];
    }
  }

  /** The empty string occurs in every string (`s.includes("")`). */
  lemma ContainsEmpty(s: string)
    ensures Contains(s, "")
  {
    assert IsPrefix("", s);
  }

  /** `s.trimStart()`: what is left after the leading white space. */
  function TrimStart(s: string): (r: string)
    ensures |r| <= |s| && r == s[|s| - |r|..]
    ensures r == [] <==> AllSpace(s)
    ensures r != [] ==> !IsSpace(r[0])
    decreases |s|
  {
    if s != [] && IsSpace(s[0]) then TrimStart(s[1..]) else s
  }

  /** `s.trimEnd()`: what is left before the trailing white space. */
  function TrimEnd(s: string): (r: string)
    ensures |r| <= |s| && r == s[..|r|]
    ensures r == [] <==> AllSpace(s)
    ensures r != [] ==> !IsSpace(r[|r| - 1])
    decreases |s|
  {
    if s != [] && IsSpace(s[|s| - 1]) then TrimEnd(s[..|s| - 1]) else s
  }

  /** `s.trim()`: blank exactly when `s` is made of white space only. */
  function Trim(s: string): (r: string)
    ensures r == [] <==> AllSpace(s)
    ensures r != [] ==> !IsSpace(r[0]) && !IsSpace(r[|r| - 1])
  {
    TrimEnd(TrimStart(s))
  }

  /**
   * Code-point lexicographic order, standing in for `localeCompare(...) <= 0`:
   * `a` is a prefix of `b`, or at the first difference `a` has the smaller character.
   */
  predicate LexLe(a: string, b: string)
    decreases |a|
  {
    a == [] || (b != [] && (a[0] < b[0] || (a[0] == b[0] && LexLe(a[1..], b[1..]))))
  }

  /** Any two strings are ordered one way or the other. */
  lemma {:induction false} LexLeTotal(a: string, b: string)
    ensures LexLe(a, b) || LexLe(b, a)
    decreases |a|
  {
    if a != [] && b != [] && a[0] == b[0] {
      LexLeTotal(a[1..], b[1..]);
    }
  }

  /** The order chains. */
  lemma {:induction false} LexLeTransitive(a: string, b: string, c: string)
    requires LexLe(a, b) && LexLe(b, c)
    ensures LexLe(a, c)
    decreases |a|
  {
    if a != [] && b != [] && c != [] && a[0] == b[0] && b[0] == c[0] {
      LexLeTransitive(a[1..], b[1..], c[1..]);
    }
  }

  /** The characters the price inputs let through: ASCII digits and the comma. */
  predicate IsPriceChar(c: char) { IsDigit(c) || c == ',' }

  /** `s.replace(/[^0-9,]/g, "")`: the digits and commas of `s`, each one as often as in `s`. */
  function KeepPriceChars(s: string): (r: string)
    ensures forall i | 0 <= i < |r| :: IsPriceChar(r[i])
    ensures |r| <= |s|
    decreases |s|
  {
    if s == [] then [] else (if IsPriceChar(s[0]) then [s[0]] else []) + KeepPriceChars(s[1..])
  }

  /** Every digit and comma of `s` survives the sanitiser, as often as it occurs in `s`. */
  lemma {:induction false} KeepPriceCharsCounts(s: string, c: char)
    requires IsPriceChar(c)
    ensures multiset(KeepPriceChars(s))[c] == multiset(s)[c]
    decreases |s|
  {
    if s != [] {
      KeepPriceCharsCounts(s[1..], c);
      assert s == [s[0]] + s[1..];
    }
  }

  /** The sanitiser works piecewise, so it keeps the surviving characters in their order. */
  lemma {:induction false} KeepPriceCharsAppend(a: string, b: string)
    ensures KeepPriceChars(a + b) == KeepPriceChars(a) + KeepPriceChars(b)
    decreases |a|
  {
    if a != [] {
      assert (a + b)[1..] == a[1..] + b;
      KeepPriceCharsAppend(a[1..], b);
    } else {
      assert a + b == b;
    }
  }

  /** Text made only of digits and commas is left as it is. */
  lemma {:induction false} KeepPriceCharsOfClean(s: string)
    requires forall i | 0 <= i < |s| :: IsPriceChar(s[i])
    ensures KeepPriceChars(s) == s
    decreases |s|
  {
    if s != [] {
      KeepPriceCharsOfClean(s[1..]);
    }
  }

  /** Sanitising twice is sanitising once. */
  lemma KeepPriceCharsIdempotent(s: string)
    ensures KeepPriceChars(KeepPriceChars(s)) == KeepPriceChars(s)
  {
    KeepPriceCharsOfClean(KeepPriceChars(s));
  }

  /** `s.indexOf(c)`, with `|s|` standing for "not found". */
  function IndexOf(s: string, c: char): (k: nat)
    ensures k <= |s|
    ensures k < |s| ==> s[k] == c
    ensures forall j | 0 <= j < k :: s[j] != c
    decreases |s|
  {
    if s == [] then 0 else if s[0] == c then 0 else 1 + IndexOf(s[1..], c)
  }

  /** `s.replace(from, to)` with a one-character string pattern: only the first occurrence changes. */
  function ReplaceFirst(s: string, from: char, to: char): (r: string)
    ensures |r| == |s|
    ensures forall j | 0 <= j < |s| && j != IndexOf(s, from) :: r[j] == s[j]
    ensures IndexOf(s, from) < |s| ==> r[IndexOf(s, from)] == to
    decreases |s|
  {
    if s == [] then []
    else if s[0] == from then [to] + s[1..]
    else [s[0]] + ReplaceFirst(s[1..], from, to)
  }

  /**
   * Price text made of digits and commas, sent with its first comma made a dot and shown
   * again with its first dot made a comma, reads as before.
   */
  lemma PriceTextRoundTrip(s: string)
    requires forall i | 0 <= i < |s| :: IsPriceChar(s[i])
    ensures ReplaceFirst(ReplaceFirst(s, ',', '.'), '.', ',') == s
  {
    var r := ReplaceFirst(s, ',', '.');
    var k := IndexOf(s, ',');
    assert forall j | 0 <= j < |s| && j != k :: r[j] == s[j] && r[j] != '.';
    IndexOfFirst(r, '.', k);
  }

  /** The first `c` is at `k` when `k` holds `c` and no earlier index does, and at `|s|` when there is none. */
  lemma IndexOfFirst(s: string, c: char, k: nat)
    requires k <= |s|
    requires k < |s| ==> s[k] == c
    requires forall j | 0 <= j < |s| && j != k :: s[j] != c
    ensures IndexOf(s, c) == k
  {
  }

  function DigitChar(d: nat): char
    requires d < 10
  {
    ('0' as int + d) as char
  }

  /** The decimal digits of `n` (`String(n)` for a non-negative integer). */
  function NatToString(n: nat): (r: string)
    ensures r != [] && forall i | 0 <= i < |r| :: IsDigit(r[i])
  {
    if n < 10 then [DigitChar(n)] else NatToString(n / 10) + [DigitChar(n % 10)]
  }

  /** `${i}` for an integer: an optional minus sign, then the digits. */
  function IntToString(i: int): (r: string)
    ensures r != [] && (IsDigit(r[0]) || r[0] == '-')
    ensures forall k | 1 <= k < |r| :: IsDigit(r[k])
  {
    if i < 0 then "-" + NatToString(-i) else NatToString(i)
  }

  /** The value of a digit character in base 16 (so also in base 10), or 16 when it is none. */
  function DigitValue(c: char): nat {
    if '0' <= c <= '9' then c as int - '0' as int
    else if 'a' <= c <= 'f' then c as int - 'a' as int + 10
    else if 'A' <= c <= 'F' then c as int - 'A' as int + 10
    else 16
  }

  /** The longest prefix of `s` made of digits of the given radix. */
  function DigitPrefix(s: string, radix: nat): (r: string)
    ensures IsPrefix(r, s)
    ensures forall i | 0 <= i < |r| :: DigitValue(r[i]) < radix
    decreases |s|
  {
    if s != [] && DigitValue(s[0]) < radix then [s[0]] + DigitPrefix(s[1..], radix) else []
  }

  lemma MulNat(a: nat, b: nat)
    ensures a * b >= 0
  {
  }

  function DigitsValue(ds: string, radix: nat): nat
    requires forall i | 0 <= i < |ds| :: DigitValue(ds[i]) < radix
    decreases |ds|
  {
    if ds == [] then 0
    else
      var init := ds[..|ds| - 1];
      assert forall i | 0 <= i < |init| :: init[i] == ds[i];
      var v := DigitsValue(init, radix);
      MulNat(v, radix);
      v * radix + DigitValue(ds[|ds| - 1])
  }

  /**
   * The digits after the sign: a `0x`/`0X` prefix selects base 16, otherwise base 10;
   * the longest run of digits is read, and no digit at all gives `NaN` (here `None`).
   */
  function ParseUnsigned(u: string): Option<int> {
    var hex := |u| >= 2 && u[0] == '0' && (u[1] == 'x' || u[1] == 'X');
    var radix := if hex then 16 else 10;
    var ds := DigitPrefix(if hex then u[2..] else u, radix);
    if ds == [] then None else Some(DigitsValue(ds, radix))
  }

  /**
   * `Number.parseInt(s)` without a radix: leading white space is skipped, then an
   * optional sign, then the unsigned part.
   */
  function ParseInt(s: string): Option<int> {
    var t := TrimStart(s);
    var negative := t != [] && t[0] == '-';
    var u := if t != [] && (t[0] == '-' || t[0] == '+') then t[1..] else t;
    match ParseUnsigned(u)
    case None => None
    case Some(v) => if negative then Some(-v) else Some(v)
  }

  lemma {:induction false} DigitPrefixOfDigits(s: string)
    requires forall i | 0 <= i < |s| :: IsDigit(s[i])
    ensures DigitPrefix(s, 10) == s
    decreases |s|
  {
    if s != [] {
      DigitPrefixOfDigits(s[1..]);
    }
  }

  lemma {:induction false} DigitsValueOfNatToString(n: nat)
    ensures forall i | 0 <= i < |NatToString(n)| :: DigitValue(NatToString(n)[i]) < 10
    ensures DigitsValue(NatToString(n), 10) == n
  {
    var r := NatToString(n);
    if n >= 10 {
      DigitsValueOfNatToString(n / 10);
      assert r[..|r| - 1] == NatToString(n / 10);
    }
  }

  /** The decimal digits of a natural number read back as that number. */
  lemma ParseUnsignedOfNat(n: nat)
    ensures ParseUnsigned(NatToString(n)) == Some(n)
  {
    var ds := NatToString(n);
    DigitsValueOfNatToString(n);
    DigitPrefixOfDigits(ds);
    assert !IsDigit('x') && !IsDigit('X');
  }

  /** A string starting with a digit or a minus sign has no leading white space to skip. */
  lemma NotSpaceStart(r: string)
    requires r != [] && (IsDigit(r[0]) || r[0] == '-')
    ensures TrimStart(r) == r
  {
  }

  /** The rendering of a natural number reads back. */
  lemma ParseIntOfNat(n: nat)
    ensures ParseInt(IntToString(n)) == Some(n)
  {
    var ds := NatToString(n);
    ParseUnsignedOfNat(n);
    NotSpaceStart(ds);
  }

  /** The rendering of a negative number, a minus sign and the digits of its magnitude, reads back. */
  lemma ParseIntOfNegative(i: int)
    requires i < 0
    ensures ParseInt(IntToString(i)) == Some(i)
  {
    var ds := NatToString(-i);
    var r := "-" + ds;
    ParseUnsignedOfNat(-i);
    NotSpaceStart(r);
    assert r[1..] == ds;
  }

  /** Reading back the decimal rendering of an integer gives that integer. */
  lemma ParseIntToString(i: int)
    ensures ParseInt(IntToString(i)) == Some(i)
  {
    if i < 0 {
      ParseIntOfNegative(i);
    } else {
      ParseIntOfNat(i);
    }
  }

  /** `Number.parseInt(s) || 1`: `NaN` and zero both fall back to 1, so the result is never 0. */
  function ParseIntOrOne(s: string): (q: int)
    ensures q != 0
    ensures ParseInt(s).Some? && ParseInt(s).value != 0 ==> q == ParseInt(s).value
    ensures ParseInt(s).None? ==> q == 1
    ensures ParseInt(s) == Some(0) ==> q == 1
  {
    match ParseInt(s)
    case Some(v) => if v == 0 then 1 else v
    case None => 1
  }
}
