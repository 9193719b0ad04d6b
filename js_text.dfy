/** The JavaScript string and number built-ins the storefront relies on,
    stated on Dafny strings: `indexOf` and first-occurrence `replace`, the
    global regular-expression rewrites it uses (`/\./g`, `/\D/g`), `trim`,
    `parseFloat` and `parseInt`. */
module JsText {
  import opened Wrappers

  /** A JavaScript number as the storefront uses it: NaN or a finite value.
      Finite values are exact rationals here; float rounding is not modelled. */
  datatype JsNumber = NaN | Num(value: real)

  /** JavaScript truthiness of a number: NaN and zero are falsy. */
  predicate Truthy(n: JsNumber) {
    n.Num? && n.value != 0.0
  }

  /** `n || 0`: the number itself when truthy, otherwise 0. */
  function OrZero(n: JsNumber): (r: real)
    ensures Truthy(n) ==> r == n.value
    ensures !Truthy(n) ==> r == 0.0
  {
    if n.Num? then n.value else 0.0
  }

  /** The characters matched by `\s` and removed by `trim`: JavaScript's
      WhiteSpace and LineTerminator productions. */
  predicate IsSpace(c: char) {
    || c == ' ' || c == '\t' || c == '\n' || c == '\r'
    || c == '\U{000B}' || c == '\U{000C}' || c == '\U{00A0}' || c == '\U{1680}'
    || ('\U{2000}' <= c <= '\U{200A}')
    || c == '\U{2028}' || c == '\U{2029}' || c == '\U{202F}' || c == '\U{205F}'
    || c == '\U{3000}' || c == '\U{FEFF}'
  }

  /** The characters matched by `\d`. */
  predicate IsDigit(c: char) {
    '0' <= c <= '9'
  }

  predicate AllDigits(s: string) {
    forall i :: 0 <= i < |s| ==> IsDigit(s[i])
  }

  /** A string that `trim` reduces to the empty string. */
  predicate IsBlank(s: string) {
    forall i :: 0 <= i < |s| ==> IsSpace(s[i])
  }

  function DigitValue(c: char): (d: nat)
    requires IsDigit(c)
    ensures d < 10
  {
    c as int - '0' as int
  }

  function Pow10(n: nat): (p: nat)
    ensures p >= 1
  {
    if n == 0 then 1 else 10 * Pow10(n - 1)
  }

  // ---------------------------------------------------------------------
  // indexOf and first-occurrence replace
  // ---------------------------------------------------------------------

  predicate OccursAt(s: string, pat: string, i: nat) {
    i + |pat| <= |s| && s[i..i + |pat|] == pat
  }

  lemma OccursAtTail(s: string, pat: string, j: nat)
    requires s != []
    ensures OccursAt(s[1..], pat, j) <==> OccursAt(s, pat, j + 1)
  {
    if j + 1 + |pat| <= |s| {
      assert s[1..][j..j + |pat|] == s[j + 1..j + 1 + |pat|];
    }
  }

  /** `s.indexOf(pat)`: the first position at which `pat` occurs, if any. */
  function IndexOf(s: string, pat: string): (r: Option<nat>)
    ensures r.Some? ==> OccursAt(s, pat, r.value)
    ensures r.Some? ==> forall j: nat :: j < r.value ==> !OccursAt(s, pat, j)
    ensures r.None? ==> forall j: nat :: !OccursAt(s, pat, j)
    decreases |s|
  {
    if OccursAt(s, pat, 0) then Some(0)
    else if s == [] then None
    else
      var tail := IndexOf(s[1..], pat);
      assert forall j: nat :: 1 <= j ==> (OccursAt(s, pat, j) <==> OccursAt(s[1..], pat, j - 1)) by {
        forall j: nat | 1 <= j ensures OccursAt(s, pat, j) <==> OccursAt(s[1..], pat, j - 1) {
          OccursAtTail(s, pat, j - 1);
        }
      }
      if tail.None? then None else Some(tail.value + 1)
  }

  /** `s.replace(pat, rep)` with a string pattern: only the first occurrence
      is replaced; without an occurrence the string is returned unchanged. */
  function ReplaceFirst(s: string, pat: string, rep: string): (r: string)
    ensures IndexOf(s, pat).None? ==> r == s
    ensures IndexOf(s, pat).Some? ==>
      var i := IndexOf(s, pat).value;
      |r| == |s| - |pat| + |rep| && r[..i] == s[..i] && r[i..i + |rep|] == rep
      && r[i + |rep|..] == s[i + |pat|..]
  {
    match IndexOf(s, pat)
    case None => s
    case Some(i) => s[..i] + rep + s[i + |pat|..]
  }

  /** The first position of character `c` in `s`, if any. */
  lemma IndexOfChar(s: string, c: char)
    ensures IndexOf(s, [c]).Some? <==> c in s
    ensures IndexOf(s, [c]).Some? ==>
      var i := IndexOf(s, [c]).value;
      i < |s| && s[i] == c && c !in s[..i]
  {
    var r := IndexOf(s, [c]);
    if r.Some? {
      var i := r.value;
      OccursAtChar(s, c, i);
      forall j | 0 <= j < i ensures s[..i][j] != c {
        OccursAtChar(s, c, j);
      }
      assert c !in s[..i];
    } else {
      forall j | 0 <= j < |s| ensures s[j] != c {
        OccursAtChar(s, c, j);
      }
    }
  }

  /** A one-character pattern occurs exactly where that character is. */
  lemma OccursAtChar(s: string, c: char, j: nat)
    ensures OccursAt(s, [c], j) <==> j < |s| && s[j] == c
  {
    if j < |s| {
      assert s[j..j + 1] == [s[j]];
    }
  }

  /** Replacing the first occurrence of one character by another changes
      exactly that position. */
  lemma ReplaceFirstChar(s: string, c: char, d: char)
    ensures |ReplaceFirst(s, [c], [d])| == |s|
    ensures c !in s ==> ReplaceFirst(s, [c], [d]) == s
    ensures c in s ==>
      && IndexOf(s, [c]).Some?
      && var i := IndexOf(s, [c]).value;
         i < |s| && s[i] == c && c !in s[..i] && ReplaceFirst(s, [c], [d]) == s[i := d]
  {
    IndexOfChar(s, c);
    var r := ReplaceFirst(s, [c], [d]);
    if c in s {
      var i := IndexOf(s, [c]).value;
      assert r == s[..i] + [d] + s[i + 1..];
      assert r == s[i := d];
    }
  }

  /** A pattern whose first character is absent does not occur. */
  lemma AbsentHead(s: string, pat: string)
    requires pat != [] && pat[0] !in s
    ensures IndexOf(s, pat).None?
    ensures ReplaceFirst(s, pat, []) == s
  {
    if IndexOf(s, pat).Some? {
      assert false;
    }
  }

  /** A pattern at the very start is the first occurrence. */
  lemma ReplaceFirstAtStart(pat: string, x: string, rep: string)
    ensures ReplaceFirst(pat + x, pat, rep) == rep + x
  {
    var s := pat + x;
    assert OccursAt(s, pat, 0) by { assert s[..|pat|] == pat; }
    assert s[|pat|..] == x;
  }

  /** When `pre` holds no `c`, the first `c` of `pre + [c] + post` is the one
      right after `pre`. */
  lemma ReplaceFirstAfter(pre: string, c: char, post: string, rep: string)
    requires c !in pre
    ensures ReplaceFirst(pre + ([c] + post), [c], rep) == pre + (rep + post)
  {
    var s := pre + ([c] + post);
    var k := |pre|;
    assert OccursAt(s, [c], k) by { assert s[k..k + 1] == [c]; }
    forall j: nat | j < k ensures !OccursAt(s, [c], j) {
      assert s[j..j + 1] == [pre[j]];
    }
    assert s[..k] == pre && s[k + 1..] == post;
    Reassociate(pre, rep, post);
  }

  lemma Reassociate<T>(p: seq<T>, q: seq<T>, r: seq<T>)
    ensures p + q + r == p + (q + r)
  {
  }

  lemma {:induction false} RemoveAllAppend(a: string, b: string, c: char)
    ensures RemoveAll(a + b, c) == RemoveAll(a, c) + RemoveAll(b, c)
  {
    if a == [] {
      assert a + b == b;
    } else {
      var head: string := if a[0] == c then [] else [a[0]];
      assert (a + b)[0] == a[0];
      assert (a + b)[1..] == a[1..] + b;
      RemoveAllAppend(a[1..], b, c);
      Reassociate(head, RemoveAll(a[1..], c), RemoveAll(b, c));
      assert RemoveAll(a + b, c) == head + RemoveAll(a[1..] + b, c);
    }
  }

  // ---------------------------------------------------------------------
  // global rewrites: /x/g -> "" for one character, and /\D/g -> ""
  // ---------------------------------------------------------------------

  /** `s.replace(/c/g, "")`: every occurrence of `c` removed, the rest kept in order. */
  function RemoveAll(s: string, c: char): (r: string)
    ensures c !in r
    ensures |r| <= |s|
    ensures c !in s ==> r == s
    ensures forall x :: x in r ==> x in s
    ensures forall x :: x != c ==> multiset(r)[x] == multiset(s)[x]
  {
    if s == [] then []
    else
      assert s == [s[0]] + s[1..];
      (if s[0] == c then [] else [s[0]]) + RemoveAll(s[1..], c)
  }

  /** `s.replace(/\D/g, "")`: the digits of `s`, in order. */
  function KeepDigits(s: string): (r: string)
    ensures AllDigits(r)
    ensures |r| <= |s|
    ensures AllDigits(s) ==> r == s
  {
    if s == [] then []
    else (if IsDigit(s[0]) then [s[0]] else []) + KeepDigits(s[1..])
  }

  lemma {:induction false} KeepDigitsAppend(a: string, b: string)
    ensures KeepDigits(a + b) == KeepDigits(a) + KeepDigits(b)
  {
    if a == [] {
      assert a + b == b;
    } else {
      assert (a + b)[0] == a[0];
      assert (a + b)[1..] == a[1..] + b;
      KeepDigitsAppend(a[1..], b);
    }
  }

  // ---------------------------------------------------------------------
  // trim
  // ---------------------------------------------------------------------

  function TrimStart(s: string): (r: string)
    ensures |r| <= |s| && r == s[|s| - |r|..]
    ensures IsBlank(s[..|s| - |r|])
    ensures r == [] || !IsSpace(r[0])
  {
    if s != [] && IsSpace(s[0]) then
      var r := TrimStart(s[1..]);
      assert s[..|s| - |r|][1..] == s[1..][..|s| - 1 - |r|];
      BlankTail(s[..|s| - |r|]);
      r
    else s
  }

  function TrimEnd(s: string): (r: string)
    ensures |r| <= |s| && r == s[..|r|]
    ensures IsBlank(s[|r|..])
    ensures r == [] || !IsSpace(r[|r| - 1])
  {
    if s != [] && IsSpace(s[|s| - 1]) then
      var r := TrimEnd(s[..|s| - 1]);
      assert s[|r|..][..|s| - |r| - 1] == s[..|s| - 1][|r|..];
      BlankInit(s[|r|..]);
      r
    else s
  }

  /** `s.trim()`: `s` without white space at either end; it is empty
      exactly when `s` is blank. */
  function Trim(s: string): (r: string)
    ensures |r| <= |s|
    ensures r == [] <==> IsBlank(s)
    ensures r != [] ==> !IsSpace(r[0]) && !IsSpace(r[|r| - 1])
  {
    TrimEmptyIffBlank(s);
    TrimEnd(TrimStart(s))
  }

  lemma TrimEmptyIffBlank(s: string)
    ensures TrimEnd(TrimStart(s)) == [] <==> IsBlank(s)
  {
    var t := TrimStart(s);
    TrimStartEmpty(s);
    TrimEndEmpty(t);
    if t != [] {
      assert !IsSpace(t[0]);
    }
  }

  /** `trimStart` leaves nothing exactly when the text is blank. */
  lemma {:induction false} TrimStartEmpty(s: string)
    ensures TrimStart(s) == [] <==> IsBlank(s)
  {
    if s != [] {
      if IsSpace(s[0]) {
        TrimStartEmpty(s[1..]);
        BlankTail(s);
      } else {
        assert !IsBlank(s);
      }
    }
  }

  /** `trimEnd` leaves nothing exactly when the text is blank. */
  lemma {:induction false} TrimEndEmpty(s: string)
    ensures TrimEnd(s) == [] <==> IsBlank(s)
  {
    if s != [] {
      if IsSpace(s[|s| - 1]) {
        TrimEndEmpty(s[..|s| - 1]);
        BlankInit(s);
      } else {
        assert !IsBlank(s);
      }
    }
  }

  lemma BlankTail(s: string)
    requires s != [] && IsSpace(s[0])
    ensures IsBlank(s) <==> IsBlank(s[1..])
  {
    if IsBlank(s[1..]) {
      forall i | 0 < i < |s| ensures IsSpace(s[i]) {
        assert s[i] == s[1..][i - 1];
      }
    }
  }

  lemma BlankInit(s: string)
    requires s != [] && IsSpace(s[|s| - 1])
    ensures IsBlank(s) <==> IsBlank(s[..|s| - 1])
  {
    if IsBlank(s[..|s| - 1]) {
      forall i | 0 <= i < |s| - 1 ensures IsSpace(s[i]) {
        assert s[i] == s[..|s| - 1][i];
      }
    }
  }

  // ---------------------------------------------------------------------
  // parseFloat and parseInt
  // ---------------------------------------------------------------------

  /** The longest prefix of `s` made of digits. */
  function DigitPrefix(s: string): (d: string)
    ensures |d| <= |s| && d == s[..|d|]
    ensures AllDigits(d)
    ensures |d| == |s| || !IsDigit(s[|d|])
  {
    if s != [] && IsDigit(s[0]) then [s[0]] + DigitPrefix(s[1..]) else []
  }

  /** The value of a string of decimal digits, most significant first. */
  function DigitsValue(d: string): (n: nat)
    requires AllDigits(d)
    ensures n < Pow10(|d|)
  {
    if d == [] then 0 else DigitsValue(d[..|d| - 1]) * 10 + DigitValue(d[|d| - 1])
  }

  /** The value of the digits after a decimal point: 0.d0 d1 d2 ... */
  function FractionValue(d: string): (x: real)
    requires AllDigits(d)
    ensures 0.0 <= x < 1.0
  {
    if d == [] then 0.0 else (DigitValue(d[0]) as real + FractionValue(d[1..])) / 10.0
  }

  /** The value of the decimal literal `ip.fp`; `ip` is its whole part. */
  function DecimalValue(ip: string, fp: string): (x: real)
    requires AllDigits(ip) && AllDigits(fp)
    ensures DigitsValue(ip) as real <= x < DigitsValue(ip) as real + 1.0
  {
    DigitsValue(ip) as real + FractionValue(fp)
  }

  /** The text after one optional sign. */
  function Unsigned(t: string): string {
    if t != [] && (t[0] == '+' || t[0] == '-') then t[1..] else t
  }

  predicate Negative(t: string) {
    t != [] && t[0] == '-'
  }

  predicate StartsDigit(u: string) {
    u != [] && IsDigit(u[0])
  }

  /** A decimal literal can start here: a digit, or a '.' followed by a digit. */
  predicate StartsDecimal(u: string) {
    StartsDigit(u) || (|u| >= 2 && u[0] == '.' && IsDigit(u[1]))
  }

  /** The digits after the decimal point that follows the integer digits. */
  function FractionDigits(rest: string): (f: string)
    ensures AllDigits(f)
  {
    if rest != [] && rest[0] == '.' then DigitPrefix(rest[1..]) else []
  }

  /** A decimal literal without sign, `ddd.fff`, read as far as it goes. */
  function UnsignedDecimal(u: string): (r: JsNumber)
    ensures r.NaN? <==> !StartsDecimal(u)
    ensures r.Num? ==> r.value >= 0.0
  {
    var ip := DigitPrefix(u);
    var fp := FractionDigits(u[|ip|..]);
    if ip == [] && fp == [] then NaN
    else Num(DecimalValue(ip, fp))
  }

  /** `parseFloat(s)`: leading white space is skipped, then one optional sign
      and the longest decimal prefix `ddd.fff` is read; with no digit at all
      the result is NaN. */
  function ParseFloat(s: string): (r: JsNumber)
    ensures r.NaN? <==> !StartsDecimal(Unsigned(TrimStart(s)))
    ensures r.Num? && !Negative(TrimStart(s)) ==> r.value >= 0.0
  {
    var t := TrimStart(s);
    var n := UnsignedDecimal(Unsigned(t));
    if Negative(t) && n.Num? then Num(-n.value) else n
  }

  /** The characters of a base-16 numeral, either case. */
  predicate IsHexDigit(c: char) {
    IsDigit(c) || 'a' <= c <= 'f' || 'A' <= c <= 'F'
  }

  predicate AllHexDigits(s: string) {
    forall i :: 0 <= i < |s| ==> IsHexDigit(s[i])
  }

  function HexDigitValue(c: char): (d: nat)
    requires IsHexDigit(c)
    ensures d < 16
    ensures IsDigit(c) ==> d == DigitValue(c)
  {
    if IsDigit(c) then DigitValue(c)
    else if 'a' <= c <= 'f' then c as int - 'a' as int + 10
    else c as int - 'A' as int + 10
  }

  function Pow16(n: nat): (p: nat)
    ensures p >= 1
  {
    if n == 0 then 1 else 16 * Pow16(n - 1)
  }

  /** The longest prefix of `s` made of hexadecimal digits. */
  function HexPrefix(s: string): (d: string)
    ensures |d| <= |s| && d == s[..|d|]
    ensures AllHexDigits(d)
    ensures |d| == |s| || !IsHexDigit(s[|d|])
  {
    if s != [] && IsHexDigit(s[0]) then [s[0]] + HexPrefix(s[1..]) else []
  }

  /** The value of a string of hexadecimal digits, most significant first. */
  function HexValue(d: string): (n: nat)
    requires AllHexDigits(d)
    ensures n < Pow16(|d|)
  {
    if d == [] then 0 else HexValue(d[..|d| - 1]) * 16 + HexDigitValue(d[|d| - 1])
  }

  /** The "0x" or "0X" that switches `parseInt` without a radix to base 16. */
  predicate HexPrefixed(u: string) {
    |u| >= 2 && u[0] == '0' && (u[1] == 'x' || u[1] == 'X')
  }

  /** The digits `parseInt` without a radix reads after the sign: a run of
      hexadecimal digits after "0x"/"0X", otherwise a run of decimal ones. */
  function IntDigits(u: string): string {
    if HexPrefixed(u) then HexPrefix(u[2..]) else DigitPrefix(u)
  }

  /** `parseInt(s)` with no radix: leading white space, one optional sign,
      then a hexadecimal run after "0x"/"0X" or else a decimal run; with no
      digit in that run the result is NaN ("0x" alone is NaN). */
  function ParseInt(s: string): (r: JsNumber)
    ensures var u := Unsigned(TrimStart(s));
      r.NaN? <==> (if HexPrefixed(u) then !(|u| > 2 && IsHexDigit(u[2])) else !StartsDigit(u))
    ensures r.Num? ==> r.value == r.value.Floor as real
    ensures r.Num? && !Negative(TrimStart(s)) ==> r.value >= 0.0
  {
    var t := TrimStart(s);
    var u := Unsigned(t);
    var ip := IntDigits(u);
    if ip == [] then NaN
    else
      var v: nat := if HexPrefixed(u) then HexValue(ip) else DigitsValue(ip);
      var n: int := if Negative(t) then 0 - v else v;
      assert (n as real).Floor == n;
      Num(n as real)
  }

  lemma {:induction false} HexPrefixOfHex(d: string, rest: string)
    requires AllHexDigits(d)
    requires rest == [] || !IsHexDigit(rest[0])
    ensures HexPrefix(d + rest) == d
  {
    if d != [] {
      assert (d + rest)[1..] == d[1..] + rest;
      HexPrefixOfHex(d[1..], rest);
    }
  }

  /** "0x" or "0X", hexadecimal digits and any text that cannot continue
      them parse to the value of those digits in base 16. */
  lemma ParseIntHex(x: char, d: string, rest: string)
    requires x == 'x' || x == 'X'
    requires d != [] && AllHexDigits(d)
    requires rest == [] || !IsHexDigit(rest[0])
    ensures ParseInt(['0', x] + d + rest) == Num(HexValue(d) as real)
  {
    var s := ['0', x] + d + rest;
    assert s[0] == '0' && s[1] == x;
    DigitLed(s);
    assert HexPrefixed(Unsigned(TrimStart(s)));
    assert s[2..] == d + rest;
    HexPrefixOfHex(d, rest);
    assert IntDigits(s) == d;
  }

  /** Decimal digits not opening "0x" and any text that is not a digit after
      them parse to the value of those digits in base 10. */
  lemma ParseIntDecimal(d: string, rest: string)
    requires d != [] && AllDigits(d)
    requires rest == [] || !IsDigit(rest[0])
    requires !HexPrefixed(d + rest)
    ensures ParseInt(d + rest) == Num(DigitsValue(d) as real)
  {
    DigitLed(d + rest);
    DigitPrefixOfDigits(d, rest);
    assert IntDigits(d + rest) == d;
  }

  /** "0x" with no hexadecimal digit after it is NaN, where a decimal reading
      would give 0. */
  lemma ParseIntBareHex(x: char, rest: string)
    requires x == 'x' || x == 'X'
    requires rest == [] || !IsHexDigit(rest[0])
    ensures ParseInt(['0', x] + rest) == NaN
  {
    var s := ['0', x] + rest;
    assert s[0] == '0' && s[1] == x && s[2..] == rest;
    DigitLed(s);
    assert IntDigits(s) == [];
  }

  lemma {:induction false} DigitPrefixOfDigits(d: string, rest: string)
    requires AllDigits(d)
    requires rest == [] || !IsDigit(rest[0])
    ensures DigitPrefix(d + rest) == d
  {
    if d != [] {
      assert (d + rest)[1..] == d[1..] + rest;
      DigitPrefixOfDigits(d[1..], rest);
    }
  }

  /** Text that starts with a digit has no leading white space and no sign. */
  lemma DigitLed(s: string)
    requires StartsDigit(s)
    ensures TrimStart(s) == s && Unsigned(s) == s && !Negative(s)
  {
    DigitNotSpace(s[0]);
  }

  /** No digit is white space. */
  lemma DigitNotSpace(c: char)
    requires IsDigit(c)
    ensures !IsSpace(c)
  {
  }

  /** A plain decimal text `ddd` parses to its value. */
  lemma ParseFloatDigits(ip: string)
    requires ip != [] && AllDigits(ip)
    ensures ParseFloat(ip) == Num(DigitsValue(ip) as real)
  {
    assert UnsignedDecimal(ip) == Num(DecimalValue(ip, [])) by {
      UnsignedDecimalSplit(ip, []);
      assert ip + [] == ip;
    }
    assert DecimalValue(ip, []) == DigitsValue(ip) as real;
    DigitLed(ip);
  }

  /** The integer digits of `ip + rest` are `ip` when `rest` starts with no digit. */
  lemma UnsignedDecimalSplit(ip: string, rest: string)
    requires ip != [] && AllDigits(ip)
    requires rest == [] || !IsDigit(rest[0])
    ensures UnsignedDecimal(ip + rest) == Num(DecimalValue(ip, FractionDigits(rest)))
  {
    DigitPrefixOfDigits(ip, rest);
    assert (ip + rest)[|ip|..] == rest;
  }

  lemma FractionDigitsAfterPoint(fp: string, tail: string)
    requires AllDigits(fp)
    requires tail == [] || !IsDigit(tail[0])
    ensures FractionDigits(['.'] + (fp + tail)) == fp
  {
    DigitPrefixOfDigits(fp, tail);
    assert (['.'] + (fp + tail))[1..] == fp + tail;
  }

  /** A decimal text `ddd.fff` parses to its value, whatever non-digit text
      follows it. */
  lemma ParseFloatDecimal(ip: string, fp: string, tail: string)
    requires ip != [] && AllDigits(ip) && AllDigits(fp)
    requires tail == [] || !IsDigit(tail[0])
    ensures ParseFloat(ip + ("." + (fp + tail))) == Num(DecimalValue(ip, fp))
  {
    var s := ip + ("." + (fp + tail));
    assert TrimStart(s) == s && Unsigned(s) == s && !Negative(s) by {
      assert s[0] == ip[0];
      DigitLed(s);
    }
    UnsignedDecimalSplit(ip, "." + (fp + tail));
    FractionDigitsAfterPoint(fp, tail);
  }

  /** A decimal text `ddd.fff` with nothing after it parses to its value. */
  lemma ParseFloatPoint(ip: string, fp: string)
    requires ip != [] && AllDigits(ip) && AllDigits(fp)
    ensures ParseFloat(ip + ("." + fp)) == Num(DecimalValue(ip, fp))
  {
    ParseFloatDecimal(ip, fp, []);
    assert fp + [] == fp;
  }
}
