// Reading and showing prices. Prices travel through the app as pt-BR text
// ("R$ 1.234,56"); two different cleaners turn that text into a number.
module Prices {
  import opened JsText

  /** The argument of `formatPrice`: a string or a number. */
  datatype PriceArg = Text(text: string) | Number(n: JsNumber)

  /** What `formatPrice` returns: the fixed fallback text, or an amount that
      is then written in pt-BR currency notation. */
  datatype Formatted = Literal(text: string) | Currency(amount: real)

  const Fallback: string := "R$ 0,00"

  /** The text screens show for a product without a price. */
  const Unavailable: string := "Preço indisponível"

  /** `s.replace(/R\$|\s/g, "")`: every "R$" and every white-space character
      removed in one left-to-right pass. */
  function StripCurrencyAndSpace(s: string): (r: string)
    ensures |r| <= |s|
    ensures forall i :: 0 <= i < |r| ==> !IsSpace(r[i])
    ensures forall x :: x in r ==> x in s
  {
    if s == [] then []
    else if |s| >= 2 && s[0] == 'R' && s[1] == '$' then StripCurrencyAndSpace(s[2..])
    else if IsSpace(s[0]) then StripCurrencyAndSpace(s[1..])
    else [s[0]] + StripCurrencyAndSpace(s[1..])
  }

  /** Text with no 'R' and no white space is left as it is. */
  lemma {:induction false} StripPlain(x: string)
    requires forall i :: 0 <= i < |x| ==> x[i] != 'R' && !IsSpace(x[i])
    ensures StripCurrencyAndSpace(x) == x
  {
    if x != [] {
      StripPlain(x[1..]);
      assert x == [x[0]] + x[1..];
    }
  }

  /** The text after the thousands dots are dropped, before the decimal comma
      becomes a point. */
  function Dotless(s: string): (d: string)
    ensures '.' !in d
    ensures forall i :: 0 <= i < |d| ==> !IsSpace(d[i])
  {
    var d := RemoveAll(StripCurrencyAndSpace(s), '.');
    assert forall i :: 0 <= i < |d| ==> d[i] in d;
    d
  }

  /** Position `i` of `d` holds its first comma. */
  predicate FirstComma(d: string, i: nat)
    requires i < |d|
  {
    d[i] == ',' && ',' !in d[..i]
  }

  /** In a text without '.', turning the first ',' into '.' leaves exactly one
      '.', at that comma, and every other character as it was. */
  lemma FirstCommaToPoint(d: string)
    requires '.' !in d
    ensures var r := ReplaceFirst(d, [','], ['.']);
      && |r| == |d|
      && (forall i :: 0 <= i < |r| ==> (r[i] == '.' <==> FirstComma(d, i)))
      && (forall i :: 0 <= i < |r| && r[i] != '.' ==> r[i] == d[i])
  {
    ReplaceFirstChar(d, ',', '.');
    var r := ReplaceFirst(d, [','], ['.']);
    if ',' in d {
      var k := IndexOf(d, [',']).value;
      forall i | 0 <= i < |r| ensures r[i] == '.' <==> FirstComma(d, i) {
        if i > k {
          assert d[..i][k] == ',';
        }
      }
    }
  }

  /** The cleaning chain of `formatPrice`: strip "R$" and white space, drop
      every '.', then turn the FIRST ',' into '.'. */
  function CleanPrice(s: string): (r: string)
    ensures |r| == |Dotless(s)|
  {
    FirstCommaToPoint(Dotless(s));
    ReplaceFirst(Dotless(s), [','], ['.'])
  }

  /** The cleaned text has no white space, and a '.' at exactly one place:
      the first comma of the dotless text, if it has one; every other
      character is kept. */
  lemma CleanPriceShape(s: string)
    ensures var r := CleanPrice(s);
      && (forall i :: 0 <= i < |r| ==> !IsSpace(r[i]))
      && (forall i :: 0 <= i < |r| ==> (r[i] == '.' <==> FirstComma(Dotless(s), i)))
      && (forall i :: 0 <= i < |r| && r[i] != '.' ==> r[i] == Dotless(s)[i])
  {
    FirstCommaToPoint(Dotless(s));
  }

  /** The number `formatPrice` formats: a string argument cleaned and parsed,
      a number as given. */
  function Amount(p: PriceArg): JsNumber {
    match p
    case Text(t) => ParseFloat(CleanPrice(t))
    case Number(n) => n
  }

  /** `formatPrice`: NaN, and only NaN, gives the fallback "R$ 0,00"; any
      other amount is formatted as it is, and a number argument passes
      through unchanged. */
  function FormatPrice(p: PriceArg): (r: Formatted)
    ensures r.Literal? <==> Amount(p).NaN?
    ensures r.Literal? ==> r.text == Fallback
    ensures r.Currency? ==> r.amount == Amount(p).value
    ensures p.Number? && p.n.Num? ==> r == Currency(p.n.value)
  {
    var n := Amount(p);
    if n.NaN? then Literal(Fallback) else Currency(n.value)
  }

  /** A price as the app writes it: "R$ " then the whole part, a comma and
      the cents. */
  function Price(whole: string, cents: string): string {
    "R$ " + (whole + ("," + cents))
  }

  /** A pt-BR whole part: digits, with thousands dots between them. */
  predicate GroupedDigits(g: string) {
    g != [] && IsDigit(g[0]) && forall i :: 0 <= i < |g| ==> IsDigit(g[i]) || g[i] == '.'
  }

  /** The thousands dots of a grouped whole part dropped: its digits. */
  function Undotted(g: string): (d: string)
    requires GroupedDigits(g)
    ensures d != [] && AllDigits(d)
  {
    var d := RemoveAll(g, '.');
    assert g == [g[0]] + g[1..];
    assert forall i :: 0 <= i < |d| ==> d[i] in d;
    d
  }

  lemma DigitsNoMarks(d: string)
    requires AllDigits(d)
    ensures '.' !in d && ',' !in d && 'R' !in d
  {
    forall i | 0 <= i < |d| ensures d[i] != '.' && d[i] != ',' && d[i] != 'R' { }
  }

  lemma AllDigitsAppend(a: string, b: string)
    requires AllDigits(a) && AllDigits(b)
    ensures AllDigits(a + b)
  {
    forall i | 0 <= i < |a + b| ensures IsDigit((a + b)[i]) {
      if i >= |a| { assert (a + b)[i] == b[i - |a|]; }
    }
  }

  lemma StripPrice(g: string, fp: string)
    requires GroupedDigits(g) && AllDigits(fp)
    ensures StripCurrencyAndSpace(Price(g, fp)) == g + ("," + fp)
  {
    var x := g + ("," + fp);
    assert Price(g, fp)[2..] == " " + x;
    assert (" " + x)[1..] == x;
    forall i | 0 <= i < |x| ensures x[i] != 'R' && !IsSpace(x[i]) {
      if i < |g| { assert x[i] == g[i]; }
      else if i > |g| { assert x[i] == fp[i - |g| - 1]; }
    }
    StripPlain(x);
  }

  lemma DotlessPrice(g: string, fp: string)
    requires GroupedDigits(g) && AllDigits(fp)
    ensures Dotless(Price(g, fp)) == Undotted(g) + ([','] + fp)
  {
    StripPrice(g, fp);
    RemoveAllAppend(g, "," + fp, '.');
    RemoveAllAppend(",", fp, '.');
    DigitsNoMarks(fp);
  }

  /** What `formatPrice` computes for a pt-BR price: the whole part without
      its dots, a point, and the cents. */
  lemma CleanPtBr(g: string, fp: string)
    requires GroupedDigits(g) && AllDigits(fp)
    ensures CleanPrice(Price(g, fp)) == Undotted(g) + ("." + fp)
  {
    DotlessPrice(g, fp);
    DigitsNoMarks(Undotted(g));
    ReplaceFirstAfter(Undotted(g), ',', fp, ".");
  }

  /** `formatPrice` reads a pt-BR price, thousands dots and all:
      "R$ 1.234,56" is 1234.56. */
  lemma FormatPriceReadsPtBr(g: string, fp: string)
    requires GroupedDigits(g) && AllDigits(fp)
    ensures FormatPrice(Text(Price(g, fp))) == Currency(DecimalValue(Undotted(g), fp))
  {
    assert Amount(Text(Price(g, fp))) == Num(DecimalValue(Undotted(g), fp)) by {
      CleanPtBr(g, fp);
      ParseFloatPoint(Undotted(g), fp);
    }
  }

  /** The cleaning chain of `parsePriceToNumber`: only the FIRST "R$ ", the
      FIRST '.' and the FIRST ',' are rewritten. */
  function StripFirstMarks(s: string): string {
    ReplaceFirst(ReplaceFirst(ReplaceFirst(s, "R$ ", ""), ".", ""), ",", ".")
  }

  /** `parsePriceToNumber`: `parseFloat` of the cleaned text, with NaN (and 0)
      read as 0. */
  function ParsePriceToNumber(s: string): (r: real)
    ensures var p := ParseFloat(StripFirstMarks(s));
      (Truthy(p) ==> r == p.value) && (!Truthy(p) ==> r == 0.0)
  {
    OrZero(ParseFloat(StripFirstMarks(s)))
  }

  /** Text with no number at its start, once cleaned, is worth 0, and text
      without a leading minus sign is never negative. */
  lemma ParsePriceToNumberSign(s: string)
    ensures !StartsDecimal(Unsigned(TrimStart(StripFirstMarks(s)))) ==> ParsePriceToNumber(s) == 0.0
    ensures !Negative(TrimStart(StripFirstMarks(s))) ==> ParsePriceToNumber(s) >= 0.0
  {
  }

  /** The first "R$ " of a price is the one it starts with. */
  lemma StripSymbol(x: string)
    ensures ReplaceFirst("R$ " + x, "R$ ", "") == x
  {
    ReplaceFirstAtStart("R$ ", x, "");
    assert "" + x == x;
  }

  /** A price below one thousand, "R$ 99,90", is read exactly. */
  lemma ParsePriceOfPlain(a: string, fp: string)
    requires a != [] && AllDigits(a) && AllDigits(fp)
    ensures ParsePriceToNumber(Price(a, fp)) == DecimalValue(a, fp)
  {
    var x := a + ("," + fp);
    assert StripFirstMarks(Price(a, fp)) == a + ("." + fp) by {
      StripSymbol(x);
      DigitsNoMarks(a);
      DigitsNoMarks(fp);
      assert '.' !in x;
      AbsentHead(x, ".");
      ReplaceFirstAfter(a, ',', fp, ".");
    }
    ParseFloatPoint(a, fp);
  }

  /** The first '.' of `a.rest` dropped, when `a` is digits. */
  lemma DropFirstPoint(a: string, rest: string)
    requires AllDigits(a)
    ensures ReplaceFirst(a + ("." + rest), ".", "") == a + rest
  {
    DigitsNoMarks(a);
    ReplaceFirstAfter(a, '.', rest, "");
    assert "" + rest == rest;
  }

  /** A price with one thousands dot, "R$ 1.234,56", is read exactly. */
  lemma ParsePriceOfThousands(a: string, b: string, fp: string)
    requires a != [] && AllDigits(a) && AllDigits(b) && AllDigits(fp)
    ensures AllDigits(a + b)
    ensures ParsePriceToNumber(Price(a + ("." + b), fp)) == DecimalValue(a + b, fp)
  {
    AllDigitsAppend(a, b);
    assert StripFirstMarks(Price(a + ("." + b), fp)) == (a + b) + ("." + fp) by {
      var x := (a + ("." + b)) + ("," + fp);
      StripSymbol(x);
      Reassociate(a, "." + b, "," + fp);
      Reassociate(".", b, "," + fp);
      DropFirstPoint(a, b + ("," + fp));
      Reassociate(a, b, "," + fp);
      DigitsNoMarks(a + b);
      ReplaceFirstAfter(a + b, ',', fp, ".");
    }
    ParseFloatPoint(a + b, fp);
  }

  lemma StripMarksOfMillions(a: string, b: string, c: string, fp: string)
    requires AllDigits(a) && AllDigits(b) && AllDigits(c) && AllDigits(fp)
    ensures StripFirstMarks(Price(a + ("." + (b + ("." + c))), fp))
         == (a + b) + ("." + (c + ("." + fp)))
  {
    var bc := b + ("." + c);
    var x := (a + ("." + bc)) + ("," + fp);
    StripSymbol(x);
    Reassociate(a, "." + bc, "," + fp);
    Reassociate(".", bc, "," + fp);
    DropFirstPoint(a, bc + ("," + fp));
    var m := (a + b) + ("." + c);
    assert a + (bc + ("," + fp)) == m + ([','] + fp) by {
      Reassociate(a, bc, "," + fp);
      Reassociate(a, b, "." + c);
    }
    assert ',' !in m by {
      DigitsNoMarks(a);
      DigitsNoMarks(b);
      DigitsNoMarks(c);
    }
    ReplaceFirstAfter(m, ',', fp, ".");
    assert m + ("." + fp) == (a + b) + ("." + (c + ("." + fp))) by {
      Reassociate(a + b, "." + c, "." + fp);
      Reassociate(".", c, "." + fp);
    }
  }

  lemma UndottedOfMillions(a: string, b: string, c: string)
    requires a != [] && AllDigits(a) && AllDigits(b) && AllDigits(c)
    ensures GroupedDigits(a + ("." + (b + ("." + c))))
    ensures Undotted(a + ("." + (b + ("." + c)))) == a + (b + c)
  {
    var g := a + ("." + (b + ("." + c)));
    forall i | 0 <= i < |g| ensures IsDigit(g[i]) || g[i] == '.' {
      if i < |a| { assert g[i] == a[i]; }
      else if |a| < i < |a| + 1 + |b| { assert g[i] == b[i - |a| - 1]; }
      else if i > |a| + 1 + |b| { assert g[i] == c[i - |a| - |b| - 2]; }
    }
    assert g[0] == a[0];
    DigitsNoMarks(a);
    DigitsNoMarks(b);
    DigitsNoMarks(c);
    assert RemoveAll(".", '.') == [];
    assert RemoveAll("." + c, '.') == c by {
      RemoveAllAppend(".", c, '.');
    }
    assert RemoveAll(b + ("." + c), '.') == b + c by {
      RemoveAllAppend(b, "." + c, '.');
    }
    assert RemoveAll("." + (b + ("." + c)), '.') == b + c by {
      RemoveAllAppend(".", b + ("." + c), '.');
    }
    RemoveAllAppend(a, "." + (b + ("." + c)), '.');
  }

  lemma Scale10(n: int, p: int, k: int, l: int)
    ensures (n * p + k) * 10 + l == n * (10 * p) + (k * 10 + l)
  {
  }

  /** Digits appended to a digit string scale its value: `x` followed by `k`
      more digits is `x` times 10^k plus the value of those digits. */
  lemma {:induction false} DigitsValueAppend(x: string, c: string)
    requires AllDigits(x) && AllDigits(c)
    ensures AllDigits(x + c)
    ensures DigitsValue(x + c) == DigitsValue(x) * Pow10(|c|) + DigitsValue(c)
  {
    AllDigitsAppend(x, c);
    if c != [] {
      var c' := c[..|c| - 1];
      assert (x + c)[..|x + c| - 1] == x + c';
      assert (x + c)[|x + c| - 1] == c[|c| - 1];
      DigitsValueAppend(x, c');
      var n, p, k, l := DigitsValue(x), Pow10(|c'|), DigitsValue(c'), DigitValue(c[|c| - 1]);
      assert DigitsValue(x + c) == DigitsValue(x + c') * 10 + l;
      assert DigitsValue(c) == k * 10 + l;
      assert Pow10(|c|) == 10 * p;
      Scale10(n, p, k, l);
    } else {
      assert x + c == x;
    }
  }

  /** With two thousands dots only the first is dropped, and the second
      becomes the decimal point: "R$ 1.234.567,89" is read as 1234.567 by the
      cart, while `formatPrice` reads the same text as 1234567.89. Whenever
      the digits before the second dot are not all zero, the cart's reading
      is the smaller one. */
  lemma ParsePriceMisreadsMillions(a: string, b: string, c: string, fp: string)
    requires a != [] && AllDigits(a) && AllDigits(b) && AllDigits(c) && AllDigits(fp)
    ensures AllDigits(a + b) && AllDigits(a + (b + c))
    ensures ParsePriceToNumber(Price(a + ("." + (b + ("." + c))), fp)) == DecimalValue(a + b, c)
    ensures FormatPrice(Text(Price(a + ("." + (b + ("." + c))), fp)))
         == Currency(DecimalValue(a + (b + c), fp))
    ensures c != [] && DigitsValue(a + b) >= 1 ==>
      DecimalValue(a + b, c) < DecimalValue(a + (b + c), fp)
  {
    AllDigitsAppend(a, b);
    AllDigitsAppend(b, c);
    AllDigitsAppend(a, b + c);
    assert ParsePriceToNumber(Price(a + ("." + (b + ("." + c))), fp)) == DecimalValue(a + b, c) by {
      StripMarksOfMillions(a, b, c, fp);
      ParseFloatDecimal(a + b, c, "." + fp);
    }
    assert FormatPrice(Text(Price(a + ("." + (b + ("." + c))), fp)))
        == Currency(DecimalValue(a + (b + c), fp)) by {
      UndottedOfMillions(a, b, c);
      FormatPriceReadsPtBr(a + ("." + (b + ("." + c))), fp);
    }
    if c != [] && DigitsValue(a + b) >= 1 {
      MillionsOrder(a + b, c, fp);
      Reassociate(a, b, c);
    }
  }

  lemma MulAtLeastTen(n: nat, p: nat)
    requires p >= 10
    ensures n * p >= n * 10
  {
  }

  lemma MillionsOrder(ab: string, c: string, fp: string)
    requires AllDigits(ab) && AllDigits(c) && AllDigits(fp)
    requires c != [] && DigitsValue(ab) >= 1
    ensures AllDigits(ab + c)
    ensures DecimalValue(ab, c) < DecimalValue(ab + c, fp)
  {
    DigitsValueAppend(ab, c);
    var n := DigitsValue(ab);
    var p := Pow10(|c|);
    assert p >= 10 by {
      assert p == 10 * Pow10(|c| - 1);
    }
    MulAtLeastTen(n, p);
    assert DecimalValue(ab, c) < (n + 1) as real;
    assert (DigitsValue(ab + c) as real) <= DecimalValue(ab + c, fp);
  }

  /** Text with no marks to rewrite and no number at its start, such as
      "Preço indisponível", is worth 0 to the cart. */
  lemma ParsePriceOfNonNumber(s: string)
    requires 'R' !in s && '.' !in s && ',' !in s
    requires !StartsDecimal(Unsigned(TrimStart(s)))
    ensures ParsePriceToNumber(s) == 0.0
  {
    AbsentHead(s, "R$ ");
    AbsentHead(s, ".");
    IndexOfChar(s, ',');
  }
}
