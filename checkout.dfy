/** The checkout screen: the CPF and CEP input masks, the price shown for
    each cart line, the validation gate in front of the order commit, and
    the form state the screen keeps. */
module Checkout {
  import opened Wrappers
  import opened Models
  import opened JsText
  import opened Prices
  import opened Seqs
  import opened Storage
  import opened CartContext
  import opened CartLines
  import opened ProductCard

  // ---------------------------------------------------------------------
  // joining groups of digits
  // ---------------------------------------------------------------------

  predicate NonEmpty(s: string) {
    s != []
  }

  /** `parts.join(sep)` */
  function Join(parts: seq<string>, sep: string): string {
    if parts == [] then []
    else if |parts| == 1 then parts[0]
    else parts[0] + (sep + Join(parts[1..], sep))
  }

  /** The parts written one after the other. */
  function Concat(parts: seq<string>): string {
    if parts == [] then [] else parts[0] + Concat(parts[1..])
  }

  /** The text from `lo` to `hi`, both cut down to the text's length: what a
      greedy regular-expression group of at most `hi - lo` digits captures. */
  function Group(c: string, lo: nat, hi: nat): (g: string)
    requires lo <= hi
    ensures |g| <= hi - lo
  {
    var a := if lo < |c| then lo else |c|;
    var b := if hi < |c| then hi else |c|;
    c[a..b]
  }

  /** Every part holds only digits. */
  predicate DigitParts(parts: seq<string>) {
    forall i :: 0 <= i < |parts| ==> AllDigits(parts[i])
  }

  /** Joining digit groups with a separator that holds no digit leaves, once
      non-digits are stripped, the groups one after the other. */
  lemma {:induction false} JoinKeepDigits(parts: seq<string>, sep: string)
    requires DigitParts(parts)
    requires KeepDigits(sep) == []
    ensures KeepDigits(Join(parts, sep)) == Concat(parts)
  {
    if |parts| == 1 {
      assert Concat(parts[1..]) == [];
      assert parts[0] + [] == parts[0];
    } else if |parts| > 1 {
      JoinKeepDigits(parts[1..], sep);
      KeepDigitsAppend(sep, Join(parts[1..], sep));
      KeepDigitsAppend(parts[0], sep + Join(parts[1..], sep));
    }
  }

  /** Dropping empty parts does not change their concatenation. */
  lemma {:induction false} ConcatNonEmpty(parts: seq<string>)
    ensures Concat(Filter(parts, NonEmpty)) == Concat(parts)
  {
    if parts != [] {
      ConcatNonEmpty(parts[1..]);
      if NonEmpty(parts[0]) {
        assert Filter(parts, NonEmpty) == [parts[0]] + Filter(parts[1..], NonEmpty);
        assert ([parts[0]] + Filter(parts[1..], NonEmpty))[1..] == Filter(parts[1..], NonEmpty);
      } else {
        assert Filter(parts, NonEmpty) == Filter(parts[1..], NonEmpty);
        assert parts[0] + Concat(parts[1..]) == Concat(parts[1..]);
      }
    }
  }

  /** When the first `m` parts are the non-empty ones, the non-empty parts
      are exactly those. */
  lemma {:induction false} FilterLeading(parts: seq<string>, m: nat)
    requires m <= |parts|
    requires forall i :: 0 <= i < m ==> parts[i] != []
    requires forall i :: m <= i < |parts| ==> parts[i] == []
    ensures Filter(parts, NonEmpty) == parts[..m]
  {
    if parts != [] {
      var m' := if m == 0 then 0 else m - 1;
      FilterLeading(parts[1..], m');
      if m > 0 {
        assert parts[..m] == [parts[0]] + parts[1..][..m'];
      }
    }
  }

  /** A joined list ends with the separator and its last part. */
  lemma {:induction false} JoinSnoc(parts: seq<string>, sep: string)
    requires |parts| >= 2
    ensures Join(parts, sep) == Join(parts[..|parts| - 1], sep) + (sep + parts[|parts| - 1])
  {
    var n := |parts|;
    if n == 2 {
      assert parts[..1] == [parts[0]];
    } else {
      JoinSnoc(parts[1..], sep);
      assert parts[1..][..n - 2] == parts[..n - 1][1..];
      assert parts[1..][n - 2] == parts[n - 1];
      calc {
        Join(parts, sep);
        parts[0] + (sep + (Join(parts[..n - 1][1..], sep) + (sep + parts[n - 1])));
        { Reassociate(sep, Join(parts[..n - 1][1..], sep), sep + parts[n - 1]);
          Reassociate(parts[0], sep + Join(parts[..n - 1][1..], sep), sep + parts[n - 1]); }
        (parts[0] + (sep + Join(parts[..n - 1][1..], sep))) + (sep + parts[n - 1]);
      }
    }
  }

  // ---------------------------------------------------------------------
  // CPF mask
  // ---------------------------------------------------------------------

  /** The four groups of `^(\d{0,3})(\d{0,3})(\d{0,3})(\d{0,2})$` for a
      digit string of at most 11 digits. */
  function CpfGroups(c: string): seq<string>
    requires |c| <= 11
  {
    [Group(c, 0, 3), Group(c, 3, 6), Group(c, 6, 9), Group(c, 9, 11)]
  }

  /** The number of non-empty CPF groups. */
  function CpfGroupCount(n: nat): nat {
    if n == 0 then 0 else if n <= 3 then 1 else if n <= 6 then 2 else if n <= 9 then 3 else 4
  }

  /** `.replace(/(\d{3})(\d{3})$/, "$1-$2")`: six digits at the very end get
      a '-' before their last three. */
  function DashLastSix(s: string): string {
    if |s| >= 6 && AllDigits(s[|s| - 6..]) then s[..|s| - 3] + ("-" + s[|s| - 3..]) else s
  }

  /** `formatCpf`: the digits of the input, when there are at most 11 of
      them, split into the regular expression's groups; the non-empty groups
      joined with '.' once the second group is non-empty (with nothing
      otherwise), then passed through the dash rewrite. More than 11 digits
      leave the input as it was typed. */
  function FormatCpf(text: string): (r: string)
    ensures |KeepDigits(text)| > 11 ==> r == text
  {
    var cleaned := KeepDigits(text);
    if |cleaned| <= 11 then
      var sep := if |cleaned| > 3 then "." else "";
      DashLastSix(Join(Filter(CpfGroups(cleaned), NonEmpty), sep))
    else text
  }

  /** The text after a '.' followed by at most five characters never ends in
      six digits. */
  lemma DashLastSixAfterPoint(x: string, y: string)
    requires |y| <= 5
    ensures DashLastSix(x + ("." + y)) == x + ("." + y)
  {
    var s := x + ("." + y);
    if |s| >= 6 {
      assert s[|s| - 6..][|x| - (|s| - 6)] == '.';
    }
  }

  lemma CpfGroupsLeading(c: string)
    requires |c| <= 11
    ensures Filter(CpfGroups(c), NonEmpty) == CpfGroups(c)[..CpfGroupCount(|c|)]
  {
    FilterLeading(CpfGroups(c), CpfGroupCount(|c|));
  }

  /** With at most 11 digits, the dash rewrite never applies: the groups are
      joined with '.' and every group after the first holds at most three
      digits. */
  lemma CpfDashNeverApplies(c: string)
    requires |c| <= 11 && AllDigits(c)
    ensures var sep := if |c| > 3 then "." else "";
      var joined := Join(Filter(CpfGroups(c), NonEmpty), sep);
      DashLastSix(joined) == joined
  {
    var sep := if |c| > 3 then "." else "";
    var m := CpfGroupCount(|c|);
    var parts := CpfGroups(c)[..m];
    CpfGroupsLeading(c);
    if m >= 2 {
      JoinSnoc(parts, sep);
      DashLastSixAfterPoint(Join(parts[..m - 1], sep), parts[m - 1]);
    } else if m == 1 {
      assert |Join(parts, sep)| <= 3;
    }
  }

  /** A list of four parts concatenates to its parts in order. */
  lemma ConcatFour(g: seq<string>)
    requires |g| == 4
    ensures Concat(g) == g[0] + (g[1] + (g[2] + g[3]))
  {
    assert Concat(g[3..]) == g[3] by {
      assert g[3..][1..] == [];
      assert g[3] + [] == g[3];
    }
    assert Concat(g[2..]) == g[2] + Concat(g[3..]) by { assert g[2..][1..] == g[3..]; }
    assert Concat(g[1..]) == g[1] + Concat(g[2..]) by { assert g[1..][1..] == g[2..]; }
    assert g[1..] == g[1..];
  }

  /** The CPF groups concatenate back to the digits. */
  lemma CpfGroupsConcat(c: string)
    requires |c| <= 11
    ensures Concat(CpfGroups(c)) == c
  {
    var g := CpfGroups(c);
    ConcatFour(g);
    if |c| <= 3 {
      assert g[1] == [] && g[2] == [] && g[3] == [];
      assert g[0] == c;
    } else if |c| <= 6 {
      assert g[2] == [] && g[3] == [];
      assert c == c[..3] + c[3..];
    } else if |c| <= 9 {
      assert g[3] == [];
      assert c == c[..3] + (c[3..6] + c[6..]);
    } else {
      assert c == c[..3] + (c[3..6] + (c[6..9] + c[9..]));
    }
  }

  /** Each non-empty CPF group is one of the groups, all digits. */
  lemma CpfPartsDigits(c: string)
    requires |c| <= 11 && AllDigits(c)
    ensures DigitParts(Filter(CpfGroups(c), NonEmpty))
  {
    var g := CpfGroups(c);
    var parts := Filter(g, NonEmpty);
    assert forall i :: 0 <= i < |g| ==> AllDigits(g[i]);
    assert forall i :: 0 <= i < |parts| ==> parts[i] in g;
  }

  /** The CPF groups, non-empty ones joined, give back the digits once the
      separators are stripped. */
  lemma CpfJoinedDigits(c: string)
    requires |c| <= 11 && AllDigits(c)
    ensures var sep := if |c| > 3 then "." else "";
      KeepDigits(Join(Filter(CpfGroups(c), NonEmpty), sep)) == c
  {
    var sep := if |c| > 3 then "." else "";
    var g := CpfGroups(c);
    CpfPartsDigits(c);
    assert KeepDigits(sep) == [];
    JoinKeepDigits(Filter(g, NonEmpty), sep);
    ConcatNonEmpty(g);
    CpfGroupsConcat(c);
  }

  /** The CPF groups, non-empty ones joined, hold no '-'. */
  lemma CpfJoinedNoDash(c: string)
    requires |c| <= 11 && AllDigits(c)
    ensures var sep := if |c| > 3 then "." else "";
      '-' !in Join(Filter(CpfGroups(c), NonEmpty), sep)
  {
    var sep := if |c| > 3 then "." else "";
    var parts := Filter(CpfGroups(c), NonEmpty);
    CpfPartsDigits(c);
    forall i | 0 <= i < |parts| ensures '-' !in parts[i] {
      assert AllDigits(parts[i]);
    }
    JoinCharacters(parts, sep);
  }

  /** With at most 11 digits typed, `formatCpf` writes no '-', and stripping
      its non-digits gives back exactly the digits typed. */
  lemma FormatCpfKeepsDigits(text: string)
    requires |KeepDigits(text)| <= 11
    ensures KeepDigits(FormatCpf(text)) == KeepDigits(text)
    ensures '-' !in FormatCpf(text)
  {
    CpfDashNeverApplies(KeepDigits(text));
    CpfJoinedDigits(KeepDigits(text));
    CpfJoinedNoDash(KeepDigits(text));
  }

  /** Every character of a join comes from a part or from the separator. */
  lemma {:induction false} JoinCharacters(parts: seq<string>, sep: string)
    ensures forall x :: x in Join(parts, sep) ==> x in sep || exists i :: 0 <= i < |parts| && x in parts[i]
  {
    if |parts| > 1 {
      JoinCharacters(parts[1..], sep);
      forall x | x in Join(parts, sep) && x !in sep
        ensures exists i :: 0 <= i < |parts| && x in parts[i]
      {
        if x !in parts[0] {
          var i :| 0 <= i < |parts[1..]| && x in parts[1..][i];
          assert x in parts[i + 1];
        }
      }
    }
  }

  /** Four parts joined with `sep`. */
  lemma JoinFour(g: seq<string>, sep: string)
    requires |g| == 4
    ensures Join(g, sep) == g[0] + (sep + (g[1] + (sep + (g[2] + (sep + g[3])))))
  {
    assert Join(g[2..], sep) == g[2] + (sep + g[3]) by { assert g[2..][1..] == [g[3]]; }
    assert Join(g[1..], sep) == g[1] + (sep + Join(g[2..], sep)) by { assert g[1..][1..] == g[2..]; }
  }

  /** Eleven digits fill all four CPF groups, joined with '.'. */
  lemma CpfElevenJoined(c: string)
    requires |c| == 11
    ensures Join(Filter(CpfGroups(c), NonEmpty), ".")
         == c[..3] + ("." + (c[3..6] + ("." + (c[6..9] + ("." + c[9..])))))
  {
    var g := CpfGroups(c);
    CpfGroupsLeading(c);
    assert g[..4] == g;
    JoinFour(g, ".");
  }

  /** Eleven digits come out as "ddd.ddd.ddd.dd". */
  lemma FormatCpfEleven(text: string)
    requires |KeepDigits(text)| == 11
    ensures var c := KeepDigits(text);
      FormatCpf(text) == c[..3] + ("." + (c[3..6] + ("." + (c[6..9] + ("." + c[9..])))))
  {
    CpfDashNeverApplies(KeepDigits(text));
    CpfElevenJoined(KeepDigits(text));
  }

  // ---------------------------------------------------------------------
  // CEP mask
  // ---------------------------------------------------------------------

  /** The two groups of `^(\d{0,5})(\d{0,3})$` for at most 8 digits. */
  function CepGroups(c: string): seq<string>
    requires |c| <= 8
  {
    [Group(c, 0, 5), Group(c, 5, 8)]
  }

  /** `formatCep`: with at most 8 digits typed, the first five, then '-' and
      the rest only when there is a rest; more digits leave the input as it
      was typed. */
  function FormatCep(text: string): (r: string)
    ensures |KeepDigits(text)| > 8 ==> r == text
  {
    var cleaned := KeepDigits(text);
    if |cleaned| <= 8 then
      var sep := if |cleaned| > 0 then "-" else "";
      Join(Filter(CepGroups(cleaned), NonEmpty), sep)
    else text
  }

  /** The CEP groups, non-empty ones joined: the digits as typed up to
      five of them, and the first five, '-' and the rest beyond that. */
  lemma CepJoined(c: string)
    requires |c| <= 8
    ensures var sep := if |c| > 0 then "-" else "";
      Join(Filter(CepGroups(c), NonEmpty), sep) == if |c| <= 5 then c else c[..5] + ("-" + c[5..])
  {
    var g := CepGroups(c);
    var m := if |c| == 0 then 0 else if |c| <= 5 then 1 else 2;
    FilterLeading(g, m);
    if m == 2 {
      assert g[..2] == g;
      assert g[1] == c[5..];
      assert g[1..] == [c[5..]];
    } else if m == 1 {
      assert g[0] == c;
      assert g[..1] == [c];
    }
  }

  /** The text `formatCep` writes for more than five digits strips back to
      the digits and holds a '-'. */
  lemma CepDashed(c: string)
    requires 5 < |c| && AllDigits(c)
    ensures KeepDigits(c[..5] + ("-" + c[5..])) == c
    ensures '-' in c[..5] + ("-" + c[5..])
  {
    KeepDigitsAppend("-", c[5..]);
    KeepDigitsAppend(c[..5], "-" + c[5..]);
    assert c[..5] + c[5..] == c;
    assert (c[..5] + ("-" + c[5..]))[5] == '-';
  }

  /** The CEP mask writes the digits as typed up to five of them, and the
      first five, '-' and the rest beyond that; so stripping non-digits gives
      the digits back, and a '-' appears exactly when there are more than
      five. */
  lemma FormatCepShape(text: string)
    requires |KeepDigits(text)| <= 8
    ensures var c := KeepDigits(text);
      FormatCep(text) == if |c| <= 5 then c else c[..5] + ("-" + c[5..])
    ensures KeepDigits(FormatCep(text)) == KeepDigits(text)
    ensures '-' in FormatCep(text) <==> |KeepDigits(text)| > 5
  {
    var c := KeepDigits(text);
    CepJoined(c);
    if |c| > 5 {
      CepDashed(c);
    } else {
      assert '-' !in c by { assert AllDigits(c); }
    }
  }

  // ---------------------------------------------------------------------
  // prices of the lines
  // ---------------------------------------------------------------------

  /** A line is priced by its plan when it names a plan, its product has a
      plan table, and the product belongs to "Parque" or "Planos". */
  predicate UsesPlanPrice(line: CartLine) {
    && line.selectedPlan != []
    && line.item.planPrices.Some?
    && (line.item.targetScreen == "Parque" || line.item.targetScreen == "Planos")
  }

  /** The line's plan has a non-empty entry in its product's plan table. */
  predicate PlanPriced(line: CartLine)
    requires line.item.planPrices.Some?
  {
    line.selectedPlan in line.item.planPrices.value && line.item.planPrices.value[line.selectedPlan] != []
  }

  /** `getItemPrice`: the plan's entry for a line priced by its plan, the
      product's price otherwise; a missing or empty value is replaced by
      "Preço indisponível", so the result is never empty. */
  function GetItemPrice(line: CartLine): (r: string)
    ensures r != []
    ensures (UsesPlanPrice(line) && line.selectedPlan in line.item.planPrices.value
             && line.item.planPrices.value[line.selectedPlan] != []) ==>
            r == line.item.planPrices.value[line.selectedPlan]
    ensures UsesPlanPrice(line) && !PlanPriced(line) ==> r == Unavailable
    ensures !UsesPlanPrice(line) && line.item.price != [] ==> r == line.item.price
    ensures !UsesPlanPrice(line) && line.item.price == [] ==> r == Unavailable
    ensures r != Unavailable ==> r == line.item.price || (UsesPlanPrice(line) && r in line.item.planPrices.value.Values)
  {
    if UsesPlanPrice(line) then
      var plans := line.item.planPrices.value;
      var planPrice := if line.selectedPlan in plans then plans[line.selectedPlan] else [];
      if planPrice != [] then planPrice else Unavailable
    else if line.item.price != [] then line.item.price
    else Unavailable
  }

  /** For a "Planos" product with a priced plan selected, the checkout
      charges the plan's price while the product card goes on showing the
      product's own price: the card's plan rule covers "Parque" alone. */
  lemma PlanosPricedDifferently(line: CartLine)
    requires line.item.targetScreen == "Planos" && line.item.price != []
    requires line.selectedPlan != [] && line.item.planPrices.Some?
    requires line.selectedPlan in line.item.planPrices.value
    requires line.item.planPrices.value[line.selectedPlan] != []
    ensures GetItemPrice(line) == line.item.planPrices.value[line.selectedPlan]
    ensures PriceDisplay(line.item, line.selectedPlan) == Some(line.item.price)
  {
    assert !ShowsPlanPrice(line.item, line.selectedPlan);
  }

  /** For a "Parque" product the two screens agree on a priced plan. */
  lemma ParquePricedAlike(line: CartLine)
    requires line.item.targetScreen == "Parque"
    requires line.selectedPlan != [] && line.item.planPrices.Some?
    requires line.selectedPlan in line.item.planPrices.value
    requires line.item.planPrices.value[line.selectedPlan] != []
    ensures PriceDisplay(line.item, line.selectedPlan) == Some(GetItemPrice(line))
  {
    assert UsesPlanPrice(line) && ShowsPlanPrice(line.item, line.selectedPlan);
  }

  /** The total shown for one line: the unit price text read by
      `parsePrice`, times the quantity. The screen's reading is the shop's
      `parsePriceToNumber` (first-occurrence cleaning, `|| 0` included), so
      its callers pass `ParsePriceToNumber`; `LineTotalMatchesCart` holds
      for any reading. */
  function LineTotal(line: CartLine, parsePrice: string -> real): real {
    parsePrice(GetItemPrice(line)) * line.quantity as real
  }

  /** "Preço indisponível" has no currency mark and no separator. */
  lemma UnavailableMarks()
    ensures 'R' !in Unavailable && '.' !in Unavailable && ',' !in Unavailable
  {
  }

  /** "Preço indisponível" has no number at its start. */
  lemma UnavailableNoNumber()
    ensures !StartsDecimal(Unsigned(TrimStart(Unavailable)))
  {
    assert Unavailable[0] == 'P';
    assert TrimStart(Unavailable) == Unavailable;
  }

  /** "Preço indisponível" reads as 0. */
  lemma UnavailableReadsZero()
    ensures ParsePriceToNumber(Unavailable) == 0.0
  {
    UnavailableMarks();
    UnavailableNoNumber();
    ParsePriceOfNonNumber(Unavailable);
  }

  /** A line with no usable price adds 0 to the order, whatever its
      quantity. */
  lemma LineTotalWithoutPrice(line: CartLine)
    requires GetItemPrice(line) == Unavailable
    ensures LineTotal(line, ParsePriceToNumber) == 0.0
  {
    UnavailableReadsZero();
  }

  /** A line that is not priced by a plan counts at checkout what it counts
      in the shop's cart total. */
  lemma LineTotalMatchesCart(line: CartLine, read: string -> real)
    requires !UsesPlanPrice(line) && line.item.price != []
    ensures LineTotal(line, read) == LineValue(line, read)
  {
  }

  // ---------------------------------------------------------------------
  // the order form
  // ---------------------------------------------------------------------

  const Credit: string := "Crédito"
  const NoNeighborhood: string := "Não informado"

  /** The ten fields of the order form. `paymentType` is `null` until an
      option is chosen. */
  datatype CheckoutForm = CheckoutForm(
    customerName: string,
    cpf: string,
    cep: string,
    address: string,
    number: string,
    neighborhood: string,
    city: string,
    state: string,
    paymentType: Option<string>,
    installments: string)

  /** Why `handleFinishOrder` refuses a form, in the order it checks. */
  datatype FormError = MissingFields | CpfLength | MissingInstallments

  /** Some required field is falsy; the neighborhood is not required, and
      the CPF counts by its digits. */
  predicate MissingRequired(f: CheckoutForm) {
    || f.customerName == [] || KeepDigits(f.cpf) == [] || f.cep == []
    || f.address == [] || f.number == [] || f.city == [] || f.state == []
    || f.paymentType.None? || f.paymentType.value == []
  }

  /** Credit without a number of installments, or with one that parses to
      zero or less. A text that does not parse (NaN) is not caught, since
      `NaN <= 0` is false. */
  predicate BadInstallments(f: CheckoutForm) {
    && f.paymentType == Some(Credit)
    && (f.installments == [] || (ParseInt(f.installments).Num? && ParseInt(f.installments).value <= 0.0))
  }

  /** The validation gate of `handleFinishOrder`: missing fields first, then
      the CPF length, then the installments; each refusal implies the checks
      before it passed. */
  function Validate(f: CheckoutForm): (r: Option<FormError>)
    ensures r == Some(MissingFields) <==> MissingRequired(f)
    ensures r == Some(CpfLength) <==> !MissingRequired(f) && |KeepDigits(f.cpf)| != 11
    ensures r == Some(MissingInstallments) <==>
      !MissingRequired(f) && |KeepDigits(f.cpf)| == 11 && BadInstallments(f)
  {
    if MissingRequired(f) then Some(MissingFields)
    else if |KeepDigits(f.cpf)| != 11 then Some(CpfLength)
    else if BadInstallments(f) then Some(MissingInstallments)
    else None
  }

  /** A form that passes holds every required field, exactly 11 CPF digits
      and, for credit, an installments text that is not empty and does not
      parse to a number of at most zero. */
  lemma ValidFormHolds(f: CheckoutForm)
    requires Validate(f).None?
    ensures f.customerName != [] && f.cep != [] && f.address != [] && f.number != []
    ensures f.city != [] && f.state != [] && f.paymentType.Some? && f.paymentType.value != []
    ensures |KeepDigits(f.cpf)| == 11
    ensures f.paymentType == Some(Credit) ==>
      f.installments != [] && (ParseInt(f.installments).NaN? || ParseInt(f.installments).value > 0.0)
  {
    assert !MissingRequired(f);
  }

  /** Credit with an installments text that is not a number passes the
      gate, once the other fields are in order. */
  lemma UnparsedInstallmentsPass(f: CheckoutForm)
    requires !MissingRequired(f) && |KeepDigits(f.cpf)| == 11
    requires f.paymentType == Some(Credit) && f.installments != []
    requires !StartsDigit(Unsigned(TrimStart(f.installments)))
    ensures Validate(f).None?
  {
    assert ParseInt(f.installments).NaN?;
  }

  /** What the commit step is given: the customer with the CPF's digits and
      "Não informado" for an empty neighborhood, and the order with the
      payment type and, for credit only, `parseInt` of the installments. */
  datatype OrderRequest = OrderRequest(
    customerName: string,
    cpf: string,
    cep: string,
    address: string,
    number: string,
    neighborhood: string,
    city: string,
    state: string,
    paymentType: string,
    installments: Option<JsNumber>,
    items: seq<CartLine>,
    total: real)

  function OrderRequestOf(f: CheckoutForm, items: seq<CartLine>, total: real): (o: OrderRequest)
    requires f.paymentType.Some?
    ensures o.neighborhood == (if f.neighborhood != [] then f.neighborhood else NoNeighborhood)
    ensures o.cpf == KeepDigits(f.cpf) && o.paymentType == f.paymentType.value
    ensures f.paymentType == Some(Credit) ==> o.installments == Some(ParseInt(f.installments))
    ensures f.paymentType != Some(Credit) ==> o.installments.None?
    ensures o.customerName == f.customerName && o.cep == f.cep && o.address == f.address
    ensures o.number == f.number && o.city == f.city && o.state == f.state
    ensures o.items == items && o.total == total
  {
    OrderRequest(
      f.customerName, KeepDigits(f.cpf), f.cep, f.address, f.number,
      if f.neighborhood != [] then f.neighborhood else NoNeighborhood,
      f.city, f.state, f.paymentType.value,
      if f.paymentType.value == Credit then Some(ParseInt(f.installments)) else None,
      items, total)
  }

  /** The request built from a form that passed the gate: an 11-digit CPF,
      a neighborhood that is never empty and, for credit, installments that
      are NaN or a whole number above zero. */
  lemma ValidatedOrder(f: CheckoutForm, items: seq<CartLine>, total: real)
    requires Validate(f).None?
    ensures f.paymentType.Some?
    ensures var o := OrderRequestOf(f, items, total);
      && |o.cpf| == 11 && AllDigits(o.cpf)
      && o.neighborhood != []
      && (o.paymentType == Credit <==> o.installments.Some?)
      && (o.installments.Some? ==> o.installments.value.NaN? || o.installments.value.value > 0.0)
  {
    ValidFormHolds(f);
  }

  /** Credit installments written "0x" and hexadecimal digits pass the gate
      and are committed as their base-16 value. */
  lemma HexInstallmentsCommitted(f: CheckoutForm, d: string, items: seq<CartLine>, total: real)
    requires !MissingRequired(f) && |KeepDigits(f.cpf)| == 11 && f.paymentType == Some(Credit)
    requires AllHexDigits(d) && HexValue(d) > 0 && f.installments == "0x" + d
    ensures Validate(f).None?
    ensures OrderRequestOf(f, items, total).installments == Some(Num(HexValue(d) as real))
  {
    assert f.installments == ['0', 'x'] + d + [];
    ParseIntHex('x', d, []);
  }

  /** How `handleFinishOrder` ends: refused by the gate, failed in the
      commit step (caught and reported), or committed. */
  datatype FinishOutcome = Rejected(error: FormError) | CommitFailed | Committed(order: OrderRequest)

  class CheckoutScreen {
    /** The route parameters. */
    const cartItems: seq<CartLine>
    const total: real

    var customerName: string
    var cpf: string
    var cep: string
    var address: string
    var number: string
    var neighborhood: string
    var city: string
    var state: string
    var paymentType: Option<string>
    var installments: string

    function Form(): CheckoutForm
      reads this
    {
      CheckoutForm(customerName, cpf, cep, address, number, neighborhood, city, state, paymentType, installments)
    }

    /** Every field at its initial value. */
    predicate FormCleared()
      reads this
    {
      Form() == CheckoutForm([], [], [], [], [], [], [], [], None, [])
    }

    constructor (cartItems: seq<CartLine>, total: real)
      ensures this.cartItems == cartItems && this.total == total
      ensures FormCleared()
    {
      this.cartItems, this.total := cartItems, total;
      customerName, cpf, cep, address, number := [], [], [], [], [];
      neighborhood, city, state, paymentType, installments := [], [], [], None, [];
    }

    /** `clearFormFields` */
    method ClearFormFields()
      modifies this
      ensures FormCleared()
    {
      customerName := [];
      cpf := [];
      cep := [];
      address := [];
      number := [];
      neighborhood := [];
      city := [];
      state := [];
      paymentType := None;
      installments := [];
    }

    /** Choosing a payment option: it becomes the payment type, and any
        option but credit clears the installments. */
    method SelectPaymentOption(option: string)
      modifies this
      ensures Form() == old(Form()).(
        paymentType := Some(option),
        installments := if option != Credit then [] else old(installments))
    {
      paymentType := Some(option);
      if option != Credit {
        installments := [];
      }
    }

    /** `handleFinishOrder`. A form the gate refuses changes nothing. A valid
        form goes to the commit step (`getOrCreateUser` then `saveOrder`),
        whose success is `commitSucceeds`; if it throws, the error is caught
        and nothing changes. Only after a commit are the cart cleared and
        the form reset. */
    method HandleFinishOrder(cart: CartProvider, store: KeyValueStore, commitSucceeds: bool)
      returns (outcome: FinishOutcome)
      modifies this, cart, store`cart
      ensures Validate(old(Form())).Some? ==>
        && outcome == Rejected(Validate(old(Form())).value)
        && Form() == old(Form()) && cart.cartItems == old(cart.cartItems) && store.cart == old(store.cart)
      ensures Validate(old(Form())).None? && !commitSucceeds ==>
        && outcome == CommitFailed
        && Form() == old(Form()) && cart.cartItems == old(cart.cartItems) && store.cart == old(store.cart)
      ensures Validate(old(Form())).None? && commitSucceeds ==>
        && outcome == Committed(OrderRequestOf(old(Form()), cartItems, total))
        && FormCleared() && cart.cartItems == [] && store.cart == Present([])
    {
      var error := Validate(Form());
      if error.Some? {
        return Rejected(error.value);
      }
      var order := OrderRequestOf(Form(), cartItems, total);
      if !commitSucceeds {
        return CommitFailed;
      }
      cart.ClearCart(store);
      ClearFormFields();
      outcome := Committed(order);
    }
  }
}
