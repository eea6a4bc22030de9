/** The `{:,.2f}` rendering of an amount. Amounts are whole numbers of paise
    (hundredths of a rupee): every catalog price is a whole number of rupees,
    so the two decimals are exact. */
module Money {
  import opened Text

  /** Deletes every comma. */
  function StripCommas(s: string): (r: string)
    ensures CommaFree(r)
  {
    if s == [] then [] else (if s[0] == ',' then [] else [s[0]]) + StripCommas(s[1..])
  }

  lemma {:induction false} StripCommasAppend(a: string, b: string)
    ensures StripCommas(a + b) == StripCommas(a) + StripCommas(b)
    decreases |a|
  {
    if a == [] {
      assert a + b == b;
    } else {
      var head := if a[0] == ',' then [] else [a[0]];
      calc {
        StripCommas(a + b);
        { assert (a + b)[0] == a[0] && (a + b)[1..] == a[1..] + b; }
        head + StripCommas(a[1..] + b);
        { StripCommasAppend(a[1..], b); }
        head + (StripCommas(a[1..]) + StripCommas(b));
        (head + StripCommas(a[1..])) + StripCommas(b);
      }
    }
  }

  lemma {:induction false} StripCommasOfCommaFree(s: string)
    requires CommaFree(s)
    ensures StripCommas(s) == s
    decreases |s|
  {
    if s != [] {
      StripCommasOfCommaFree(s[1..]);
    }
  }

  /** Digits and commas only, and counting positions from the end, exactly
      every fourth character is a comma. */
  predicate Grouped(g: string)
  {
    forall i :: 0 <= i < |g| ==> (IsDigit(g[i]) || g[i] == ',') && (g[i] == ',' <==> (|g| - i) % 4 == 0)
  }

  lemma GroupedStep(high: string, low: string)
    requires Grouped(high) && |low| == 3 && AllDigits(low)
    ensures Grouped(high + "," + low)
  {
    var g := high + "," + low;
    assert forall i :: 0 <= i < |high| ==> g[i] == high[i];
    assert forall i :: |high| < i < |g| ==> g[i] == low[i - |high| - 1];
  }

  /** Python's `,` grouping of an integer numeral: a comma before every group
      of three digits counted from the right except the leftmost, so that the
      first character is a digit and taking the commas out gives the digits
      back. */
  function GroupThousands(digits: string): (g: string)
    requires AllDigits(digits)
    ensures Grouped(g)
    ensures StripCommas(g) == digits
    ensures digits != [] ==> IsDigit(g[0])
    decreases |digits|
  {
    if |digits| <= 3 then
      ShortGrouped(digits);
      digits
    else
      var high, low := digits[..|digits| - 3], digits[|digits| - 3..];
      var gh := GroupThousands(high);
      GroupedStep(gh, low);
      StripCommasStep(gh, high, low);
      assert high + low == digits;
      assert (gh + "," + low)[0] == gh[0];
      gh + "," + low
  }

  /** Up to three digits need no comma. */
  lemma ShortGrouped(digits: string)
    requires AllDigits(digits) && |digits| <= 3
    ensures Grouped(digits) && StripCommas(digits) == digits
  {
    CommaFreeDigits(digits);
    StripCommasOfCommaFree(digits);
    forall i | 0 <= i < |digits|
      ensures digits[i] != ',' && (|digits| - i) % 4 != 0
    {
      var d := |digits| - i;
      assert d == 1 || d == 2 || d == 3;
      assert IsDigit(digits[i]);
    }
  }

  lemma StripCommasStep(gh: string, high: string, low: string)
    requires StripCommas(gh) == high && AllDigits(low)
    ensures StripCommas(gh + "," + low) == high + low
  {
    calc {
      StripCommas(gh + "," + low);
      { StripCommasAppend(gh + ",", low); }
      StripCommas(gh + ",") + StripCommas(low);
      { StripCommasAppend(gh, ","); CommaFreeDigits(low); StripCommasOfCommaFree(low); }
      StripCommas(gh) + StripCommas(",") + low;
      { assert StripCommas(",") == []; }
      high + low;
    }
  }

  /** `f"{amount:,.2f}"` for an amount of `paise` hundredths: the grouped rupee
      numeral, a point, and the paise as two digits. */
  function FormatMoney(paise: nat): (s: string)
    ensures |s| >= 4 && s[|s| - 3] == '.'
  {
    GroupThousands(Decimal(paise / 100)) + "." + PadDigits(paise % 100, 2)
  }

  /** A printed amount is made of digits, commas and the decimal point only. */
  lemma FormatMoneyCharacters(paise: nat)
    ensures forall i :: 0 <= i < |FormatMoney(paise)| ==>
      IsDigit(FormatMoney(paise)[i]) || FormatMoney(paise)[i] == ',' || FormatMoney(paise)[i] == '.'
  {
    var g, c := GroupThousands(Decimal(paise / 100)), PadDigits(paise % 100, 2);
    var s := FormatMoney(paise);
    assert forall i :: 0 <= i < |g| ==> s[i] == g[i];
    assert forall i :: |g| < i < |s| ==> s[i] == c[i - |g| - 1];
  }

  /** Reads an amount written as FormatMoney writes it: commas are ignored,
      then at least one digit, a point, and exactly two digits. */
  function ParseMoney(s: string): Option<nat>
  {
    var c := StripCommas(s);
    if |c| >= 4 && c[|c| - 3] == '.' && AllDigits(c[..|c| - 3]) && AllDigits(c[|c| - 2..])
    then Some(DigitsValue(c[..|c| - 3]) * 100 + DigitsValue(c[|c| - 2..]))
    else None
  }

  /** The printed amount reads back as the amount that was printed. */
  lemma MoneyRoundTrip(paise: nat)
    ensures ParseMoney(FormatMoney(paise)) == Some(paise)
  {
    var rupees, cents := Decimal(paise / 100), PadDigits(paise % 100, 2);
    var g := GroupThousands(rupees);
    assert FormatMoney(paise) == g + "." + cents;
    CommaFreeDigits(cents);
    StripPointed(g, cents);
    ReadPointed(FormatMoney(paise), rupees, cents);
    assert DigitsValue(rupees) * 100 + DigitsValue(cents) == paise;
  }

  /** Removing the commas of `g.cents` when `cents` has none. */
  lemma StripPointed(g: string, cents: string)
    requires CommaFree(cents)
    ensures StripCommas(g + "." + cents) == StripCommas(g) + "." + cents
  {
    calc {
      StripCommas(g + "." + cents);
      { StripCommasAppend(g + ".", cents); }
      StripCommas(g + ".") + StripCommas(cents);
      { StripCommasAppend(g, "."); StripCommasOfCommaFree(cents); }
      StripCommas(g) + StripCommas(".") + cents;
      { assert StripCommas(".") == "."; }
      StripCommas(g) + "." + cents;
    }
  }

  /** Reading an amount whose commas stripped are `rupees.cents`. */
  lemma ReadPointed(s: string, rupees: string, cents: string)
    requires IsDigitString(rupees) && |cents| == 2 && AllDigits(cents)
    requires StripCommas(s) == rupees + "." + cents
    ensures ParseMoney(s) == Some(DigitsValue(rupees) * 100 + DigitsValue(cents))
  {
    var c := StripCommas(s);
    assert "." == ['.'];
    Pointed(rupees, '.', cents);
    assert |c| == |rupees| + 3;
  }

  /** Where the parts of `a` + `[p]` + `b` lie. */
  lemma Pointed<T>(a: seq<T>, p: T, b: seq<T>)
    ensures var s := a + [p] + b;
      s[..|a|] == a && s[|a|] == p && s[|a| + 1..] == b
  {
  }

  lemma CommaFreeDigits(s: string)
    requires AllDigits(s)
    ensures CommaFree(s)
  {
  }

  /** Distinct amounts are printed differently. */
  lemma FormatMoneyInjective(a: nat, b: nat)
    requires FormatMoney(a) == FormatMoney(b)
    ensures a == b
  {
    MoneyRoundTrip(a);
    MoneyRoundTrip(b);
  }

  /** 550 rupees is printed without a comma. */
  lemma FormatMoneyHundreds()
    ensures FormatMoney(55000) == "550.00"
  {
    DecimalSteps();
    GroupingSteps();
    PaddingSteps();
    assert 55000 / 100 == 550 && 55000 % 100 == 0;
    FormatMoneyOf(55000, "550", "00");
  }

  /** 1,234.50 rupees is printed with one comma. */
  lemma FormatMoneyThousands()
    ensures FormatMoney(123450) == "1,234.50"
  {
    DecimalSteps();
    GroupingSteps();
    PaddingSteps();
    assert 123450 / 100 == 1234 && 123450 % 100 == 50;
    FormatMoneyOf(123450, "1,234", "50");
  }

  lemma FormatMoneyOf(paise: nat, grouped: string, cents: string)
    requires GroupThousands(Decimal(paise / 100)) == grouped && PadDigits(paise % 100, 2) == cents
    ensures FormatMoney(paise) == grouped + "." + cents
  {
  }

  // Evaluation steps for the two examples above, kept apart so that each is cheap.
  lemma DecimalSteps()
    ensures Decimal(550) == "550" && Decimal(1234) == "1234"
  {
    assert Decimal(5) == "5" && Decimal(55) == "55";
    assert Decimal(1) == "1" && Decimal(12) == "12" && Decimal(123) == "123";
  }

  lemma GroupingSteps()
    ensures GroupThousands("550") == "550" && GroupThousands("1234") == "1,234"
  {
    assert GroupThousands("1") == "1";
  }

  lemma PaddingSteps()
    ensures PadDigits(0, 2) == "00" && PadDigits(50, 2) == "50"
  {
  }
}
