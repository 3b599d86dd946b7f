/** The page's pure formatters: currency, distance, duration, weekday,
    12-hour clock and date texts, each with the parser or index that takes
    the text back to the value it shows. Currency amounts are integer cents,
    distances and durations integer hundredths. */
module Formatters {
  import opened Text

  /** A response field read where a number is expected: `Absent` is null or
      undefined, `NotANumber` anything `isNaN` accepts. */
  datatype JsNumber = Absent | NotANumber | Number(n: int)

  const NotAvailable: string := "N/A"
  const ZeroDollars: string := "$0.00"
  const Days: seq<string> := ["Monday", "Tuesday", "Wednesday", "Thursday", "Friday", "Saturday", "Sunday"]

  // ---------------------------------------------------------------------
  // Amounts

  /** Thousands separators between groups of three digits. */
  function Grouped(digits: string): string
  {
    if |digits| <= 3 then digits
    else Grouped(digits[..|digits| - 3]) + "," + digits[|digits| - 3..]
  }

  /** Whole units, a point, then exactly two digits of hundredths. */
  function Amount(hundredths: nat, grouped: bool): string
  {
    var whole := NatToString(hundredths / 100);
    (if grouped then Grouped(whole) else whole) + "." + TwoDigits(hundredths % 100)
  }

  /** `formatCurrency`: US dollars with two fraction digits; null, undefined
      and NaN show as "$0.00". */
  function FormatCurrency(v: JsNumber): string
  {
    match v
    case Number(c) => if c < 0 then "-$" + Amount(-c, true) else "$" + Amount(c, true)
    case _ => ZeroDollars
  }

  /** A currency text is a dollar sign, with a minus in front exactly for
      a negative amount, and ends in a point and two digits. */
  lemma CurrencyShape(v: JsNumber)
    ensures var text := FormatCurrency(v);
      && (!v.Number? ==> text == ZeroDollars)
      && |text| >= 5 && text[|text| - 3] == '.' && IsDigit(text[|text| - 2]) && IsDigit(text[|text| - 1])
      && (text[0] == '$' <==> !(v.Number? && v.n < 0))
      && (text[0] != '$' ==> text[..2] == "-$")
  {
  }

  /** `toFixed(2)` of a number of hundredths. */
  function FixedTwo(hundredths: int): (text: string)
    ensures |text| >= 4 && text[|text| - 3] == '.'
    ensures text[0] == '-' <==> hundredths < 0
  {
    if hundredths < 0 then "-" + Amount(-hundredths, false) else Amount(hundredths, false)
  }

  /** The digits of a text, in order, with everything else dropped. */
  function DigitsOnly(s: string): (r: string)
    ensures AllDigits(r)
  {
    if s == [] then []
    else DigitsOnly(s[..|s| - 1]) + (if IsDigit(s[|s| - 1]) then [s[|s| - 1]] else [])
  }

  /** Reads back an amount written by `FormatCurrency` or `FixedTwo`, in hundredths. */
  function ParseAmount(s: string): int
  {
    var magnitude: int := DigitsValue(DigitsOnly(s));
    if |s| > 0 && s[0] == '-' then -magnitude else magnitude
  }

  lemma {:induction false} DigitsOnlyAppend(a: string, b: string)
    ensures DigitsOnly(a + b) == DigitsOnly(a) + DigitsOnly(b)
    decreases |b|
  {
    if b == [] {
      assert a + b == a;
    } else {
      var ab, init, last := a + b, b[..|b| - 1], b[|b| - 1];
      var kept := if IsDigit(last) then [last] else [];
      assert ab[..|ab| - 1] == a + init;
      assert ab[|ab| - 1] == last;
      assert DigitsOnly(ab) == DigitsOnly(a + init) + kept;
      assert DigitsOnly(b) == DigitsOnly(init) + kept;
      DigitsOnlyAppend(a, init);
      assert DigitsOnly(a) + DigitsOnly(init) + kept == DigitsOnly(a) + (DigitsOnly(init) + kept);
    }
  }

  lemma {:induction false} DigitsOnlyOfDigits(s: string)
    requires AllDigits(s)
    ensures DigitsOnly(s) == s
  {
    if s != [] {
      DigitsOnlyOfDigits(s[..|s| - 1]);
      assert s[..|s| - 1] + [s[|s| - 1]] == s;
    }
  }

  /** Thousands separators carry no digits. */
  lemma {:induction false} GroupedKeepsDigits(digits: string)
    requires AllDigits(digits)
    ensures DigitsOnly(Grouped(digits)) == digits
    decreases |digits|
  {
    if |digits| <= 3 {
      DigitsOnlyOfDigits(digits);
    } else {
      var head, tail := digits[..|digits| - 3], digits[|digits| - 3..];
      GroupedKeepsDigits(head);
      DigitsOnlyAppend(Grouped(head) + ",", tail);
      DigitsOnlyAppend(Grouped(head), ",");
      assert DigitsOnly(",") == [] by {
        assert ","[..0] == [];
      }
      DigitsOnlyOfDigits(tail);
      assert head + tail == digits;
    }
  }

  /** A sign carries no digits. */
  lemma SignHasNoDigits(sign: string)
    requires sign == "" || sign == "-" || sign == "$" || sign == "-$"
    ensures DigitsOnly(sign) == []
  {
    if sign != "" {
      var init := sign[..|sign| - 1];
      assert init == "" || init == "-";
      if init == "-" {
        assert init[..0] == [];
      }
    }
  }

  /** The digits of an amount are its whole part followed by its two decimals. */
  lemma AmountKeepsDigits(n: nat, grouped: bool)
    ensures DigitsOnly(Amount(n, grouped)) == NatToString(n / 100) + TwoDigits(n % 100)
  {
    var whole := NatToString(n / 100);
    var shown := if grouped then Grouped(whole) else whole;
    var cents := TwoDigits(n % 100);
    assert Amount(n, grouped) == shown + "." + cents;
    assert DigitsOnly(shown) == whole by {
      if grouped { GroupedKeepsDigits(whole); } else { DigitsOnlyOfDigits(whole); }
    }
    assert DigitsOnly(shown + ".") == whole by {
      DigitsOnlyAppend(shown, ".");
      assert DigitsOnly(".") == [] by {
        assert "."[..0] == [];
      }
    }
    assert DigitsOnly(cents) == cents by {
      DigitsOnlyOfDigits(cents);
    }
    DigitsOnlyAppend(shown + ".", cents);
  }

  /** The digits of a sign and an amount give back the amount. */
  lemma AmountDigits(sign: string, n: nat, grouped: bool)
    requires sign == "" || sign == "-" || sign == "$" || sign == "-$"
    ensures DigitsValue(DigitsOnly(sign + Amount(n, grouped))) == n
  {
    var whole, cents := NatToString(n / 100), TwoDigits(n % 100);
    SignHasNoDigits(sign);
    AmountKeepsDigits(n, grouped);
    DigitsOnlyAppend(sign, Amount(n, grouped));
    assert DigitsOnly(sign + Amount(n, grouped)) == whole + cents;
    DigitsValueAppendTwo(whole, cents);
  }

  /** Reading a signed amount back: a leading minus negates it. */
  lemma ParseSignedAmount(sign: string, n: nat, grouped: bool)
    requires sign == "" || sign == "-" || sign == "$" || sign == "-$"
    ensures ParseAmount(sign + Amount(n, grouped)) == if sign != "" && sign[0] == '-' then -(n as int) else n
  {
    var text := sign + Amount(n, grouped);
    assert DigitsValue(DigitsOnly(text)) == n by {
      AmountDigits(sign, n, grouped);
    }
    assert sign != "" ==> text[0] == sign[0];
    if sign == "" {
      assert text == Amount(n, grouped);
      assert |text| > 0 ==> text[0] != '-' by {
        var whole := NatToString(n / 100);
        var shown := if grouped then Grouped(whole) else whole;
        assert Amount(n, grouped) == shown + "." + TwoDigits(n % 100);
        if shown != [] {
          assert text[0] == shown[0];
          if grouped { GroupedStartsWithDigit(whole); }
        }
      }
    }
  }

  /** Grouping keeps the leading digit in front. */
  lemma {:induction false} GroupedStartsWithDigit(digits: string)
    requires |digits| >= 1 && AllDigits(digits)
    ensures |Grouped(digits)| >= 1 && Grouped(digits)[0] == digits[0]
    decreases |digits|
  {
    if |digits| > 3 {
      var head := digits[..|digits| - 3];
      GroupedStartsWithDigit(head);
    }
  }

  /** Reading a formatted currency text back gives the amount it was made from. */
  lemma CurrencyRoundTrip(cents: int)
    ensures ParseAmount(FormatCurrency(Number(cents))) == cents
  {
    if cents < 0 {
      ParseSignedAmount("-$", -cents, true);
    } else {
      ParseSignedAmount("$", cents, true);
    }
  }

  /** Reading a `toFixed(2)` text back gives the hundredths it was made from. */
  lemma FixedTwoRoundTrip(hundredths: int)
    ensures ParseAmount(FixedTwo(hundredths)) == hundredths
  {
    if hundredths < 0 {
      ParseSignedAmount("-", -hundredths, false);
    } else {
      ParseSignedAmount("", hundredths, false);
      assert "" + Amount(hundredths, false) == Amount(hundredths, false);
    }
  }

  /** The distance slot: two decimals and a unit, or "N/A". */
  function DistanceText(miles: JsNumber): (text: string)
    ensures !miles.Number? <==> text == NotAvailable
    ensures miles.Number? ==> text == FixedTwo(miles.n) + " miles"
  {
    if miles.Number? then FixedTwo(miles.n) + " miles" else NotAvailable
  }

  /** `Math.round` of a number of hundredths: the nearest whole number,
      halves going up. */
  function RoundHalfUp(hundredths: int): (r: int)
    ensures 100 * r - 50 <= hundredths < 100 * r + 50
  {
    (hundredths + 50) / 100
  }

  /** The duration slot: whole minutes and a unit, or "N/A". */
  function DurationText(minutes: JsNumber): (text: string)
    ensures !minutes.Number? <==> text == NotAvailable
    ensures minutes.Number? ==> text == IntToString(RoundHalfUp(minutes.n)) + " mins"
  {
    if minutes.Number? then IntToString(RoundHalfUp(minutes.n)) + " mins" else NotAvailable
  }

  // ---------------------------------------------------------------------
  // Weekday

  /** The weekday slot: 0..6 is Monday..Sunday; anything else is "N/A". */
  function DayName(day: JsNumber): (name: string)
    ensures name == NotAvailable <==> !(day.Number? && 0 <= day.n < 7)
    ensures name != NotAvailable ==> name in Days
  {
    if day.Number? && 0 <= day.n < |Days| then Days[day.n] else NotAvailable
  }

  /** The position of `name` in `names`, if it is there. */
  function IndexOf(names: seq<string>, name: string): (i: Option<nat>)
    ensures i.Some? ==> i.value < |names| && names[i.value] == name
    ensures i.Some? ==> forall j :: 0 <= j < i.value ==> names[j] != name
    ensures i.None? ==> name !in names
  {
    if names == [] then None
    else if names[0] == name then Some(0)
    else
      var rest := IndexOf(names[1..], name);
      assert forall j :: 1 <= j < |names| ==> names[j] == names[1..][j - 1];
      if rest.Some? then Some(rest.value + 1) else None
  }

  /** The weekday names are pairwise different. */
  lemma DaysDistinct()
    ensures forall i, j :: 0 <= i < j < |Days| ==> Days[i] != Days[j]
  {
    assert Days[0][0] == 'M' && Days[1][0] == 'T' && Days[2][0] == 'W' && Days[3][0] == 'T';
    assert Days[4][0] == 'F' && Days[5][0] == 'S' && Days[6][0] == 'S';
    assert Days[1][1] == 'u' && Days[3][1] == 'h' && Days[5][1] == 'a' && Days[6][1] == 'u';
  }

  /** Each weekday index gets its own name: the name's position is the index. */
  lemma DayNameRoundTrip(day: int)
    requires 0 <= day < 7
    ensures IndexOf(Days, DayName(Number(day))) == Some(day)
  {
    DaysDistinct();
  }

  // ---------------------------------------------------------------------
  // Hour of day

  /** The hour slot: 0 is "12 AM", 12 is "12 PM", other hours below 12 are
      "h AM" and the rest "(h - 12) PM"; null, undefined and NaN are "N/A". */
  function HourLabel(hour: JsNumber): (text: string)
    ensures !hour.Number? <==> text == NotAvailable
  {
    match hour
    case Number(h) =>
      if h == 0 then "12 AM"
      else if h == 12 then "12 PM"
      else if h < 12 then IntToString(h) + " AM"
      else IntToString(h - 12) + " PM"
    case _ => NotAvailable
  }

  /** Reads a label "k AM" or "k PM" with k in 1..12 back to its hour 0..23. */
  function ParseHourLabel(text: string): Option<int>
  {
    if |text| < 4 then None
    else
      var digits, suffix := text[..|text| - 3], text[|text| - 3..];
      if !AllDigits(digits) || (suffix != " AM" && suffix != " PM") then None
      else
        var k := DigitsValue(digits);
        if !(1 <= k <= 12) then None
        else if suffix == " AM" then Some(k % 12)
        else Some(k % 12 + 12)
  }

  /** For a clock hour, the label is a number 1..12 and AM exactly before noon. */
  lemma HourLabelShape(h: int)
    requires 0 <= h < 24
    ensures var k := if h % 12 == 0 then 12 else h % 12;
      HourLabel(Number(h)) == NatToString(k) + (if h < 12 then " AM" else " PM")
  {
    if h == 0 {
      assert HourLabel(Number(h)) == "12 AM";
      TwelveText();
    } else if h == 12 {
      assert HourLabel(Number(h)) == "12 PM";
      TwelveText();
    } else if h < 12 {
      assert h % 12 == h;
      assert HourLabel(Number(h)) == IntToString(h) + " AM";
    } else {
      assert h % 12 == h - 12;
      assert HourLabel(Number(h)) == IntToString(h - 12) + " PM";
    }
  }

  lemma TwelveText()
    ensures NatToString(12) == "12"
  {
    assert NatToString(1) == [DigitChar(1)] == "1";
    assert NatToString(12) == NatToString(1) + [DigitChar(2)];
  }

  /** A label made of a number 1..12 and a suffix reads back by the suffix. */
  lemma ParseLabelOf(k: nat, afternoon: bool)
    requires 1 <= k <= 12
    ensures ParseHourLabel(NatToString(k) + (if afternoon then " PM" else " AM"))
      == Some(if afternoon then k % 12 + 12 else k % 12)
  {
    var digits, suffix := NatToString(k), if afternoon then " PM" else " AM";
    var text := digits + suffix;
    assert text[..|text| - 3] == digits;
    assert text[|text| - 3..] == suffix;
  }

  /** Each of the 24 hours gets its own label, and reading it back gives the hour. */
  lemma HourLabelRoundTrip(h: int)
    requires 0 <= h < 24
    ensures ParseHourLabel(HourLabel(Number(h))) == Some(h)
  {
    HourLabelShape(h);
    var k := if h % 12 == 0 then 12 else h % 12;
    ParseLabelOf(k, h >= 12);
  }

  // ---------------------------------------------------------------------
  // Date

  /** The date slot: the date text, or "N/A" when it is absent or empty. */
  function DateText(date: Option<string>): (text: string)
    ensures text == NotAvailable <==> date.None? || date.value == "" || date.value == NotAvailable
    ensures text != NotAvailable ==> date == Some(text)
  {
    if date.None? || date.value == "" then NotAvailable else date.value
  }
}
