/** Amounts in text: grouped digits as the two services print them, and prices as the search reads them back. */
module DigitGrouping {
  import opened Outcomes
  import opened Decimal
  import opened Text

  // ---------------------------------------------------------------- doubles

  /** The largest integer up to which every integer is a double. */
  const TWO_53 := 9_007_199_254_740_992

  predicate Integral(x: real) {
    x == x.Floor as real
  }

  /** What the services need to know about rounding to a double, where None is an infinity: small integers are doubles,
      integers round to integers, and doubles stay what they are. */
  ghost predicate Doubles(dbl: real -> Option<real>) {
    (forall x: real :: Integral(x) && -TWO_53 as real <= x <= TWO_53 as real ==> dbl(x) == Some(x)) &&
    (forall x: real :: Integral(x) && dbl(x).Some? ==> Integral(dbl(x).value)) &&
    (forall x: real :: dbl(x).Some? ==> dbl(dbl(x).value) == dbl(x))
  }

  // ---------------------------------------------------------------- printing

  /** Digits in groups of three, counted from the right. */
  function Grouped(digits: string): string {
    if |digits| <= 3 then digits
    else Grouped(digits[..|digits| - 3]) + "," + digits[|digits| - 3..]
  }

  function Signed(negative: bool, s: string): string {
    if negative then "-" + s else s
  }

  function Magnitude(value: int): nat {
    if value < 0 then -value else value
  }

  lemma {:induction false} RegroupTail(head: string, last: string, groups: seq<string>)
    ensures var whole := head + "," + last;
      (if groups == [] then whole else whole + "," + Join(",", groups)) == head + "," + Join(",", [last] + groups)
  {
    JoinMore(",", last, groups);
    if groups != [] {
      var tail := Join(",", groups);
      assert head + "," + last + "," + tail == head + "," + (last + "," + tail);
    }
  }

  /** The loop of the ingestion service: it cuts three digits at a time off the right end. */
  method GroupDigits(value: int) returns (formatted: string)
    ensures formatted == Signed(value < 0, Grouped(Numeral(Magnitude(value))))
  {
    var digits := Numeral(Magnitude(value));
    var groups: seq<string> := [];
    ghost var all := digits;
    while |digits| > 3
      invariant Grouped(all) == if groups == [] then Grouped(digits) else Grouped(digits) + "," + Join(",", groups)
    {
      var last := digits[|digits| - 3..];
      RegroupTail(Grouped(digits[..|digits| - 3]), last, groups);
      groups := [last] + groups;
      digits := digits[..|digits| - 3];
    }
    JoinMore(",", digits, groups);
    groups := [digits] + groups;
    formatted := Signed(value < 0, Join(",", groups));
  }

  function Reverse(s: string): (r: string)
    ensures |r| == |s|
  {
    if s == "" then "" else Reverse(s[1..]) + [s[0]]
  }

  /** scan with one to three digits, greedily from the left. */
  function Scan(s: string): seq<string> {
    if s == "" then [] else if |s| <= 3 then [s] else [s[..3]] + Scan(s[3..])
  }

  /** The expression of the report service: reversed, cut into threes from the left, joined, reversed. */
  function Thousands(number: int): string {
    Signed(number < 0, Reverse(Join(",", Scan(Reverse(Numeral(Magnitude(number)))))))
  }

  lemma {:induction false} ReverseAppend(a: string, b: string)
    ensures Reverse(a + b) == Reverse(b) + Reverse(a)
  {
    if a == "" {
      assert a + b == b;
      assert Reverse(b) + "" == Reverse(b);
    } else {
      var s := a + b;
      assert s[0] == a[0] && s[1..] == a[1..] + b;
      ReverseAppend(a[1..], b);
      assert Reverse(b) + Reverse(a[1..]) + [a[0]] == Reverse(b) + (Reverse(a[1..]) + [a[0]]);
    }
  }

  lemma {:induction false} ReverseTwice(s: string)
    ensures Reverse(Reverse(s)) == s
  {
    if s != "" {
      ReverseTwice(s[1..]);
      ReverseAppend(Reverse(s[1..]), [s[0]]);
      assert Reverse([s[0]]) == [s[0]];
      assert [s[0]] + s[1..] == s;
    }
  }

  /** Reversed, what stands in front comes last. */
  lemma {:induction false} ReverseOfGroups(group: string, tail: string)
    ensures Reverse(Reverse(group) + "," + tail) == Reverse(tail) + "," + group
  {
    ReverseAppend(Reverse(group) + ",", tail);
    ReverseAppend(Reverse(group), ",");
    ReverseTwice(group);
    assert Reverse(",") == ",";
    assert Reverse(tail) + ("," + group) == Reverse(tail) + "," + group;
  }

  lemma {:induction false} ScanTakesLast(head: string, last: string)
    requires head != "" && |last| == 3
    ensures Scan(Reverse(head + last)) == [Reverse(last)] + Scan(Reverse(head)) && Scan(Reverse(head)) != []
  {
    ReverseAppend(head, last);
    var s := Reverse(head + last);
    assert s[..3] == Reverse(last) && s[3..] == Reverse(head);
  }

  lemma {:induction false} ScanOfLonger(head: string, last: string)
    requires head != "" && |last| == 3
    ensures Reverse(Join(",", Scan(Reverse(head + last)))) == Reverse(Join(",", Scan(Reverse(head)))) + "," + last
  {
    ScanTakesLast(head, last);
    var groups := Scan(Reverse(head));
    JoinMore(",", Reverse(last), groups);
    ReverseOfGroups(last, Join(",", groups));
  }

  lemma {:induction false} ScanGroups(digits: string)
    requires digits != ""
    ensures Reverse(Join(",", Scan(Reverse(digits)))) == Grouped(digits)
  {
    if |digits| <= 3 {
      assert Scan(Reverse(digits)) == [Reverse(digits)];
      ReverseTwice(digits);
    } else {
      var head, last := digits[..|digits| - 3], digits[|digits| - 3..];
      assert digits == head + last;
      ScanGroups(head);
      ScanOfLonger(head, last);
    }
  }

  /** What a caller hands to the report service: an integer, or a decimal of arbitrary precision. */
  datatype Value = Whole(n: int) | BigDecimal(x: real)

  /** What stands before the point. */
  function CutOff(x: real): (n: int)
    ensures if x >= 0.0 then n as real <= x < n as real + 1.0 else n as real - 1.0 < x <= n as real
  {
    if x >= 0.0 then x.Floor else -((-x).Floor)
  }

  /** A decimal is cut off at its point; an integer takes the way over a double. None where that is infinite, which
      cannot be rounded. */
  function ThousandsOf(dbl: real -> Option<real>, value: Value): Option<string> {
    match value
    case BigDecimal(x) => Some(Thousands(CutOff(x)))
    case Whole(n) =>
      match dbl(n as real)
      case None => None
      case Some(y) => Some(Thousands(if y >= 0.0 then (y + 0.5).Floor else -((-y + 0.5).Floor)))
  }

  /** The ingestion service's print of an integer. */
  function Printed(n: int): string {
    Signed(n < 0, Grouped(Numeral(Magnitude(n))))
  }

  lemma {:induction false} ThousandsPrinted(n: int)
    ensures Thousands(n) == Printed(n)
  {
    ScanGroups(Numeral(Magnitude(n)));
  }

  lemma {:induction false} GroupedStartsWithDigit(digits: string)
    requires AllDigits(digits) && digits != ""
    ensures Grouped(digits) != "" && IsDigit(Grouped(digits)[0])
  {
    if |digits| > 3 {
      GroupedStartsWithDigit(digits[..|digits| - 3]);
    }
  }

  function WithoutCommas(s: string): string {
    if s == "" then ""
    else WithoutCommas(s[..|s| - 1]) + if s[|s| - 1] == ',' then "" else [s[|s| - 1]]
  }

  /** The part behind the last comma. */
  function AfterLastComma(s: string): (r: string)
    ensures |r| <= |s|
  {
    if s == "" || s[|s| - 1] == ',' then "" else AfterLastComma(s[..|s| - 1]) + [s[|s| - 1]]
  }

  lemma {:induction false} NoCommasInDigits(s: string)
    requires AllDigits(s)
    ensures Count(IsComma, s) == 0 && WithoutCommas(s) == s && AfterLastComma(s) == s
  {
    if s != "" {
      NoCommasInDigits(s[..|s| - 1]);
      assert IsDigit(s[|s| - 1]);
      assert s == s[..|s| - 1] + [s[|s| - 1]];
    }
  }

  lemma {:induction false} OneMore(s: string, c: char)
    ensures AfterLastComma(s + [c]) == if c == ',' then "" else AfterLastComma(s) + [c]
    ensures WithoutCommas(s + [c]) == WithoutCommas(s) + if c == ',' then "" else [c]
  {
    assert (s + [c])[..|s|] == s;
  }

  lemma {:induction false} Reassociate(a: string, b: string, c: string)
    ensures a + b + c == a + (b + c)
  {
  }

  lemma {:induction false} BehindComma(head: string, digits: string)
    requires AllDigits(digits)
    ensures AfterLastComma(head + "," + digits) == digits
    ensures WithoutCommas(head + "," + digits) == WithoutCommas(head) + digits
  {
    if digits == "" {
      OneMore(head, ',');
      assert head + "," + "" == head + [','];
    } else {
      var init, last := digits[..|digits| - 1], digits[|digits| - 1];
      assert IsDigit(last);
      BehindComma(head, init);
      OneMore(head + "," + init, last);
      assert init + [last] == digits;
      Reassociate(head + ",", init, [last]);
      Reassociate(WithoutCommas(head), init, [last]);
    }
  }

  lemma {:induction false} GroupedIsClean(digits: string)
    requires AllDigits(digits)
    ensures WithoutCommas(Grouped(digits)) == digits
  {
    if |digits| <= 3 {
      NoCommasInDigits(digits);
    } else {
      var head, last := digits[..|digits| - 3], digits[|digits| - 3..];
      GroupedIsClean(head);
      BehindComma(Grouped(head), last);
      assert head + last == digits;
    }
  }

  lemma {:induction false} GroupedApart(a: nat, b: nat)
    requires Grouped(Numeral(a)) == Grouped(Numeral(b))
    ensures a == b
  {
    GroupedIsClean(Numeral(a));
    GroupedIsClean(Numeral(b));
    ValueOfNumeral(a);
    ValueOfNumeral(b);
  }

  lemma {:induction false} SignedApart(a: string, b: string, negative: bool, negative': bool)
    requires a != "" && b != "" && IsDigit(a[0]) && IsDigit(b[0]) && Signed(negative, a) == Signed(negative', b)
    ensures negative == negative' && a == b
  {
    assert Signed(negative, a)[0] == if negative then '-' else a[0];
    assert Signed(negative', b)[0] == if negative' then '-' else b[0];
    if negative {
      assert ("-" + a)[1..] == a && ("-" + b)[1..] == b;
    }
  }

  /** Different integers print differently. */
  lemma {:induction false} PrintedApart(a: int, b: int)
    requires Printed(a) == Printed(b)
    ensures a == b
  {
    GroupedStartsWithDigit(Numeral(Magnitude(a)));
    GroupedStartsWithDigit(Numeral(Magnitude(b)));
    SignedApart(Grouped(Numeral(Magnitude(a))), Grouped(Numeral(Magnitude(b))), a < 0, b < 0);
    GroupedApart(Magnitude(a), Magnitude(b));
  }

  lemma {:induction false} WholeOverDouble(dbl: real -> Option<real>, n: int, m: int)
    requires dbl(n as real) == Some(m as real)
    ensures ThousandsOf(dbl, Whole(n)) == Some(Thousands(m))
  {
  }

  lemma {:induction false} WholeDecimal(dbl: real -> Option<real>, n: int)
    ensures ThousandsOf(dbl, BigDecimal(n as real)) == Some(Thousands(n))
  {
  }

  lemma {:induction false} CutOffIs(x: real, n: int)
    requires if x >= 0.0 then n as real <= x < n as real + 1.0 else n as real - 1.0 < x <= n as real
    ensures CutOff(x) == n
  {
  }

  /** A decimal is cut off at its point, whatever its sign. */
  lemma {:induction false} DecimalsAreCut(dbl: real -> Option<real>, x: real, n: int)
    requires if x >= 0.0 then n as real <= x < n as real + 1.0 else n as real - 1.0 < x <= n as real
    ensures ThousandsOf(dbl, BigDecimal(x)) == Some(Printed(n))
  {
    CutOffIs(x, n);
    ThousandsPrinted(n);
  }

  /** Both services print every integer alike, although one works from the right and the other reverses and works from
      the left - exactly if the integer is a double, or reaches the report service as a decimal. */
  lemma {:induction false} ServicesPrintAlike(dbl: real -> Option<real>, value: int)
    requires Doubles(dbl)
    ensures ThousandsOf(dbl, BigDecimal(value as real)) == Some(Printed(value))
    ensures ThousandsOf(dbl, Whole(value)) == Some(Printed(value)) <==> dbl(value as real) == Some(value as real)
  {
    WholeDecimal(dbl, value);
    ThousandsPrinted(value);
    match dbl(value as real)
    case None =>
    case Some(y) =>
      var m := y.Floor;
      assert y == m as real;
      WholeOverDouble(dbl, value, m);
      ThousandsPrinted(m);
      if Printed(m) == Printed(value) {
        PrintedApart(m, value);
      }
  }

  // ---------------------------------------------------------------- reading

  const MIN_BARE_PRICE := 100_000

  predicate IsComma(c: char) {
    c == ','
  }

  function CommasToPoints(s: string): (r: string)
    ensures |r| == |s|
  {
    seq(|s|, i requires 0 <= i < |s| => if s[i] == ',' then '.' else s[i])
  }

  lemma {:induction false} PowerOfTenPositive(k: nat)
    ensures PowerOfTen(k) > 0
  {
    if k > 0 { PowerOfTenPositive(k - 1); }
  }

  /** float() on digits with at most one point among them; None where it raises. */
  function ParseFloat(s: string): Option<real> {
    var parts := SplitOn(s, '.');
    if !(forall i :: 0 <= i < |parts| ==> AllDigits(parts[i])) then None
    else if |parts| == 1 && parts[0] != "" then Some(ValueOf(parts[0]) as real)
    else if |parts| == 2 && (parts[0] != "" || parts[1] != "") then
      PowerOfTenPositive(|parts[1]|);
      Some(ValueOf(parts[0]) as real + ValueOf(parts[1]) as real / PowerOfTen(|parts[1]|) as real)
    else None
  }

  /** round(): the nearest integer, halves to the even one. */
  function RoundEven(x: real): (n: int)
    ensures -0.5 <= x - n as real <= 0.5
    ensures x - n as real in {-0.5, 0.5} ==> n % 2 == 0
  {
    var f := x.Floor;
    var gap := x - f as real;
    if gap < 0.5 || (gap == 0.5 && f % 2 == 0) then f else f + 1
  }

  function Multiplier(key: string): (m: int)
    ensures m in {1, 1_000, 1_000_000, 1_000_000_000}
    ensures (key == "thousand" ==> m == 1_000) && (key == "million" ==> m == 1_000_000)
    ensures (key == "billion" ==> m == 1_000_000_000) && (key == "" ==> m == 1)
  {
    if key in {"k", "thousand", "thousands", "ألف", "الف", "آلاف", "الاف"} then 1_000
    else if key in {"m", "mn", "mio", "million", "millions", "مليون", "ملايين"} then 1_000_000
    else if key in {"bn", "billion", "مليار"} then 1_000_000_000
    else 1
  }

  /** The comma of a number is a decimal mark if it is the only one and not followed by three characters. */
  function Cleaned(raw: string): string {
    if Count(IsComma, raw) == 1 && |AfterLastComma(raw)| != 3 then CommasToPoints(raw) else WithoutCommas(raw)
  }

  /** An amount in text as the search reads it: a number, nothing to speak of, or an exception, where a number or its
      product with the unit is beyond every double. */
  datatype Parsed = Amount(value: int) | NoAmount | Overflow

  function Product(x: real, multiplier: int): real {
    x * multiplier as real
  }

  /** The number as a double, times the unit as a double; None is an infinity. */
  function Times(dbl: real -> Option<real>, value: real, multiplier: int): Option<real> {
    match dbl(value)
    case None => None
    case Some(v) => dbl(Product(v, multiplier))
  }

  function Accept(dbl: real -> Option<real>, value: real, multiplier: int, isArea: bool): Parsed {
    if isArea then NoAmount
    else
      match Times(dbl, value, multiplier)
      case None => Overflow
      case Some(product) =>
        var amount := RoundEven(product);
        if multiplier == 1 && amount < MIN_BARE_PRICE then NoAmount else if amount > 0 then Amount(amount) else NoAmount
  }

  predicate MeansArea(key: string) {
    key in {"", "m", "mn", "mio"}
  }

  /** key is the unit in lower case without white space; areaFollows says that the text goes on with a unit of area,
      which counts only behind a bare number or a short word for million. */
  function ToAmount(dbl: real -> Option<real>, raw: string, key: string, areaFollows: bool): Parsed {
    match ParseFloat(Cleaned(raw))
    case None => NoAmount
    case Some(value) => Accept(dbl, value, Multiplier(key), areaFollows && MeansArea(key))
  }

  // ---------------------------------------------------------------- the round trip

  lemma {:induction false} LastGroup(digits: string)
    requires AllDigits(digits)
    ensures |digits| > 3 ==> |AfterLastComma(Grouped(digits))| == 3
    ensures |digits| <= 3 ==> Count(IsComma, Grouped(digits)) == 0
  {
    if |digits| <= 3 {
      NoCommasInDigits(digits);
    } else {
      BehindComma(Grouped(digits[..|digits| - 3]), digits[|digits| - 3..]);
    }
  }

  lemma {:induction false} NoPointsInDigits(s: string)
    requires AllDigits(s)
    ensures SplitOn(s, '.') == [s]
  {
    if s != "" {
      NoPointsInDigits(s[1..]);
      assert IsDigit(s[0]);
      assert [s[0]] + s[1..] == s;
    }
  }

  // ---------------------------------------------------------------- one comma

  lemma {:induction false} CountOneMore(s: string, c: char)
    ensures Count(IsComma, s + [c]) == Count(IsComma, s) + if c == ',' then 1 else 0
  {
    assert (s + [c])[..|s|] == s;
  }

  lemma {:induction false} OneCommaCounted(whole: string, fraction: string)
    requires AllDigits(whole) && AllDigits(fraction)
    ensures Count(IsComma, whole + "," + fraction) == 1
  {
    if fraction == "" {
      NoCommasInDigits(whole);
      CountOneMore(whole, ',');
      assert whole + "," + "" == whole + [','];
    } else {
      var init, last := fraction[..|fraction| - 1], fraction[|fraction| - 1];
      assert IsDigit(last);
      OneCommaCounted(whole, init);
      CountOneMore(whole + "," + init, last);
      assert init + [last] == fraction;
      Reassociate(whole + ",", init, [last]);
    }
  }

  lemma {:induction false} PointedAt(whole: string, fraction: string)
    requires AllDigits(whole) && AllDigits(fraction)
    ensures CommasToPoints(whole + "," + fraction) == whole + "." + fraction
  {
    var raw, pointed := whole + "," + fraction, whole + "." + fraction;
    forall i | 0 <= i < |raw| ensures CommasToPoints(raw)[i] == pointed[i] {
      if i < |whole| {
        assert IsDigit(whole[i]);
      } else if i > |whole| {
        assert IsDigit(fraction[i - |whole| - 1]);
      }
    }
  }

  lemma {:induction false} SplitAtPoint(whole: string, fraction: string)
    requires AllDigits(whole) && AllDigits(fraction)
    ensures SplitOn(whole + "." + fraction, '.') == [whole, fraction]
  {
    var s := whole + "." + fraction;
    if whole == "" {
      assert s[1..] == fraction;
      NoPointsInDigits(fraction);
    } else {
      assert IsDigit(whole[0]);
      assert s[0] == whole[0] && s[1..] == whole[1..] + "." + fraction;
      SplitAtPoint(whole[1..], fraction);
      assert [whole[0]] + whole[1..] == whole;
    }
  }

  lemma {:induction false} ProductOfIntegers(a: int, b: int)
    ensures a as real * b as real == (a * b) as real
  {
  }

  lemma {:induction false} ReadsDigits(digits: string)
    requires AllDigits(digits) && digits != ""
    ensures ParseFloat(digits) == Some(ValueOf(digits) as real)
  {
    NoPointsInDigits(digits);
    var parts := [digits];
    assert parts[0] == digits && |parts| == 1;
  }

  lemma {:induction false} ValueOneMore(s: string, c: char)
    requires AllDigits(s) && IsDigit(c)
    ensures AllDigits(s + [c]) && ValueOf(s + [c]) == 10 * ValueOf(s) + DigitValue(c)
  {
    assert (s + [c])[..|s|] == s;
  }

  lemma {:induction false} ScaledValue(a: nat, p: nat, v: nat, b: nat, d: nat)
    requires v == a * p + b
    ensures 10 * v + d == a * (10 * p) + (10 * b + d)
  {
    assert a * (10 * p) == 10 * (a * p);
  }

  lemma {:induction false} ValueOfAppend(a: string, b: string)
    requires AllDigits(a) && AllDigits(b)
    ensures AllDigits(a + b) && ValueOf(a + b) == ValueOf(a) * PowerOfTen(|b|) + ValueOf(b)
  {
    if b == "" {
      assert a + b == a;
    } else {
      var init, last := b[..|b| - 1], b[|b| - 1];
      ValueOfAppend(a, init);
      ValueOneMore(a + init, last);
      ValueOneMore(init, last);
      ScaledValue(ValueOf(a), PowerOfTen(|init|), ValueOf(a + init), ValueOf(init), DigitValue(last));
      assert init + [last] == b;
      Reassociate(a, init, [last]);
    }
  }

  /** v is so many, divided by the scale. */
  predicate Divided(v: real, scale: nat, n: nat) {
    v * scale as real == n as real
  }

  lemma {:induction false} FractionValue(a: nat, b: nat, scale: nat, v: real, n: nat)
    requires scale > 0 && v == a as real + b as real / scale as real && n == a * scale + b
    ensures Divided(v, scale, n)
  {
    var share := b as real / scale as real;
    assert share * scale as real == b as real;
    assert v * scale as real == a as real * scale as real + share * scale as real;
    ProductOfIntegers(a, scale);
  }

  lemma {:induction false} ParsesParts(s: string, whole: string, fraction: string) returns (v: real)
    requires AllDigits(whole) && AllDigits(fraction) && whole != "" && SplitOn(s, '.') == [whole, fraction]
    ensures PowerOfTen(|fraction|) > 0 && ParseFloat(s) == Some(v)
    ensures v == ValueOf(whole) as real + ValueOf(fraction) as real / PowerOfTen(|fraction|) as real
  {
    var parts := [whole, fraction];
    assert AllDigits(parts[0]) && AllDigits(parts[1]);
    PowerOfTenPositive(|fraction|);
    v := ValueOf(whole) as real + ValueOf(fraction) as real / PowerOfTen(|fraction|) as real;
  }

  lemma {:induction false} ReadsFraction(whole: string, fraction: string) returns (v: real)
    requires AllDigits(whole) && AllDigits(fraction) && whole != ""
    ensures ParseFloat(whole + "." + fraction) == Some(v)
    ensures AllDigits(whole + fraction) && Divided(v, PowerOfTen(|fraction|), ValueOf(whole + fraction))
  {
    SplitAtPoint(whole, fraction);
    v := ParsesParts(whole + "." + fraction, whole, fraction);
    ValueOfAppend(whole, fraction);
    FractionValue(ValueOf(whole), ValueOf(fraction), PowerOfTen(|fraction|), v, ValueOf(whole + fraction));
  }

  lemma {:induction false} CleansOneComma(whole: string, fraction: string)
    requires AllDigits(whole) && AllDigits(fraction)
    ensures Cleaned(whole + "," + fraction) == if |fraction| == 3 then whole + fraction else whole + "." + fraction
  {
    OneCommaCounted(whole, fraction);
    BehindComma(whole, fraction);
    NoCommasInDigits(whole);
    PointedAt(whole, fraction);
  }

  /** A single comma separates thousands exactly if three digits follow it; otherwise it is a decimal mark, and the
      number is what its digits say, divided by ten for each digit behind it. */
  lemma {:induction false} OneComma(whole: string, fraction: string) returns (v: real)
    requires AllDigits(whole) && AllDigits(fraction) && whole != ""
    ensures ParseFloat(Cleaned(whole + "," + fraction)) == Some(v) && AllDigits(whole + fraction)
    ensures Divided(v, if |fraction| == 3 then 1 else PowerOfTen(|fraction|), ValueOf(whole + fraction))
  {
    CleansOneComma(whole, fraction);
    ValueOfAppend(whole, fraction);
    if |fraction| == 3 {
      ReadsDigits(whole + fraction);
      v := ValueOf(whole + fraction) as real;
    } else {
      v := ReadsFraction(whole, fraction);
    }
  }

  lemma {:induction false} RoundsToItself(n: int)
    ensures RoundEven(n as real) == n
  {
  }

  lemma {:induction false} KeepsIntegers(dbl: real -> Option<real>, x: real)
    requires Doubles(dbl) && Integral(x) && dbl(x).Some?
    ensures Integral(dbl(x).value)
  {
  }

  lemma {:induction false} IsDouble(dbl: real -> Option<real>, n: int)
    requires Doubles(dbl) && -TWO_53 <= n <= TWO_53
    ensures dbl(n as real) == Some(n as real)
  {
    assert Integral(n as real);
  }

  lemma {:induction false} IntegralProduct(x: real, multiplier: int)
    requires Integral(x)
    ensures Product(x, multiplier) == (x.Floor * multiplier) as real && Integral(Product(x, multiplier))
  {
    ProductOfIntegers(x.Floor, multiplier);
  }

  /** The product of an integer is an integer. */
  lemma {:induction false} ProductIsIntegral(dbl: real -> Option<real>, x: real, multiplier: int)
    requires Doubles(dbl) && Integral(x) && Times(dbl, x, multiplier).Some?
    ensures Integral(Times(dbl, x, multiplier).value)
  {
    var v := dbl(x).value;
    KeepsIntegers(dbl, x);
    IntegralProduct(v, multiplier);
    KeepsIntegers(dbl, Product(v, multiplier));
  }

  /** What becomes of an integer, given the double of its product. */
  function Verdict(product: Option<real>, multiplier: int, isArea: bool): Parsed {
    if isArea then NoAmount
    else
      match product
      case None => Overflow
      case Some(y) =>
        if y > 0.0 && (multiplier != 1 || y >= MIN_BARE_PRICE as real) then Amount(y.Floor) else NoAmount
  }

  lemma {:induction false} AcceptsInteger(dbl: real -> Option<real>, n: int, multiplier: int, isArea: bool)
    requires Doubles(dbl)
    ensures Accept(dbl, n as real, multiplier, isArea) == Verdict(Times(dbl, n as real, multiplier), multiplier, isArea)
  {
    var product := Times(dbl, n as real, multiplier);
    if product.Some? {
      ProductIsIntegral(dbl, n as real, multiplier);
      assert product.value == product.value.Floor as real;
      RoundsToItself(product.value.Floor);
    }
  }

  lemma {:induction false} SmallProducts(n: nat, multiplier: int)
    requires multiplier >= 1 && n * multiplier <= TWO_53
    ensures n <= TWO_53
  {
    assert n <= n * multiplier;
  }

  lemma {:induction false} TimesExact(dbl: real -> Option<real>, x: real, multiplier: int, product: real)
    requires dbl(x) == Some(x) && Product(x, multiplier) == product && dbl(product) == Some(product)
    ensures Times(dbl, x, multiplier) == Some(product)
  {
  }

  /** Up to 2^53 nothing is rounded. */
  lemma {:induction false} SmallProductIsExact(dbl: real -> Option<real>, n: nat, multiplier: int, product: nat)
    requires Doubles(dbl) && multiplier >= 1 && product == n * multiplier && product <= TWO_53
    ensures Times(dbl, n as real, multiplier) == Some(product as real)
  {
    SmallProducts(n, multiplier);
    IntegralProduct(n as real, multiplier);
    IsDouble(dbl, n);
    IsDouble(dbl, product);
    TimesExact(dbl, n as real, multiplier, product as real);
  }

  lemma {:induction false} CleanedGroups(digits: string)
    requires AllDigits(digits)
    ensures Cleaned(Grouped(digits)) == digits
  {
    GroupedIsClean(digits);
    LastGroup(digits);
  }

  lemma {:induction false} ReadsNumeral(n: nat)
    ensures ParseFloat(Cleaned(Grouped(Numeral(n)))) == Some(n as real)
  {
    CleanedGroups(Numeral(n));
    ReadsDigits(Numeral(n));
    ValueOfNumeral(n);
  }

  lemma {:induction false} ReadsGrouped(dbl: real -> Option<real>, n: nat, key: string, areaFollows: bool)
    requires Doubles(dbl)
    ensures ToAmount(dbl, Grouped(Numeral(n)), key, areaFollows) ==
      Verdict(Times(dbl, n as real, Multiplier(key)), Multiplier(key), areaFollows && MeansArea(key))
  {
    ReadsNumeral(n);
    AcceptsInteger(dbl, n, Multiplier(key), areaFollows && MeansArea(key));
  }

  lemma {:induction false} VerdictIs(product: Option<real>, multiplier: int, isArea: bool, amount: int)
    requires product.Some? ==> Integral(product.value)
    ensures Verdict(product, multiplier, isArea) == Amount(amount) <==>
      !isArea && product == Some(amount as real) && amount > 0 && (multiplier != 1 || amount >= MIN_BARE_PRICE)
  {
  }

  /** The search reads back the number that grouped digits show, times the unit - exactly when the text does not go on
      with a unit of area that fits, the amount is positive and, without a unit, at least the smallest bare price, and
      the doubles in between hit it; up to 2^53 they do. In particular a single group separator is never taken for a
      decimal mark. It raises exactly when the number or the product is beyond every double and no area follows. */
  lemma {:induction false} GroupedRoundTrip(dbl: real -> Option<real>, n: nat, key: string, areaFollows: bool)
    requires Doubles(dbl)
    ensures var m, area := Multiplier(key), areaFollows && MeansArea(key);
      var read, product := ToAmount(dbl, Grouped(Numeral(n)), key, areaFollows), Times(dbl, n as real, m);
      (read == Amount(n * m) <==>
        !area && product == Some((n * m) as real) && n * m > 0 && (m != 1 || n * m >= MIN_BARE_PRICE)) &&
      (n * m <= TWO_53 ==> product == Some((n * m) as real)) &&
      (read == Overflow <==> !area && product == None)
  {
    var m := Multiplier(key);
    ReadsGrouped(dbl, n, key, areaFollows);
    if Times(dbl, n as real, m).Some? {
      ProductIsIntegral(dbl, n as real, m);
    }
    VerdictIs(Times(dbl, n as real, m), m, areaFollows && MeansArea(key), n * m);
    if n * m <= TWO_53 {
      SmallProductIsExact(dbl, n, m, n * m);
    }
  }

  lemma {:induction false} TimesOne(dbl: real -> Option<real>, n: int)
    requires Doubles(dbl)
    ensures Times(dbl, n as real, 1) == dbl(n as real)
  {
    match dbl(n as real)
    case None =>
    case Some(v) => assert Product(v, 1) == v;
  }

  lemma {:induction false} BareRoundTrip(dbl: real -> Option<real>, n: nat, key: string)
    requires Doubles(dbl) && Multiplier(key) == 1
    ensures ToAmount(dbl, Grouped(Numeral(n)), key, false) == Amount(n) <==>
      n >= MIN_BARE_PRICE && dbl(n as real) == Some(n as real)
  {
    GroupedRoundTrip(dbl, n, key, false);
    TimesOne(dbl, n);
    assert n * 1 == n;
  }

  lemma {:induction false} NoUnit()
    ensures Multiplier("") == 1
  {
  }

  /** Without a unit and with nothing behind it, a printed number reads back exactly from 100 000 on, as far as it is a
      double. */
  lemma {:induction false} PriceRoundTrip(dbl: real -> Option<real>, n: nat)
    requires Doubles(dbl)
    ensures ToAmount(dbl, Printed(n), "", false) == Amount(n) <==> n >= 100_000 && dbl(n as real) == Some(n as real)
  {
    NoUnit();
    BareRoundTrip(dbl, n, "");
  }
}
