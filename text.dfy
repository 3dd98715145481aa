/** String helpers: decimal rendering of integers, `str.join`, ASCII case
  * mapping, `str.replace` of one character and `str.title`. */
module Text {

  function DigitChar(d: nat): char
    requires d < 10
  {
    "0123456789"[d]
  }

  predicate IsDigit(c: char) { '0' <= c <= '9' }

  /** Decimal digits of `n`, most significant first, no leading zeros (`str(n)`). */
  function NatToString(n: nat): (s: string)
    ensures |s| >= 1
    ensures forall i :: 0 <= i < |s| ==> IsDigit(s[i])
  {
    if n < 10 then [DigitChar(n)] else NatToString(n / 10) + [DigitChar(n % 10)]
  }

  /** The integer a string of decimal digits denotes. */
  function DigitsValue(s: string): nat
    requires forall i :: 0 <= i < |s| ==> IsDigit(s[i])
  {
    if |s| == 0 then 0 else
      assert IsDigit(s[|s| - 1]);
      10 * DigitsValue(s[..|s| - 1]) + (s[|s| - 1] as int - '0' as int)
  }

  /** Reading back the rendering of `n` gives `n`. */
  lemma {:induction false} NatToStringRoundTrip(n: nat)
    ensures DigitsValue(NatToString(n)) == n
  {
    if n >= 10 {
      var s := NatToString(n);
      assert s[..|s| - 1] == NatToString(n / 10);
      NatToStringRoundTrip(n / 10);
    }
  }

  /** `str(i)` for an integer: an optional minus sign, then the digits. */
  function IntToString(i: int): (s: string)
    ensures i >= 0 ==> s == NatToString(i)
    ensures i < 0 ==> s == "-" + NatToString(-i)
  {
    if i < 0 then "-" + NatToString(-i) else NatToString(i)
  }

  /** A numeric spreadsheet cell: an integer, or a float given by the
    * shortest decimal Python prints for it, `digits / 10^places`. */
  datatype Numeric = Whole(i: int) | Decimal(digits: int, places: nat)

  function Pow10(n: nat): (p: nat)
    ensures p >= 1
  {
    if n == 0 then 1 else 10 * Pow10(n - 1)
  }

  /** The last `width` decimal digits of `n`, zero-padded. */
  function Digits(n: nat, width: nat): (s: string)
    ensures |s| == width
    ensures forall i :: 0 <= i < |s| ==> IsDigit(s[i])
  {
    if width == 0 then [] else Digits(n / 10, width - 1) + [DigitChar(n % 10)]
  }

  /** `n` with its last `width` digits dropped. */
  function DropDigits(n: nat, width: nat): nat
  {
    if width == 0 then n else DropDigits(n / 10, width - 1)
  }

  /** A magnitude with `places` decimals: integer part, point, decimals. */
  function DecimalText(magnitude: nat, places: nat): (s: string)
    ensures |s| >= places + 2 && s[|s| - places - 1] == '.'
    ensures forall i :: 0 <= i < |s| - places - 1 ==> IsDigit(s[i])
    ensures forall i :: |s| - places <= i < |s| ==> IsDigit(s[i])
  {
    NatToString(DropDigits(magnitude, places)) + "." + Digits(magnitude, places)
  }

  /** `str(x)` for a numeric cell: an integer as `IntToString`, a float with
    * its sign, its integer part, a point and at least one decimal, as
    * Python prints `180.0` and `245.5`. */
  function NumericText(x: Numeric): (s: string)
    ensures x.Whole? ==> s == IntToString(x.i)
    ensures x.Decimal? && x.digits >= 0 && x.places >= 1 ==> s == DecimalText(x.digits, x.places)
    ensures x.Decimal? && x.digits < 0 && x.places >= 1 ==> s == "-" + DecimalText(-x.digits, x.places)
  {
    match x
    case Whole(i) => IntToString(i)
    case Decimal(d, places) =>
      var p := if places == 0 then 1 else places;
      var m := if places == 0 then 10 * d else d;
      if m < 0 then "-" + DecimalText(-m, p) else DecimalText(m, p)
  }

  /** The decimals and the integer part read back as the magnitude. */
  lemma {:induction false} DigitsRoundTrip(n: nat, width: nat)
    ensures DigitsValue(Digits(n, width)) + Pow10(width) * DropDigits(n, width) == n
  {
    if width > 0 {
      var s := Digits(n, width);
      assert s[..|s| - 1] == Digits(n / 10, width - 1);
      DigitsRoundTrip(n / 10, width - 1);
      var v, q := DigitsValue(Digits(n / 10, width - 1)), DropDigits(n / 10, width - 1);
      assert DigitsValue(s) == 10 * v + n % 10;
      ScaleStep(Pow10(width - 1), q);
      Recombine(n, v, Pow10(width - 1) * q);
    }
  }

  lemma ScaleStep(p: nat, q: nat)
    ensures (10 * p) * q == 10 * (p * q)
  {
  }

  lemma Recombine(n: nat, v: nat, a: nat)
    requires v + a == n / 10
    ensures 10 * v + n % 10 + 10 * a == n
  {
  }

  /** The two sides of the point in `DecimalText`. */
  lemma DecimalTextParts(magnitude: nat, places: nat)
    ensures var s := DecimalText(magnitude, places);
      && s[..|s| - places - 1] == NatToString(DropDigits(magnitude, places))
      && s[|s| - places..] == Digits(magnitude, places)
  {
    var whole, frac := NatToString(DropDigits(magnitude, places)), Digits(magnitude, places);
    var s := whole + "." + frac;
    assert s[..|whole|] == whole;
    assert s[|whole| + 1..] == frac;
  }

  /** A float cell reads back as its value: `10^places` times the integer
    * part plus the decimals gives `digits`. */
  lemma DecimalTextReadsBack(d: nat, places: nat)
    requires places >= 1
    ensures var s := NumericText(Decimal(d, places));
      var dot := |s| - places - 1;
      Pow10(places) * DigitsValue(s[..dot]) + DigitsValue(s[dot + 1..]) == d
  {
    var s := NumericText(Decimal(d, places));
    assert s == DecimalText(d, places);
    DecimalTextParts(d, places);
    var q := DropDigits(d, places);
    NatToStringRoundTrip(q);
    DigitsRoundTrip(d, places);
  }

  /** The usage hours of the integration fixture print as Python prints them. */
  lemma FixtureUsageHoursText()
    ensures NumericText(Decimal(2455, 1)) == "245.5"
    ensures NumericText(Decimal(1800, 1)) == "180.0"
  {
    UsageHoursText2455();
    UsageHoursText1800();
  }

  lemma UsageHoursText2455()
    ensures DecimalText(2455, 1) == "245.5"
  {
    assert DropDigits(2455, 1) == 245;
    assert Digits(2455, 1) == "5";
    assert NatToString(245) == "245" by {
      assert NatToString(2) == "2";
      assert NatToString(24) == "24";
    }
  }

  lemma UsageHoursText1800()
    ensures DecimalText(1800, 1) == "180.0"
  {
    assert DropDigits(1800, 1) == 180;
    assert Digits(1800, 1) == "0";
    assert NatToString(180) == "180" by {
      assert NatToString(1) == "1";
      assert NatToString(18) == "18";
    }
  }


  /** `sep.join(parts)`. */
  function Join(sep: string, parts: seq<string>): string
  {
    if |parts| == 0 then "" else if |parts| == 1 then parts[0] else parts[0] + sep + Join(sep, parts[1..])
  }

  /** The number of occurrences of `c` in `s`. */
  function CountChar(s: string, c: char): nat
  {
    if |s| == 0 then 0 else (if s[0] == c then 1 else 0) + CountChar(s[1..], c)
  }

  lemma {:induction false} CountCharAppend(a: string, b: string, c: char)
    ensures CountChar(a + b, c) == CountChar(a, c) + CountChar(b, c)
  {
    if |a| == 0 {
      assert a + b == b;
    } else {
      assert (a + b)[1..] == a[1..] + b;
      CountCharAppend(a[1..], b, c);
    }
  }

  lemma {:induction false} CountCharAbsent(s: string, c: char)
    requires c !in s
    ensures CountChar(s, c) == 0
  {
    if |s| > 0 {
      CountCharAbsent(s[1..], c);
    }
  }

  /** Joining `n` parts that do not contain `c` with a separator that contains
    * `c` once yields exactly `n - 1` occurrences of `c`. */
  lemma {:induction false} JoinCount(sep: string, parts: seq<string>, c: char)
    requires |parts| >= 1 && CountChar(sep, c) == 1
    requires forall i :: 0 <= i < |parts| ==> c !in parts[i]
    ensures CountChar(Join(sep, parts), c) == |parts| - 1
  {
    CountCharAbsent(parts[0], c);
    if |parts| > 1 {
      JoinCount(sep, parts[1..], c);
      CountCharAppend(parts[0], sep, c);
      CountCharAppend(parts[0] + sep, Join(sep, parts[1..]), c);
    }
  }

  predicate IsUpper(c: char) { 'A' <= c <= 'Z' }
  predicate IsLower(c: char) { 'a' <= c <= 'z' }
  predicate IsLetter(c: char) { IsUpper(c) || IsLower(c) }

  function ToUpper(c: char): char { if IsLower(c) then (c as int - 32) as char else c }
  function ToLower(c: char): char { if IsUpper(c) then (c as int + 32) as char else c }

  /** `s.lower()` on ASCII letters. */
  function LowerAscii(s: string): (r: string)
    ensures |r| == |s|
    ensures forall i :: 0 <= i < |s| ==> r[i] == ToLower(s[i])
  {
    seq(|s|, i requires 0 <= i < |s| => ToLower(s[i]))
  }

  /** `s.replace(a, b)` for single characters. */
  function ReplaceChar(s: string, a: char, b: char): (r: string)
    ensures |r| == |s|
    ensures forall i :: 0 <= i < |s| ==> r[i] == if s[i] == a then b else s[i]
  {
    seq(|s|, i requires 0 <= i < |s| => if s[i] == a then b else s[i])
  }

  /** `s.title()` on ASCII: a letter that starts a word (is not preceded by a
    * letter) is upper-cased, every other letter lower-cased. */
  function TitleCase(s: string): (r: string)
    ensures |r| == |s|
  {
    seq(|s|, i requires 0 <= i < |s| =>
      if i == 0 || !IsLetter(s[i - 1]) then ToUpper(s[i]) else ToLower(s[i]))
  }

  /** Title-casing keeps every non-letter in place, so no underscore survives
    * `replace('_', ' ')` followed by `title()`. */
  lemma TitleOfReplaced(s: string)
    ensures '_' !in TitleCase(ReplaceChar(s, '_', ' '))
  {
    var t := ReplaceChar(s, '_', ' ');
    var r := TitleCase(t);
    forall i | 0 <= i < |r| ensures r[i] != '_' {
      assert t[i] != '_';
    }
  }
}
