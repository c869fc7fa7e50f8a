/** Reading a decimal from the text of a number, whose exponent is written out first. */
module ScientificNotation {
  import opened Wrappers
  import opened Decimals

  // ---------------------------------------------------------------- strings

  predicate IsDigit(c: char) {
    '0' <= c <= '9'
  }

  predicate Digits(s: string) {
    forall i | 0 <= i < |s| :: IsDigit(s[i])
  }

  predicate IsUpper(c: char) {
    'A' <= c <= 'Z'
  }

  predicate NoUpper(s: string) {
    forall i | 0 <= i < |s| :: !IsUpper(s[i])
  }

  /** The number a run of digits denotes. */
  function Number(s: string): int {
    if s == "" then 0 else 10 * Number(s[..|s| - 1]) + (s[|s| - 1] as int - '0' as int)
  }

  predicate Starts(s: string, c: char) {
    s != "" && s[0] == c
  }

  function Integer(s: string): int {
    if Starts(s, '-') then -Number(s[1..]) else if Starts(s, '+') then Number(s[1..]) else Number(s)
  }

  function ToLower(s: string): string {
    if s == "" then ""
      else ToLower(s[..|s| - 1]) + [if IsUpper(s[|s| - 1]) then (s[|s| - 1] as int + 32) as char else s[|s| - 1]]
  }

  /** The first piece of a split at `c`. */
  function First(s: string, c: char): string {
    if s == "" || s[0] == c then "" else [s[0]] + First(s[1..], c)
  }

  /** The second piece of a split at `c`, empty when there is none. */
  function Second(s: string, c: char): string {
    if c in s then assert |First(s, c)| < |s| by { FirstShorter(s, c); } First(s[|First(s, c)| + 1..], c) else ""
  }

  lemma {:induction false} FirstShorter(s: string, c: char)
    ensures |First(s, c)| <= |s| && (c in s ==> |First(s, c)| < |s|)
  {
    if s != "" && s[0] != c { FirstShorter(s[1..], c); }
  }

  function Zeros(n: nat): string {
    seq(n, _ => '0')
  }

  function LeadingZeros(s: string): nat {
    if Starts(s, '0') then 1 + LeadingZeros(s[1..]) else 0
  }

  /** Drops leading zeros that are followed by a digit. */
  function DropZeros(s: string): string {
    if |s| > 1 && s[0] == '0' && IsDigit(s[1]) then DropZeros(s[1..]) else s
  }

  function Significant(s: string): string {
    if DropZeros(s) == "" then "0" else DropZeros(s)
  }

  // ---------------------------------------------------------------- the program's two functions

  function ExpandScientificNotation(value: string): string {
    if 'e' !in value && 'E' !in value then value
    else
      var lower := ToLower(value);
      var coefficient, rawExponent := First(lower, 'e'), Second(lower, 'e');
      var negative := Starts(coefficient, '-');
      var unsigned := if negative || Starts(coefficient, '+') then coefficient[1..] else coefficient;
      var whole, fraction := First(unsigned, '.'), Second(unsigned, '.');
      Positioned(negative, whole, fraction, Integer(rawExponent))
  }

  /** Places the decimal point of the significant digits where the exponent says. */
  function Positioned(negative: bool, whole: string, fraction: string, exponent: int): string {
    var digits := Significant(whole + fraction);
    var decimalIndex := |whole| + exponent - LeadingZeros(whole + fraction);
    var sign := if negative then "-" else "";
    if decimalIndex <= 0 then sign + "0." + Zeros(-decimalIndex) + digits
    else if decimalIndex >= |digits| then sign + digits + Zeros(decimalIndex - |digits|)
    else sign + digits[..decimalIndex] + "." + digits[decimalIndex..]
  }

  function DecimalOfText(value: string): Decimal {
    var text := ExpandScientificNotation(value);
    var negative := Starts(text, '-');
    var unsigned := if negative || Starts(text, '+') then text[1..] else text;
    var whole, fraction := First(unsigned, '.'), Second(unsigned, '.');
    var magnitude := Number(Significant(whole + fraction));
    Normalize(Decimal(if negative then -magnitude else magnitude, |fraction|))
  }

  // ---------------------------------------------------------------- numerals and what they denote

  datatype Sign = Unsigned | Plus | Minus

  datatype Exponent = Exponent(mark: char, sign: Sign, digits: string)

  /** A numeral: an optionally signed run of digits, perhaps with a fraction, perhaps with an exponent. */
  datatype Numeral = Numeral(sign: Sign, whole: string, fraction: Option<string>, exponent: Option<Exponent>)

  predicate Valid(n: Numeral) {
    && Digits(n.whole) && (n.fraction.Some? ==> Digits(n.fraction.value))
    && (n.exponent.Some? ==>
      (n.exponent.value.mark == 'e' || n.exponent.value.mark == 'E') && Digits(n.exponent.value.digits))
  }

  function SignText(sign: Sign): string {
    match sign case Unsigned => "" case Plus => "+" case Minus => "-"
  }

  function Magnitude(whole: string, fraction: Option<string>): string {
    whole + if fraction.Some? then "." + fraction.value else ""
  }

  function ExponentText(e: Exponent): string {
    SignText(e.sign) + e.digits
  }

  function Text(n: Numeral): string {
    SignText(n.sign) + Magnitude(n.whole, n.fraction) + if n.exponent.Some?
      then [n.exponent.value.mark] + ExponentText(n.exponent.value) else ""
  }

  function FractionOf(n: Numeral): string {
    if n.fraction.Some? then n.fraction.value else ""
  }

  function ExponentOf(n: Numeral): int {
    if n.exponent.None? then 0
    else if n.exponent.value.sign.Minus? then -Number(n.exponent.value.digits) else Number(n.exponent.value.digits)
  }

  /** `x` times ten to the power `e`. */
  function Shift(x: int, e: int): real {
    if e >= 0 then x as real * Ten(e) else x as real / Ten(-e)
  }

  /** The number a numeral denotes: all its digits, scaled by its exponent less its count of fraction digits. */
  function Denoted(n: Numeral): real {
    var magnitude := Number(n.whole + FractionOf(n));
    Shift(if n.sign.Minus? then -magnitude else magnitude, ExponentOf(n) - |FractionOf(n)|)
  }

  // ---------------------------------------------------------------- digits

  lemma {:induction false} NumberAppend(a: string, b: string)
    ensures Number(a + b) == Number(a) * PowerOfTen(|b|) + Number(b)
  {
    if b == "" {
      assert a + b == a;
    } else {
      var m := |b| - 1;
      assert (a + b)[..|a + b| - 1] == a + b[..m];
      NumberAppend(a, b[..m]);
      assert PowerOfTen(|b|) == 10 * PowerOfTen(m);
      assert 10 * (Number(a) * PowerOfTen(m)) == Number(a) * PowerOfTen(|b|);
    }
  }

  lemma {:induction false} ZerosNumber(n: nat)
    ensures Number(Zeros(n)) == 0
  {
    if n > 0 {
      assert Zeros(n)[..n - 1] == Zeros(n - 1);
      ZerosNumber(n - 1);
    }
  }

  lemma NumberSkipsZero(s: string)
    requires Starts(s, '0')
    ensures Number(s) == Number(s[1..])
  {
    assert s == "0" + s[1..];
    NumberAppend("0", s[1..]);
    assert "0"[..0] == "";
    assert Number("0") == 0;
  }

  lemma {:induction false} DropZerosKeeps(s: string)
    requires Digits(s)
    ensures Number(DropZeros(s)) == Number(s) && Digits(DropZeros(s)) && Digits(Significant(s))
      && Number(Significant(s)) == Number(s)
    ensures s != "" ==> DropZeros(s) != ""
  {
    assert Number("0") == 0 by { assert "0"[..0] == ""; }
    if |s| > 1 && s[0] == '0' && IsDigit(s[1]) {
      DropZerosKeeps(s[1..]);
      NumberSkipsZero(s);
    }
  }

  /** Unless the number is zero, exactly the leading zeros are gone. */
  lemma {:induction false} SignificantLength(s: string)
    requires Digits(s) && Number(s) != 0
    ensures |Significant(s)| == |s| - LeadingZeros(s)
  {
    if Starts(s, '0') {
      NumberSkipsZero(s);
      assert s[1..] != "";
      assert IsDigit(s[1]);
      SignificantLength(s[1..]);
    }
  }

  // ---------------------------------------------------------------- splitting

  lemma {:induction false} FirstOf(a: string, c: char, b: string)
    requires c !in a
    ensures First(a + [c] + b, c) == a && First(a, c) == a
  {
    if a != "" {
      assert (a + [c] + b)[1..] == a[1..] + [c] + b;
      FirstOf(a[1..], c, b);
    }
  }

  lemma SplitPair(a: string, c: char, b: string)
    requires c !in a && c !in b
    ensures First(a + [c] + b, c) == a && Second(a + [c] + b, c) == b
    ensures First(a, c) == a && Second(a, c) == ""
  {
    FirstOf(a, c, b);
    FirstOf(b, c, "");
    assert (a + [c] + b)[|a|] == c;
    assert (a + [c] + b)[|a| + 1..] == b;
  }

  lemma {:induction false} LowerAppend(a: string, b: string)
    ensures ToLower(a + b) == ToLower(a) + ToLower(b)
  {
    if b == "" {
      assert a + b == a;
    } else {
      assert (a + b)[..|a + b| - 1] == a + b[..|b| - 1];
      LowerAppend(a, b[..|b| - 1]);
    }
  }

  lemma {:induction false} LowerKeeps(s: string)
    requires NoUpper(s)
    ensures ToLower(s) == s
  {
    if s != "" {
      LowerKeeps(s[..|s| - 1]);
      assert s == s[..|s| - 1] + [s[|s| - 1]];
    }
  }

  /** Only digits, signs and points: nothing that an exponent mark or a lower-casing could disturb. */
  predicate Unmarked(s: string) {
    forall i | 0 <= i < |s| :: IsDigit(s[i]) || s[i] == '.' || s[i] == '-' || s[i] == '+'
  }

  lemma UnmarkedFree(s: string)
    requires Unmarked(s)
    ensures NoUpper(s) && 'e' !in s && 'E' !in s
  {
  }

  lemma MagnitudeSplits(whole: string, fraction: Option<string>)
    requires Digits(whole) && (fraction.Some? ==> Digits(fraction.value))
    ensures var m := Magnitude(whole, fraction);
      First(m, '.') == whole && Second(m, '.') == (if fraction.Some? then fraction.value else "")
      && !Starts(m, '-') && !Starts(m, '+') && Unmarked(m)
  {
    if fraction.Some? {
      SplitPair(whole, '.', fraction.value);
      assert Magnitude(whole, fraction) == whole + ['.'] + fraction.value;
    } else {
      SplitPair(whole, '.', "");
      assert Magnitude(whole, fraction) == whole;
    }
  }

  lemma Unsign(sign: Sign, m: string)
    requires !Starts(m, '-') && !Starts(m, '+')
    ensures Unmarked(m) ==> Unmarked(SignText(sign) + m)
    ensures var s := SignText(sign) + m;
      && (Starts(s, '-') <==> sign.Minus?)
      && (Starts(s, '+') <==> sign.Plus?)
      && (if Starts(s, '-') || Starts(s, '+') then s[1..] else s) == m
  {
    var s := SignText(sign) + m;
    if sign.Unsigned? {
      assert s == m;
    } else {
      assert s[1..] == m;
    }
  }

  // ---------------------------------------------------------------- expansion

  /** The numeral without exponent that expansion writes. */
  function Expanded(n: Numeral): Numeral {
    if n.exponent.None? then n
    else
      var digits := Significant(n.whole + FractionOf(n));
      var decimalIndex := |n.whole| + ExponentOf(n) - LeadingZeros(n.whole + FractionOf(n));
      var sign := if n.sign.Minus? then Minus else Unsigned;
      if decimalIndex <= 0 then Numeral(sign, "0", Some(Zeros(-decimalIndex) + digits), None)
      else if decimalIndex >= |digits| then Numeral(sign, digits + Zeros(decimalIndex - |digits|), None, None)
      else Numeral(sign, digits[..decimalIndex], Some(digits[decimalIndex..]), None)
  }

  lemma IntegerOfExponent(e: Exponent)
    requires Digits(e.digits)
    ensures Integer(ExponentText(e)) == if e.sign.Minus? then -Number(e.digits) else Number(e.digits)
  {
    Unsign(e.sign, e.digits);
  }

  lemma ExpandTakesApart(n: Numeral)
    requires Valid(n) && n.exponent.Some?
    ensures ExpandScientificNotation(Text(n)) == Positioned(n.sign.Minus?, n.whole, FractionOf(n), ExponentOf(n))
  {
    hide First, Second, ToLower, Number, Positioned, Integer, Starts, Magnitude, SignText, Digits, Unmarked, NoUpper;
    var m, e := Magnitude(n.whole, n.fraction), n.exponent.value;
    var head, tail := SignText(n.sign) + m, ExponentText(e);
    MagnitudeSplits(n.whole, n.fraction);
    Unsign(n.sign, m);
    ExponentUnmarked(e);
    UnmarkedFree(head);
    UnmarkedFree(tail);
    assert Text(n) == head + [e.mark] + tail;
    assert e.mark in Text(n) by { assert Text(n)[|head|] == e.mark; }
    LowerMark(head, e.mark, tail);
    SplitPair(head, 'e', tail);
    IntegerOfExponent(e);
  }

  lemma ExponentUnmarked(e: Exponent)
    requires Digits(e.digits)
    ensures Unmarked(ExponentText(e))
  {
    Unsign(e.sign, e.digits);
  }

  lemma LowerMark(head: string, mark: char, tail: string)
    requires mark == 'e' || mark == 'E'
    requires NoUpper(head) && NoUpper(tail)
    ensures ToLower(head + [mark] + tail) == head + ['e'] + tail
  {
    LowerAppend(head + [mark], tail);
    LowerAppend(head, [mark]);
    LowerKeeps(head);
    LowerKeeps(tail);
    assert [mark][..0] == "";
    assert ToLower([mark]) == ['e'];
  }

  lemma ExpandWrites(n: Numeral)
    requires Valid(n)
    ensures ExpandScientificNotation(Text(n)) == Text(Expanded(n))
  {
    hide First, Second, ToLower, Number, Integer, Starts, Digits, Unmarked, NoUpper, Significant, LeadingZeros;
    if n.exponent.Some? {
      ExpandTakesApart(n);
      hide ExpandScientificNotation, Zeros;
      PositionedIsText(n);
    } else {
      MagnitudeSplits(n.whole, n.fraction);
      Unsign(n.sign, Magnitude(n.whole, n.fraction));
      UnmarkedFree(SignText(n.sign) + Magnitude(n.whole, n.fraction));
      assert Text(n) == SignText(n.sign) + Magnitude(n.whole, n.fraction);
    }
  }

  lemma PositionedIsText(n: Numeral)
    requires n.exponent.Some?
    ensures Positioned(n.sign.Minus?, n.whole, FractionOf(n), ExponentOf(n)) == Text(Expanded(n))
  {
    hide Significant, LeadingZeros, Number, Zeros;
  }

  lemma ExpandedValid(n: Numeral)
    requires Valid(n)
    ensures Valid(Expanded(n)) && Expanded(n).exponent.None?
  {
    DropZerosKeeps(n.whole + FractionOf(n));
    hide Significant, LeadingZeros, Number, DropZeros;
  }

  /** Writing the exponent out does not change the number. */
  lemma ExpandedDenotes(n: Numeral)
    requires Valid(n)
    ensures Denoted(Expanded(n)) == Denoted(n)
  {
    if n.exponent.Some? {
      var raw := n.whole + FractionOf(n);
      var digits := Significant(raw);
      var decimalIndex := |n.whole| + ExponentOf(n) - LeadingZeros(raw);
      DropZerosKeeps(raw);
      if Number(raw) != 0 { SignificantLength(raw); }
      hide Significant, LeadingZeros, DropZeros, Digits, Number, Shift;
      assert Number(raw) != 0 ==> |digits| == |n.whole| + |FractionOf(n)| - LeadingZeros(raw);
      ExpandedDigits(digits, decimalIndex);
      hide Expanded, Denoted;
      ShiftDigits(n, digits, decimalIndex);
    }
  }

  lemma ShiftDigits(n: Numeral, digits: string, decimalIndex: int)
    requires n.exponent.Some? && digits == Significant(n.whole + FractionOf(n))
      && Number(digits) == Number(n.whole + FractionOf(n))
    requires decimalIndex == |n.whole| + ExponentOf(n) - LeadingZeros(n.whole + FractionOf(n))
    requires Number(digits) != 0 ==> |digits| == |n.whole| + |FractionOf(n)| - LeadingZeros(n.whole + FractionOf(n))
    requires decimalIndex <= 0 ==> Number("0" + (Zeros(-decimalIndex) + digits)) == Number(digits)
    requires decimalIndex >= |digits| ==>
      Number(digits + Zeros(decimalIndex - |digits|) + "") == Number(digits) * PowerOfTen(decimalIndex - |digits|)
    requires 0 <= decimalIndex <= |digits| ==> Number(digits[..decimalIndex] + digits[decimalIndex..]) == Number(digits)
    ensures Denoted(Expanded(n)) == Denoted(n)
  {
    hide Significant, LeadingZeros, Number, Shift, PowerOfTen;
    var magnitude := Number(digits);
    ShiftZero(ExponentOf(n) - |FractionOf(n)|);
    if decimalIndex <= 0 {
      ShiftZero(decimalIndex - |digits|);
    } else if decimalIndex >= |digits| {
      ShiftPower(n.sign, magnitude, decimalIndex - |digits|);
      ShiftZero(decimalIndex - |digits|);
    } else {
      ShiftZero(decimalIndex - |digits|);
    }
  }

  lemma ShiftZero(e: int)
    ensures Shift(0, e) == 0.0
  {
  }

  lemma ShiftPower(sign: Sign, magnitude: int, e: nat)
    ensures var scaled := magnitude * PowerOfTen(e);
      Shift(if sign.Minus? then -scaled else scaled, 0) == Shift(if sign.Minus? then -magnitude else magnitude, e)
  {
  }

  lemma ExpandedDigits(digits: string, decimalIndex: int)
    ensures decimalIndex <= 0 ==> Number("0" + (Zeros(-decimalIndex) + digits)) == Number(digits)
    ensures decimalIndex >= |digits| ==>
      Number(digits + Zeros(decimalIndex - |digits|) + "") == Number(digits) * PowerOfTen(decimalIndex - |digits|)
    ensures 0 <= decimalIndex <= |digits| ==> Number(digits[..decimalIndex] + digits[decimalIndex..]) == Number(digits)
  {
    if decimalIndex <= 0 {
      var zeros := Zeros(-decimalIndex);
      NumberAppend("0", zeros + digits);
      assert "0"[..0] == "";
      NumberAppend(zeros, digits);
      ZerosNumber(-decimalIndex);
    }
    if decimalIndex >= |digits| {
      var zeros := Zeros(decimalIndex - |digits|);
      assert digits + zeros + "" == digits + zeros;
      NumberAppend(digits, zeros);
      ZerosNumber(decimalIndex - |digits|);
    }
    if 0 <= decimalIndex <= |digits| {
      assert digits[..decimalIndex] + digits[decimalIndex..] == digits;
    }
  }

  /**
   * The text of every numeral, signed or not, with or without fraction and exponent, is read as the number it denotes.
   */
  lemma DecimalOfTextExact(n: Numeral)
    requires Valid(n)
    ensures Val(DecimalOfText(Text(n))) == Denoted(n)
  {
    hide *;
    ExpandWrites(n);
    ExpandedDenotes(n);
    ExpandedValid(n);
    PlainTextExact(Expanded(n), Text(n));
  }

  lemma PlainTextExact(p: Numeral, text: string)
    requires Valid(p) && p.exponent.None? && ExpandScientificNotation(text) == Text(p)
    ensures Val(DecimalOfText(text)) == Denoted(p)
  {
    hide *;
    PlainTextRead(p, text);
    var units := SignedDigits(p);
    NormalizeExact(Decimal(units, |FractionOf(p)|));
    ValIsShift(units, |FractionOf(p)|);
    PlainDenotes(p);
  }

  function SignedDigits(n: Numeral): int {
    var magnitude := Number(n.whole + FractionOf(n));
    if n.sign.Minus? then -magnitude else magnitude
  }

  lemma PlainDenotes(p: Numeral)
    requires p.exponent.None?
    ensures Denoted(p) == Shift(SignedDigits(p), -|FractionOf(p)|)
  {
    hide Shift, Number, FractionOf;
  }

  lemma ValIsShift(units: int, scale: nat)
    ensures Val(Decimal(units, scale)) == Shift(units, 0 - scale)
  {
  }

  lemma PlainTextRead(p: Numeral, text: string)
    requires Valid(p) && p.exponent.None? && ExpandScientificNotation(text) == Text(p)
    ensures DecimalOfText(text) == Normalize(Decimal(SignedDigits(p), |FractionOf(p)|))
  {
    hide ExpandScientificNotation, First, Second, Number, Significant, Starts, SignText, Magnitude, Unmarked, Normalize;
    MagnitudeSplits(p.whole, p.fraction);
    Unsign(p.sign, Magnitude(p.whole, p.fraction));
    assert Text(p) == SignText(p.sign) + Magnitude(p.whole, p.fraction);
    assert Digits(p.whole + FractionOf(p));
    DropZerosKeeps(p.whole + FractionOf(p));
  }
}
