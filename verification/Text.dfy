/** Decimal text as the C++ library writes and reads it. */
module Text {
  import opened Options

  /** Positions are fixed-point integers counted in millionths. */
  const MILLION: int := 1_000_000
  const INT_MIN: int := -0x8000_0000
  const INT_MAX: int := 0x7fff_ffff

  /** The values a 32-bit `int` holds. */
  predicate Int32(n: int) { INT_MIN <= n <= INT_MAX }

  predicate IsDigit(c: char) { '0' <= c <= '9' }

  predicate IsSpace(c: char) { c == ' ' || '\t' <= c <= '\r' }

  ghost predicate AllDigits(s: string) { forall i :: 0 <= i < |s| ==> IsDigit(s[i]) }

  /** Text made of digits, signs and decimal points only: it holds no separator. */
  ghost predicate Plain(s: string) {
    forall i :: 0 <= i < |s| ==> IsDigit(s[i]) || s[i] == '-' || s[i] == '.'
  }

  function DigitChar(d: nat): (c: char)
    requires d < 10
    ensures IsDigit(c) && c as int - '0' as int == d
  {
    (d + '0' as int) as char
  }

  function Value(s: string): (v: nat)
    requires AllDigits(s)
  {
    if s == [] then 0
    else Value(s[..|s| - 1]) * 10 + (s[|s| - 1] as int - '0' as int)
  }

  function Digits(n: nat): (s: string)
    ensures s != [] && AllDigits(s) && Value(s) == n
  {
    if n < 10 then [DigitChar(n)]
    else
      var front := Digits(n / 10);
      var s := front + [DigitChar(n % 10)];
      assert s[..|s| - 1] == front;
      s
  }

  function Pow10(k: nat): nat { if k == 0 then 1 else 10 * Pow10(k - 1) }

  /** The low `k` decimal digits of `n`, with leading zeros. */
  function Padded(n: nat, k: nat): (s: string)
    ensures |s| == k && AllDigits(s)
    ensures n < Pow10(k) ==> Value(s) == n
  {
    if k == 0 then []
    else
      var front := Padded(n / 10, k - 1);
      var s := front + [DigitChar(n % 10)];
      assert s[..|s| - 1] == front;
      s
  }

  /** `std::to_string(int)`. */
  function IntText(n: int): (s: string)
    ensures s != [] && Plain(s)
  {
    if n < 0 then "-" + Digits(-n) else Digits(n)
  }

  /** `std::to_string(float)`: six digits after the point. */
  function FixText(v: int): (s: string)
    ensures s != [] && Plain(s)
  {
    var m := if v < 0 then -v else v;
    (if v < 0 then "-" else "") + Digits(m / MILLION) + ("." + Decimals(m))
  }

  /** The six digits after the point. */
  function Decimals(m: nat): (s: string)
    ensures |s| == 6 && AllDigits(s)
  {
    Padded(m % MILLION, 6)
  }

  /** A position in decimal notation: the sign, the whole part, a point, six digits. */
  lemma SixDecimals(v: int)
    ensures var m := if v < 0 then -v else v;
            exists whole: string, part: string ::
              && AllDigits(whole) && Value(whole) == m / 1_000_000
              && AllDigits(part) && |part| == 6 && Value(part) == m % 1_000_000
              && FixText(v) == (if v < 0 then "-" else "") + whole + "." + part
  {
    hide Digits, Padded;
    var m := if v < 0 then -v else v;
    var whole, part := Digits(m / MILLION), Decimals(m);
    assert Pow10(6) == 1_000_000;
    assert FixText(v) == (if v < 0 then "-" else "") + whole + "." + part;
  }

  function SkipSpace(s: string): string {
    if s != [] && IsSpace(s[0]) then SkipSpace(s[1..]) else s
  }

  /** The longest prefix made of digits. */
  function DigitRun(s: string): (d: string)
    ensures d <= s && AllDigits(d)
  {
    if s == [] || !IsDigit(s[0]) then [] else [s[0]] + DigitRun(s[1..])
  }

  predicate Signed(s: string) { s != [] && (s[0] == '-' || s[0] == '+') }

  function Unsigned(s: string): string { if Signed(s) then s[1..] else s }

  function WithSign(s: string, v: int): int { if s != [] && s[0] == '-' then -v else v }

  /** `std::stoi`: leading blanks and trailing text are ignored; `None` stands
      for `invalid_argument` (no digits) and `out_of_range`. */
  function ReadInt(s: string): Option<int> {
    var t := SkipSpace(s);
    var d := DigitRun(Unsigned(t));
    if d == [] then None
    else
      var v := WithSign(t, Value(d));
      if Int32(v) then Some(v) else None
  }

  /** `std::stof` on decimal text without exponent, in millionths; digits after
      the sixth decimal are dropped. */
  function ReadFix(s: string): Option<int> {
    var t := SkipSpace(s);
    var u := Unsigned(t);
    var whole := DigitRun(u);
    var rest := u[|whole|..];
    var part := if rest != [] && rest[0] == '.' then DigitRun(rest[1..]) else [];
    if whole == [] && part == [] then None
    else Some(WithSign(t, Value(whole) * MILLION + Millionths(part)))
  }

  /** The value of the digits after the point. */
  function Millionths(part: string): nat
    requires AllDigits(part)
  {
    Value((part + "000000")[..6])
  }

  /** The position of the first `d`, or the length when there is none. */
  function IndexOf(s: string, d: char): (i: nat)
    ensures i <= |s| && d !in s[..i]
    ensures i < |s| ==> s[i] == d
  {
    if s == [] || s[0] == d then 0
    else
      var i := 1 + IndexOf(s[1..], d);
      assert s[..i] == [s[0]] + s[1..][..i - 1];
      i
  }

  /** The pieces repeated `getline(stream, piece, d)` calls deliver: an empty
      piece between delimiters counts, an empty rest at the end does not. */
  function Split(s: string, d: char): seq<string> {
    if s == [] then []
    else
      var i := IndexOf(s, d);
      if i == |s| then [s] else [s[..i]] + Split(s[i + 1..], d)
  }

  lemma IndexOfFirst(a: string, d: char, rest: string)
    requires d !in a
    ensures IndexOf(a + [d] + rest, d) == |a|
  {
    var s := a + [d] + rest;
    var i := IndexOf(s, d);
    assert s[|a|] == d;
    assert forall j :: 0 <= j < i ==> s[..i][j] == s[j];
    assert forall j :: 0 <= j < |a| ==> s[j] == a[j];
  }

  lemma IndexOfIs(s: string, d: char, i: nat)
    requires i <= |s| && (forall j :: 0 <= j < i ==> s[j] != d) && (i < |s| ==> s[i] == d)
    ensures IndexOf(s, d) == i && (i < |s| <==> d in s)
  {
    var k := IndexOf(s, d);
    assert forall j :: 0 <= j < k ==> s[..k][j] == s[j];
  }

  lemma SplitFirst(a: string, d: char, rest: string)
    requires d !in a
    ensures Split(a + [d] + rest, d) == [a] + Split(rest, d)
  {
    IndexOfFirst(a, d, rest);
    var s := a + [d] + rest;
    assert s[..|a|] == a && s[|a| + 1..] == rest;
  }

  lemma SplitLast(a: string, d: char)
    requires d !in a && a != []
    ensures Split(a, d) == [a]
  {
    assert forall j :: 0 <= j < |a| ==> a[j] != d;
  }

  lemma {:induction false} DigitRunStops(d: string, rest: string)
    requires AllDigits(d) && (rest == [] || !IsDigit(rest[0]))
    ensures DigitRun(d + rest) == d
  {
    if d == [] {
      assert d + rest == rest;
    } else {
      DigitRunStops(d[1..], rest);
      assert (d + rest)[1..] == d[1..] + rest;
    }
  }

  /** How a sign and digits are read back, whatever follows the digits. */
  lemma ReadSigned(negative: bool, d: string, rest: string)
    requires AllDigits(d) && d != [] && (rest == [] || !IsDigit(rest[0]))
    ensures var s := (if negative then "-" else "") + d + rest;
            && SkipSpace(s) == s && Unsigned(s) == d + rest
            && DigitRun(Unsigned(s)) == d && Unsigned(s)[|d|..] == rest
            && (s[0] == '-' <==> negative)
  {
    var s := (if negative then "-" else "") + d + rest;
    assert IsDigit(d[0]);
    assert Unsigned(s) == d + rest;
    DigitRunStops(d, rest);
  }

  /** `stoi` undoes `to_string` on every 32-bit value, and reports every other one. */
  lemma IntRoundTrip(n: int)
    ensures ReadInt(IntText(n)) == if Int32(n) then Some(n) else None
  {
    var d := Digits(if n < 0 then -n else n);
    ReadSigned(n < 0, d, "");
    assert IntText(n) == (if n < 0 then "-" else "") + d + "";
  }

  lemma MillionthsOfSix(part: string)
    requires AllDigits(part) && |part| == 6
    ensures Millionths(part) == Value(part)
  {
    assert (part + "000000")[..6] == part;
  }

  lemma MillionthsOfDecimals(m: nat)
    ensures Millionths(Decimals(m)) == m % MILLION
  {
    assert Pow10(6) == MILLION by { assert Pow10(3) == 1000; }
    MillionthsOfSix(Decimals(m));
  }

  lemma FixTextShape(v: int)
    ensures var m := if v < 0 then -v else v;
            FixText(v) == (if v < 0 then "-" else "") + Digits(m / MILLION) + ("." + Decimals(m))
  {
  }

  lemma MillionthsOfNone()
    ensures Millionths("") == 0
  {
    var zeros := "000000";
    assert ("" + zeros)[..6] == zeros;
    ZerosAreZero(zeros);
  }

  lemma {:induction false} ZerosAreZero(s: string)
    requires forall i :: 0 <= i < |s| ==> s[i] == '0'
    ensures AllDigits(s) && Value(s) == 0
  {
    if s != [] { ZerosAreZero(s[..|s| - 1]); }
  }

  lemma ReadFixParts(negative: bool, whole: string, part: string)
    requires AllDigits(whole) && whole != [] && AllDigits(part)
    ensures ReadFix((if negative then "-" else "") + whole + ("." + part))
            == var v := Value(whole) * MILLION + Millionths(part);
               Some(if negative then -v else v)
  {
    hide DigitRun, Value, SkipSpace, Unsigned, Signed;
    ReadSigned(negative, whole, "." + part);
    assert ("." + part)[1..] == part + "";
    DigitRunStops(part, "");
  }

  /** `stof` undoes `to_string` on every position. */
  lemma FixRoundTrip(v: int)
    ensures ReadFix(FixText(v)) == Some(v)
  {
    hide ReadFix, Digits, Decimals, FixText;
    var m := if v < 0 then -v else v;
    MillionthsOfDecimals(m);
    FixTextShape(v);
    ReadFixParts(v < 0, Digits(m / MILLION), Decimals(m));
  }

  /** An integer read back as a position, as the `-1` and `0` fields are. */
  lemma IntReadAsFix(n: int)
    ensures ReadFix(IntText(n)) == Some(n * MILLION)
  {
    hide DigitRun, Value, SkipSpace, Unsigned, Signed, Digits;
    var d := Digits(if n < 0 then -n else n);
    ReadSigned(n < 0, d, "");
    assert IntText(n) == (if n < 0 then "-" else "") + d + "";
    MillionthsOfNone();
  }

  lemma {:induction false} BlanksAreSkipped(blanks: string, rest: string)
    requires (forall i :: 0 <= i < |blanks| ==> IsSpace(blanks[i])) && (rest == [] || !IsSpace(rest[0]))
    ensures SkipSpace(blanks + rest) == rest
  {
    if blanks == [] {
      assert blanks + rest == rest;
    } else {
      assert (blanks + rest)[1..] == blanks[1..] + rest;
      BlanksAreSkipped(blanks[1..], rest);
    }
  }

  /** A text that starts with a sign or none, then digits or none. */
  ghost predicate SignAndDigits(sign: string, digits: string, rest: string) {
    && (sign == "" || sign == "-" || sign == "+")
    && AllDigits(digits) && (rest == "" || !IsDigit(rest[0]))
    && (sign == "" && digits == "" && rest != "" ==> !IsSpace(rest[0]) && rest[0] != '-' && rest[0] != '+')
  }

  lemma SignIsSeen(sign: string, digits: string, rest: string)
    requires SignAndDigits(sign, digits, rest)
    ensures var t := sign + digits + rest;
            && (t == "" || !IsSpace(t[0])) && Unsigned(t) == digits + rest
            && (t != "" && t[0] == '-' <==> sign == "-")
  {
    var t := sign + digits + rest;
    if sign == "" {
      if digits != "" {
        assert IsDigit(digits[0]) && t[0] == digits[0];
      } else {
        assert t == rest;
      }
    } else {
      assert t[0] == sign[0] && t[1..] == digits + rest;
    }
  }

  /** `stoi` on any text: blanks, a sign or none, the digits, and whatever follows them.
      It gives the value of the digits with the sign if an `int` of 32 bits holds it,
      and an error if not or if there are no digits. */
  lemma ReadIntOf(blanks: string, sign: string, digits: string, rest: string)
    requires forall i :: 0 <= i < |blanks| ==> IsSpace(blanks[i])
    requires SignAndDigits(sign, digits, rest)
    ensures var v: int := if sign == "-" then -(Value(digits) as int) else Value(digits);
            ReadInt(blanks + (sign + digits + rest))
            == if digits != "" && -2_147_483_648 <= v <= 2_147_483_647 then Some(v) else None
  {
    hide SkipSpace, DigitRun, Value, Unsigned;
    SignIsSeen(sign, digits, rest);
    BlanksAreSkipped(blanks, sign + digits + rest);
    DigitRunStops(digits, rest);
  }
}
