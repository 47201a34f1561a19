/** Decimal text: std::to_string on non-negative values and std::stoi. */
module Decimal {
  import opened Common

  const INT_MAX := 0x7fff_ffff
  const INT_MIN := -0x8000_0000

  predicate IsDigit(c: char) { '0' <= c <= '9' }

  predicate AllDigits(s: string) { forall i :: 0 <= i < |s| ==> IsDigit(s[i]) }

  function DigitChar(n: nat): char
    requires n < 10
  {
    ('0' as int + n) as char
  }

  function DigitValue(c: char): nat
    requires IsDigit(c)
  {
    c as int - '0' as int
  }

  /** std::to_string of a non-negative integer. */
  function ToString(n: nat): (s: string)
    ensures s != "" && AllDigits(s)
  {
    if n < 10 then [DigitChar(n)] else ToString(n / 10) + [DigitChar(n % 10)]
  }

  function Value(s: string): nat
    requires AllDigits(s)
  {
    if s == "" then 0 else 10 * Value(s[..|s| - 1]) + DigitValue(s[|s| - 1])
  }

  lemma {:induction false} ValueOfToString(n: nat)
    ensures Value(ToString(n)) == n
  {
    if n < 10 {
      assert ToString(n)[..0] == "";
    } else {
      ValueOfToString(n / 10);
      assert ToString(n)[..|ToString(n)| - 1] == ToString(n / 10);
    }
  }

  /** Two numbers with the same decimal text are equal. */
  lemma ToStringInjective(m: nat, n: nat)
    requires ToString(m) == ToString(n)
    ensures m == n
  {
    ValueOfToString(m);
    ValueOfToString(n);
  }

  predicate IsSpace(c: char) { c == ' ' || '\t' <= c <= '\r' }

  /** Length of the longest prefix of digits. */
  function DigitRun(s: string): (n: nat)
    ensures n <= |s| && AllDigits(s[..n])
    ensures n < |s| ==> !IsDigit(s[n])
  {
    if s == "" || !IsDigit(s[0]) then 0
    else
      assert forall i :: 1 <= i < 1 + DigitRun(s[1..]) ==> s[i] == s[1..][i - 1];
      1 + DigitRun(s[1..])
  }

  /** std::stoi: white space, an optional sign, then the longest run of digits; None where it throws. */
  function Stoi(s: string): Option<int> {
    if s != "" && IsSpace(s[0]) then Stoi(s[1..])
    else
      var negative := s != "" && s[0] == '-';
      var body := if s != "" && (s[0] == '-' || s[0] == '+') then s[1..] else s;
      var n := DigitRun(body);
      if n == 0 then None
      else
        var v: int := if negative then -(Value(body[..n]) as int) else Value(body[..n]);
        if INT_MIN <= v <= INT_MAX then Some(v) else None
  }

  lemma DigitRunOf(n: nat, rest: string)
    requires rest == "" || !IsDigit(rest[0])
    ensures DigitRun(ToString(n) + rest) == |ToString(n)|
  {
    var s, k := ToString(n) + rest, DigitRun(ToString(n) + rest);
    assert forall i :: 0 <= i < |ToString(n)| ==> IsDigit(s[i]);
    assert rest != "" ==> !IsDigit(s[|ToString(n)|]);
    assert forall i :: 0 <= i < k ==> IsDigit(s[..k][i]) && s[..k][i] == s[i];
  }

  /** What std::stoi makes of a number with a sign. */
  function Signed(sign: string, n: nat): Option<int> {
    var v := if sign == "-" then -(n as int) else n as int;
    if INT_MIN <= v <= INT_MAX then Some(v) else None
  }

  /** std::stoi on a text that does not start with white space. */
  lemma StoiBySign(s: string)
    requires s != "" && !IsSpace(s[0])
    ensures var body := if s[0] == '-' || s[0] == '+' then s[1..] else s;
      var n := DigitRun(body);
      n > 0 ==> Stoi(s) == Signed(if s[0] == '-' then "-" else "", Value(body[..n]))
  {
    hide DigitRun, Value;
  }

  /** A number in front of something else: where it ends, and what it starts with. */
  lemma NumberInFront(n: nat, rest: string)
    requires rest == "" || !IsDigit(rest[0])
    ensures var number, k := ToString(n) + rest, |ToString(n)|;
      && 0 < k <= |number| && DigitRun(number) == k && number[..k] == ToString(n) && Value(number[..k]) == n
      && !IsSpace(number[0]) && number[0] != '-' && number[0] != '+'
  {
    DigitRunOf(n, rest);
    ValueOfToString(n);
    assert (ToString(n) + rest)[..|ToString(n)|] == ToString(n);
    assert IsDigit((ToString(n) + rest)[0]);
  }

  lemma StoiReadsSign(sign: string, n: nat, rest: string)
    requires sign in {"", "+", "-"} && (rest == "" || !IsDigit(rest[0]))
    ensures Stoi(sign + (ToString(n) + rest)) == Signed(sign, n)
  {
    NumberInFront(n, rest);
    hide ToString, Value, DigitRun, Stoi, IsDigit;
    var number := ToString(n) + rest;
    var s := sign + number;
    if sign == "" { assert s == number; } else { assert s[0] == sign[0] && s[1..] == number; }
    StoiBySign(s);
  }

  /** White space in front and anything but a digit behind does not matter, and a sign is read as one. */
  lemma {:induction false} StoiReadsNumber(spaces: string, sign: string, n: nat, rest: string)
    requires (forall i :: 0 <= i < |spaces| ==> IsSpace(spaces[i])) && sign in {"", "+", "-"}
    requires rest == "" || !IsDigit(rest[0])
    ensures Stoi(spaces + (sign + (ToString(n) + rest))) == Signed(sign, n)
    decreases |spaces|
  {
    hide ToString, Signed;
    if spaces == "" {
      StoiReadsSign(sign, n, rest);
      assert spaces + (sign + (ToString(n) + rest)) == sign + (ToString(n) + rest);
    } else {
      assert (spaces + (sign + (ToString(n) + rest)))[1..] == spaces[1..] + (sign + (ToString(n) + rest));
      StoiReadsNumber(spaces[1..], sign, n, rest);
    }
  }

  /** The numbers that an int just holds are read, the next ones make std::stoi throw. */
  lemma StoiLimits()
    ensures Stoi(ToString(2147483647)) == Some(2147483647) && Stoi("-" + ToString(2147483648)) == Some(-2147483648)
    ensures Stoi(ToString(2147483648)) == None && Stoi("-" + ToString(2147483649)) == None
  {
    hide ToString, Stoi;
    StoiReadsSign("", 2147483647, "");
    StoiReadsSign("", 2147483648, "");
    StoiReadsSign("-", 2147483648, "");
    StoiReadsSign("-", 2147483649, "");
    assert forall n: nat :: "" + (ToString(n) + "") == ToString(n) && ToString(n) + "" == ToString(n);
  }

  /** Parsing undoes printing for every non-negative int. */
  lemma StoiOfToString(n: nat)
    ensures Stoi(ToString(n)) == if n <= INT_MAX then Some(n) else None
  {
    var s := ToString(n);
    assert IsDigit(s[0]);
    assert s[..|s|] == s;
    assert DigitRun(s) == |s|;
    ValueOfToString(n);
  }
}
