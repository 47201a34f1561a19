/**
 Percent triplets (section 2.1 of RFC 3986) as the client writes and reads them:
 LightstreamerRequest::percentEncodeTLCP and EncodingUtils::unquote.
 A char stands for one byte of a std::string.
 */
module Percent {
  import Common

  predicate IsSpecial(c: char) {
    c == '\r' || c == '\n' || c == '%' || c == '+' || c == '&' || c == '='
  }

  predicate IsHex(c: char) {
    '0' <= c <= '9' || 'a' <= c <= 'f' || 'A' <= c <= 'F'
  }

  /** EncodingUtils::hexToNum; the source asserts that the digit is hexadecimal. */
  function HexToNum(c: char): (n: nat)
    requires IsHex(c)
    ensures n < 16
  {
    if c >= 'a' then c as int - 'a' as int + 10
    else if c >= 'A' then c as int - 'A' as int + 10
    else c as int - '0' as int
  }

  function HexDigit(n: nat): (c: char)
    requires n < 16
    ensures IsHex(c) && HexToNum(c) == n
  {
    if n < 10 then ('0' as int + n) as char else ('A' as int + (n - 10)) as char
  }

  function Triplet(c: char): string
    requires c as int < 256
  {
    ['%', HexDigit(c as int / 16), HexDigit(c as int % 16)]
  }

  function EncodeChar(c: char): string {
    if IsSpecial(c) then Triplet(c) else [c]
  }

  function Encode(s: string): string {
    if s == "" then "" else EncodeChar(s[0]) + Encode(s[1..])
  }

  /** LightstreamerRequest::percentEncodeTLCP. */
  method PercentEncodeTLCP(str: string) returns (encoded: string)
    ensures encoded == Encode(str)
    ensures Unquote(encoded) == Text(str)
    ensures '\r' !in encoded && '\n' !in encoded && '+' !in encoded && '&' !in encoded && '=' !in encoded
  {
    hide Encode, Unquote;
    assert str[0..] == str && "" + Encode(str) == Encode(str);
    encoded := "";
    for i := 0 to |str|
      invariant encoded + Encode(str[i..]) == Encode(str)
    {
      EncodeFirst(str, i);
      Common.ConcatAssociative(encoded, EncodeChar(str[i]), Encode(str[i + 1..]));
      if IsSpecial(str[i]) {
        encoded := encoded + Triplet(str[i]);
      } else {
        encoded := encoded + [str[i]];
      }
    }
    EncodeNothing(str);
    assert encoded + "" == encoded;
    UnquoteOfEncode(str);
    EncodeIsSafe(str);
  }

  lemma EncodeFirst(str: string, i: nat)
    requires i < |str|
    ensures Encode(str[i..]) == EncodeChar(str[i]) + Encode(str[i + 1..])
  {
  }

  lemma EncodeNothing(str: string)
    ensures Encode(str[|str|..]) == ""
  {
  }

  /** How a call of unquote ends. NotHex: the assertion of hexToNum fails. Stuck: the loop never ends. */
  datatype Unquoted = Text(text: string) | NotHex | Stuck

  function Prepend(c: char, u: Unquoted): Unquoted {
    if u.Text? then Text([c] + u.text) else u
  }

  function Append(s: string, u: Unquoted): Unquoted {
    if u.Text? then Text(s + u.text) else u
  }

  function Decoded(hi: char, lo: char): char
    requires IsHex(hi) && IsHex(lo)
  {
    (16 * HexToNum(hi) + HexToNum(lo)) as char
  }

  function Unquote(s: string): Unquoted {
    if s == "" then Text("")
    else if s[0] != '%' then Prepend(s[0], Unquote(s[1..]))
    else if |s| <= 2 then Stuck
    else if !IsHex(s[1]) || !IsHex(s[2]) then NotHex
    else Prepend(Decoded(s[1], s[2]), Unquote(s[3..]))
  }

  /** EncodingUtils::unquote. The source asserts that the text is not empty. */
  method UnquoteText(s: string) returns (u: Unquoted)
    requires s != ""
    ensures u == Unquote(s)
    ensures u.Text? <==> EveryPercentIsTriplet(s)
  {
    hide Unquote, EveryPercentIsTriplet;
    UnquoteSucceedsIff(s);
    LoopStartsWithPromise(s);
    var i, result := 0, "";
    while i < |s|
      invariant i <= |s| && Promised(s, At(i, result)) == Unquote(s)
    {
      LoopBodyKeepsPromise(s, At(i, result));
      if s[i] == '%' {
        if i + 2 < |s| {
          if !IsHex(s[i + 1]) || !IsHex(s[i + 2]) {
            return NotHex;
          }
          result := result + [Decoded(s[i + 1], s[i + 2])];
          i := i + 3;
        } else {
          return Stuck;  // the source comes back to the loop test with the same i
        }
      } else {
        result := result + [s[i]];
        i := i + 1;
      }
    }
    LoopEndsWithPromise(s, result);
    u := Text(result);
  }

  ghost predicate EveryPercentIsTriplet(s: string) {
    forall i :: 0 <= i < |s| && s[i] == '%' ==> i + 2 < |s| && IsHex(s[i + 1]) && IsHex(s[i + 2])
  }

  lemma EveryPercentTail(s: string, n: nat)
    requires n <= |s|
    requires forall i :: 0 <= i < n && s[i] == '%' ==> i + 2 < |s| && IsHex(s[i + 1]) && IsHex(s[i + 2])
    ensures EveryPercentIsTriplet(s) <==> EveryPercentIsTriplet(s[n..])
  {
  }

  /** unquote returns a text exactly when every '%' is followed by two hexadecimal digits. */
  lemma {:induction false} UnquoteSucceedsIff(s: string)
    ensures Unquote(s).Text? <==> EveryPercentIsTriplet(s)
  {
    if s == "" {
    } else if s[0] != '%' {
      UnquoteSucceedsIff(s[1..]);
      EveryPercentTail(s, 1);
    } else if |s| > 2 && IsHex(s[1]) && IsHex(s[2]) {
      UnquoteSucceedsIff(s[3..]);
      EveryPercentTail(s, 3);
    }
  }

  /** unquote inverts percentEncodeTLCP. */
  lemma {:induction false} UnquoteOfEncode(s: string)
    ensures Unquote(Encode(s)) == Text(s)
  {
    if s != "" {
      UnquoteOfEncode(s[1..]);
      var e := Encode(s);
      if IsSpecial(s[0]) {
        assert e[3..] == Encode(s[1..]);
        assert Decoded(e[1], e[2]) == s[0];
      } else {
        assert e[1..] == Encode(s[1..]);
      }
      assert [s[0]] + s[1..] == s;
    }
  }

  /** What the encoder lets through: no line end, plus sign, ampersand or equals sign, and a '%' only in front of
      two hexadecimal digits. */
  lemma {:induction false} EncodeIsSafe(s: string)
    ensures var e := Encode(s);
      && '\r' !in e && '\n' !in e && '+' !in e && '&' !in e && '=' !in e
      && EveryPercentIsTriplet(e)
  {
    if s != "" {
      EncodeIsSafe(s[1..]);
      var e, n := Encode(s), |EncodeChar(s[0])|;
      assert e[n..] == Encode(s[1..]);
      EveryPercentTail(e, n);
    }
  }

  lemma {:induction false} EncodeConcat(s: string, t: string)
    ensures Encode(s + t) == Encode(s) + Encode(t)
  {
    hide EncodeChar;
    if s == "" {
      assert s + t == t;
    } else {
      EncodeConcat(s[1..], t);
      assert (s + t)[0] == s[0] && (s + t)[1..] == s[1..] + t;
      Common.ConcatAssociative(EncodeChar(s[0]), Encode(s[1..]), Encode(t));
    }
  }

  lemma EncodeOne(c: char)
    ensures if c in {'\r', '\n', '%', '+', '&', '='} then |Encode([c])| == 3 else Encode([c]) == [c]
  {
    assert [c][1..] == "";
  }

  /** Every character is written on its own: as it is, or, if it is one of six, as three characters. */
  lemma EncodeCharByChar(s: string, t: string, c: char)
    ensures Encode(s + [c] + t) == Encode(s) + Encode([c]) + Encode(t)
    ensures if c in {'\r', '\n', '%', '+', '&', '='} then |Encode([c])| == 3 else Encode([c]) == [c]
  {
    EncodeConcat(s + [c], t);
    EncodeConcat(s, [c]);
    EncodeOne(c);
  }

  /** The hexadecimal digits that unquote understands, in both cases, and their values. */
  lemma HexDigits(c: char, n: nat)
    requires n < 16
    ensures IsHex(c) <==> c in "0123456789abcdefABCDEF"
    ensures var lower, upper := "0123456789abcdef"[n], "0123456789ABCDEF"[n];
      && IsHex(lower) && HexToNum(lower) == n
      && IsHex(upper) && HexToNum(upper) == n
  {
    if c !in "0123456789abcdefABCDEF" { NoOtherHexDigit(c); }
  }

  lemma NoOtherHexDigit(c: char)
    requires c !in "0123456789abcdefABCDEF"
    ensures !IsHex(c)
  {
    var s := "0123456789abcdefABCDEF";
    assert forall i :: 0 <= i < |s| ==> s[i] != c;
    assert s[0] != c && s[1] != c && s[2] != c && s[3] != c && s[4] != c && s[5] != c && s[6] != c && s[7] != c;
    assert s[8] != c && s[9] != c && s[10] != c && s[11] != c && s[12] != c && s[13] != c && s[14] != c && s[15] != c;
    assert s[16] != c && s[17] != c && s[18] != c && s[19] != c && s[20] != c && s[21] != c;
  }

  /** A reader of forms turns every plus sign into a space before it unquotes. */
  function PlusToSpace(s: string): (r: string)
    ensures |r| == |s|
  {
    seq(|s|, i requires 0 <= i < |s| => if s[i] == '+' then ' ' else s[i])
  }

  /** Such a reader, too, gets back every text. */
  lemma FormReaderGetsText(s: string)
    ensures Unquote(PlusToSpace(Encode(s))) == Text(s)
  {
    EncodeIsSafe(s);
    UnquoteOfEncode(s);
    assert PlusToSpace(Encode(s)) == Encode(s);
  }

  /** Digits are written in upper case. */
  lemma EncodedPlus()
    ensures Encode("a+b") == "a%2Bb"
  {
    assert "a+b"[1..] == "+b" && "+b"[1..] == "b" && "b"[1..] == "";
  }

  /** wire is some percent encoding of text: each character is itself or a triplet, at the writer's choice. */
  predicate Encodes(text: string, wire: string) {
    if text == "" || wire == "" then text == wire
    else if wire[0] != '%' then wire[0] == text[0] && Encodes(text[1..], wire[1..])
    else |wire| > 2 && IsHex(wire[1]) && IsHex(wire[2]) && Decoded(wire[1], wire[2]) == text[0]
         && Encodes(text[1..], wire[3..])
  }

  /** unquote decodes the work of every percent encoder, and nothing else. */
  lemma {:induction false} UnquoteInvertsEveryEncoder(text: string, wire: string)
    ensures Encodes(text, wire) <==> Unquote(wire) == Text(text)
  {
    if wire != "" {
      var rest := if wire[0] != '%' then wire[1..] else if |wire| > 2 then wire[3..] else "";
      if text != "" {
        UnquoteInvertsEveryEncoder(text[1..], rest);
        assert text == [text[0]] + text[1..];
      }
    }
  }

  // ---- the loop of unquote, iteration by iteration ----

  datatype LoopState = At(i: nat, result: string) | Failed

  /** One run of the loop body from index i: the '%' too near the end leaves the state as it is. */
  function LoopBody(s: string, c: LoopState): LoopState
    requires c.At? && c.i < |s|
  {
    if s[c.i] == '%' then
      if c.i + 2 < |s| then
        if IsHex(s[c.i + 1]) && IsHex(s[c.i + 2])
        then At(c.i + 3, c.result + [Decoded(s[c.i + 1], s[c.i + 2])])
        else Failed
      else c
    else At(c.i + 1, c.result + [s[c.i]])
  }

  predicate Running(s: string, c: LoopState) { c.At? && c.i < |s| }

  /** The state after n runs of the loop from c. */
  function Iterate(s: string, c: LoopState, n: nat): LoopState
    decreases n
  {
    if n == 0 || !Running(s, c) then c else Iterate(s, LoopBody(s, c), n - 1)
  }

  /** The text still promised by a state of the loop. */
  function Promised(s: string, c: LoopState): Unquoted
    requires c.At? && c.i <= |s|
  {
    Append(c.result, Unquote(s[c.i..]))
  }

  lemma LoopBodyKeepsPromise(s: string, c: LoopState)
    requires Running(s, c)
    ensures var d := LoopBody(s, c);
      && (d.Failed? ==> Promised(s, c).NotHex?)
      && (d == c ==> Promised(s, c).Stuck?)
      && (d.At? && d != c ==> c.i < d.i <= |s| && Promised(s, d) == Promised(s, c))
  {
  }

  lemma LoopStartsWithPromise(s: string)
    ensures Promised(s, At(0, "")) == Unquote(s)
  {
  }

  lemma LoopEndsWithPromise(s: string, result: string)
    ensures Promised(s, At(|s|, result)) == Text(result)
  {
  }

  lemma {:induction false} LoopOutcome(s: string, c: LoopState) returns (n: nat)
    requires c.At? && c.i <= |s|
    ensures match Promised(s, c)
      case Text(t) => Iterate(s, c, n) == At(|s|, t)
      case NotHex => Iterate(s, c, n) == Failed
      case Stuck => Running(s, Iterate(s, c, n)) && LoopBody(s, Iterate(s, c, n)) == Iterate(s, c, n)
    decreases |s| - c.i
  {
    n := 0;
    if c.i < |s| {
      LoopBodyKeepsPromise(s, c);
      var d := LoopBody(s, c);
      if d.Failed? {
        n := 1;
        assert Iterate(s, d, 0) == d;
      } else if d != c {
        var m := LoopOutcome(s, d);
        n := m + 1;
      }
    }
  }

  lemma {:induction false} StaysFixed(s: string, c: LoopState, n: nat)
    requires !Running(s, c) || LoopBody(s, c) == c
    ensures Iterate(s, c, n) == c
    decreases n
  {
    if n > 0 && Running(s, c) { StaysFixed(s, c, n - 1); }
  }

  lemma {:induction false} IterateSum(s: string, c: LoopState, m: nat, n: nat)
    ensures Iterate(s, c, m + n) == Iterate(s, Iterate(s, c, m), n)
    decreases m
  {
    if m > 0 {
      if Running(s, c) { IterateSum(s, LoopBody(s, c), m - 1, n); } else { StaysFixed(s, c, n); }
    }
  }

  /** The first '%' without two hexadecimal digits behind it comes too near to the end to have them. */
  ghost predicate TruncatedAt(s: string, i: nat) {
    && i < |s| && s[i] == '%' && i + 2 >= |s|
    && forall j :: 0 <= j < i && s[j] == '%' ==> j + 2 < |s| && IsHex(s[j + 1]) && IsHex(s[j + 2])
  }

  ghost predicate IsTruncated(s: string) { exists i: nat :: TruncatedAt(s, i) }

  lemma TruncatedTail(s: string, n: nat)
    requires n <= |s|
    requires forall i :: 0 <= i < n && s[i] == '%' ==> i + 2 < |s| && IsHex(s[i + 1]) && IsHex(s[i + 2])
    ensures IsTruncated(s) <==> IsTruncated(s[n..])
  {
    var t := s[n..];
    if i: nat :| TruncatedAt(s, i) {
      assert i >= n;
      forall j | 0 <= j < i - n && t[j] == '%' ensures j + 2 < |t| && IsHex(t[j + 1]) && IsHex(t[j + 2]) {
        assert s[j + n] == t[j];
      }
      assert TruncatedAt(t, i - n);
    }
    if i: nat :| TruncatedAt(t, i) {
      forall j | 0 <= j < i + n && s[j] == '%' ensures j + 2 < |s| && IsHex(s[j + 1]) && IsHex(s[j + 2]) {
        if j >= n { assert t[j - n] == s[j]; }
      }
      assert TruncatedAt(s, i + n);
    }
  }

  lemma {:induction false} UnquoteIsStuckIff(s: string)
    ensures Unquote(s).Stuck? <==> IsTruncated(s)
  {
    if s != "" {
      if s[0] != '%' {
        UnquoteIsStuckIff(s[1..]);
        TruncatedTail(s, 1);
      } else if |s| <= 2 {
        assert TruncatedAt(s, 0);
      } else if IsHex(s[1]) && IsHex(s[2]) {
        UnquoteIsStuckIff(s[3..]);
        TruncatedTail(s, 3);
      }
    }
  }

  /** The loop of unquote runs for ever exactly on the texts that are truncated in this way. */
  lemma UnquoteDivergesIff(s: string)
    ensures IsTruncated(s) <==> forall n: nat :: Running(s, Iterate(s, At(0, ""), n))
  {
    UnquoteIsStuckIff(s);
    StuckIsForEver(s);
  }

  /** A truncated triplet at the end keeps the loop going; one behind a malformed triplet is never reached. */
  lemma TruncatedTexts()
    ensures IsTruncated("ab%4") && !IsTruncated("%zz%") && Unquote("%zz%") == NotHex
  {
    assert TruncatedAt("ab%4", 2);
    UnquoteIsStuckIff("%zz%");
  }

  lemma StuckIsForEver(s: string)
    ensures Unquote(s).Stuck? <==> forall n: nat :: Running(s, Iterate(s, At(0, ""), n))
  {
    var c := At(0, "");
    assert s[0..] == s;
    var n := LoopOutcome(s, c);
    if Unquote(s).Stuck? {
      forall k: nat ensures Running(s, Iterate(s, c, k)) {
        if k >= n {
          IterateSum(s, c, n, k - n);
          StaysFixed(s, Iterate(s, c, n), k - n);
        } else {
          IterateSum(s, c, k, n - k);
        }
      }
    } else {
      assert !Running(s, Iterate(s, c, n));
    }
  }
}
