/** Searching, splitting and joining of std::string values. */
module Strings {
  /** Position of the first c in s, or |s|. */
  function Find(s: string, c: char): (n: nat)
    ensures n <= |s|
    ensures forall i :: 0 <= i < n ==> s[i] != c
    ensures n < |s| ==> s[n] == c
  {
    if s == "" || s[0] == c then 0 else 1 + Find(s[1..], c)
  }

  lemma FindIs(s: string, c: char, n: nat)
    requires n <= |s| && (n < |s| ==> s[n] == c)
    requires forall i :: 0 <= i < n ==> s[i] != c
    ensures Find(s, c) == n
  {
  }

  /** std::string::find(c, from); |s| stands for npos. */
  function FindFrom(s: string, c: char, from: nat): (n: nat)
    requires from <= |s|
    ensures from <= n <= |s|
  {
    from + Find(s[from..], c)
  }

  /** The pieces of s between the separators: one more than there are separators. */
  function SplitOn(s: string, c: char): (parts: seq<string>)
    ensures |parts| > 0
    decreases |s|
  {
    var n := Find(s, c);
    if n == |s| then [s] else [s[..n]] + SplitOn(s[n + 1..], c)
  }

  function JoinOn(parts: seq<string>, c: char): string
    requires |parts| > 0
  {
    if |parts| == 1 then parts[0] else parts[0] + [c] + JoinOn(parts[1..], c)
  }

  /** Splitting undoes joining when no piece holds the separator. */
  lemma {:induction false} SplitOfJoin(parts: seq<string>, c: char)
    requires |parts| > 0
    requires forall k :: 0 <= k < |parts| ==> c !in parts[k]
    ensures SplitOn(JoinOn(parts, c), c) == parts
  {
    var s := JoinOn(parts, c);
    if |parts| == 1 {
      FindIs(s, c, |s|);
    } else {
      var n := |parts[0]|;
      FindIs(s, c, n);
      assert s[..n] == parts[0];
      assert s[n + 1..] == JoinOn(parts[1..], c);
      SplitOfJoin(parts[1..], c);
    }
  }
}
