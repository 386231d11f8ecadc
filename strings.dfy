/**
 * String helpers the planner relies on: counting and splitting on '.', the
 * cumulative dotted path built hop by hop, and decimal rendering of the index
 * used in rank-table names.
 */
module Strings {

  /** `s.count(".")` */
  function CountDots(s: string): (n: nat)
    ensures n <= |s|
    ensures n == 0 <==> '.' !in s
  {
    if s == [] then 0 else (if s[0] == '.' then 1 else 0) + CountDots(s[1..])
  }

  /** `s.split(".")`: keeps empty segments, so "a..b" has three parts and "" has one. */
  function Split(s: string): (parts: seq<string>)
    ensures |parts| >= 1
  {
    if s == [] then [""]
    else
      var rest := Split(s[1..]);
      if s[0] == '.' then [""] + rest else [[s[0]] + rest[0]] + rest[1..]
  }

  /** `".".join(parts)`, the inverse of Split. */
  function JoinDots(parts: seq<string>): string
    requires |parts| >= 1
  {
    if |parts| == 1 then parts[0] else parts[0] + "." + JoinDots(parts[1..])
  }

  predicate NoDot(s: string) {
    '.' !in s
  }

  /** There is one more part than there are dots, and no part contains a dot. */
  lemma {:induction false} SplitShape(s: string)
    ensures |Split(s)| == CountDots(s) + 1
    ensures forall i :: 0 <= i < |Split(s)| ==> NoDot(Split(s)[i])
  {
    if s != [] {
      SplitShape(s[1..]);
      var rest := Split(s[1..]);
      if s[0] != '.' {
        assert Split(s)[0] == [s[0]] + rest[0];
        forall i | 0 <= i < |Split(s)| ensures NoDot(Split(s)[i]) {
          if i > 0 { assert Split(s)[i] == rest[i]; }
        }
      }
    }
  }

  /** Joining the parts gives the original string back. */
  lemma {:induction false} JoinSplit(s: string)
    ensures JoinDots(Split(s)) == s
  {
    if s != [] {
      JoinSplit(s[1..]);
      var rest := Split(s[1..]);
      if s[0] == '.' {
        assert Split(s) == [""] + rest;
        assert Split(s)[1..] == rest;
      } else {
        var parts := Split(s);
        if |rest| == 1 {
          assert parts == [[s[0]] + rest[0]];
        } else {
          assert parts[1..] == rest[1..];
          assert JoinDots(rest) == rest[0] + "." + JoinDots(rest[1..]);
        }
      }
    }
  }

  /** Splitting a join of dot-free parts gives the parts back. */
  lemma {:induction false} SplitJoin(parts: seq<string>)
    requires |parts| >= 1
    requires forall i :: 0 <= i < |parts| ==> NoDot(parts[i])
    ensures Split(JoinDots(parts)) == parts
  {
    if |parts| == 1 {
      SplitNoDot(parts[0]);
    } else {
      SplitJoin(parts[1..]);
      SplitDotPrefix(parts[0], JoinDots(parts[1..]));
    }
  }

  lemma {:induction false} SplitNoDot(s: string)
    requires NoDot(s)
    ensures Split(s) == [s]
  {
    if s != [] {
      assert NoDot(s[1..]) by { assert forall i :: 0 <= i < |s[1..]| ==> s[1..][i] == s[i + 1]; }
      SplitNoDot(s[1..]);
      assert [s[0]] + s[1..] == s;
    }
  }

  lemma {:induction false} SplitDotPrefix(a: string, b: string)
    requires NoDot(a)
    ensures Split(a + "." + b) == [a] + Split(b)
  {
    if a == [] {
      assert a + "." + b == ['.'] + b;
      assert (['.'] + b)[1..] == b;
    } else {
      assert NoDot(a[1..]) by { assert forall i :: 0 <= i < |a[1..]| ==> a[1..][i] == a[i + 1]; }
      SplitDotPrefix(a[1..], b);
      assert (a + "." + b)[1..] == a[1..] + "." + b;
      assert (a + "." + b)[0] == a[0];
      assert [a[0]] + a[1..] == a;
    }
  }

  /** One step of `cp = f"{cp}.{key}" if cp else key`. */
  function CumStep(cp: string, key: string): (r: string)
    ensures cp == "" ==> r == key
    ensures cp != "" ==> |r| == |cp| + 1 + |key| && r[..|cp|] == cp && r[|cp|] == '.'
  {
    if cp == "" then key else cp + "." + key
  }

  function Digit(d: nat): (c: char)
    requires d < 10
  {
    "0123456789"[d]
  }

  /** `str(n)` for a natural number: decimal digits, no leading zeros. */
  function NatToString(n: nat): (s: string)
    ensures |s| >= 1
    ensures forall i :: 0 <= i < |s| ==> '0' <= s[i] <= '9'
    decreases n
  {
    if n < 10 then [Digit(n)] else NatToString(n / 10) + [Digit(n % 10)]
  }

  lemma DigitInjective(a: nat, b: nat)
    requires a < 10 && b < 10 && Digit(a) == Digit(b)
    ensures a == b
  {
  }

  /** Distinct numbers print differently. */
  lemma {:induction false} NatToStringInjective(a: nat, b: nat)
    requires NatToString(a) == NatToString(b)
    ensures a == b
    decreases a + b
  {
    var sa, sb := NatToString(a), NatToString(b);
    if a < 10 && b < 10 {
      DigitInjective(a, b);
    } else if a >= 10 && b >= 10 {
      assert sa[|sa| - 1] == Digit(a % 10) && sb[|sb| - 1] == Digit(b % 10);
      DigitInjective(a % 10, b % 10);
      assert sa[..|sa| - 1] == NatToString(a / 10);
      assert sb[..|sb| - 1] == NatToString(b / 10);
      NatToStringInjective(a / 10, b / 10);
    }
  }
}
